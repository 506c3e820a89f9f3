/** Following the cursors visits every active item once, in order, whatever is inserted behind the reader. */
module KeysetWalk {
  import opened Wrappers
  import opened Base64
  import opened Keyset
  import Utf8

  // ---- The cursor -----------------------------------------------------------------------------

  lemma {:induction false} BarAfter(a: string, b: string)
    requires '|' !in a
    ensures Bar(a + ("|" + b)) == |a|
  {
    if a == "" {
      assert a + ("|" + b) == "|" + b;
    } else {
      assert (a + ("|" + b))[1..] == a[1..] + ("|" + b);
      BarAfter(a[1..], b);
    }
  }

  lemma BarSplit(a: string, b: string)
    requires '|' !in a
    ensures var s := a + ("|" + b); Bar(s) == |a| < |s| && s[..Bar(s)] == a && s[Bar(s) + 1..] == b
  {
    BarAfter(a, b);
  }

  lemma TextRoundTrip(s: string)
    ensures DecodeBytes(Encode(Utf8.Encoded(s))) == Some(Utf8.Encoded(s)) && Utf8.Decoded(Utf8.Encoded(s)) == Some(s)
  {
    RoundTrip(Utf8.Encoded(s));
    Utf8.DecodedEncoded(s);
  }

  /** Decoding a cursor gives back the place it was made for. */
  lemma CursorRoundTrip(x: Texts, p: Place)
    requires Faithful(x)
    ensures DecodeCursor(x, EncodeCursor(x, p)) == Some(p)
  {
    var (a, b) := (x.iso(p.created), x.hex(p.id));
    TextRoundTrip(a + ("|" + b));
    BarSplit(a, b);
    assert x.time(x.iso(p.created)) == Some(p.created) && x.uuid(x.hex(p.id)) == Some(p.id);
  }

  /** A character outside the alphabet, ASCII or not, changes nothing wherever it stands in a cursor. */
  lemma StrayInCursor(x: Texts, a: string, c: char, b: string)
    requires c != '=' && Sextet(c).None?
    ensures DecodeCursor(x, a + ([c] + b)) == DecodeCursor(x, a + b)
  {
    StrayIgnored(a, c, b);
  }

  // ---- Order ----------------------------------------------------------------------------------

  /** Newest first; of one time, the greater id first. */
  predicate Falling(s: seq<Item>) {
    forall i, j :: 0 <= i < j < |s| ==> s[j].created < s[i].created || (s[j].created == s[i].created && s[j].id < s[i].id)
  }

  /** The id is the primary key. */
  predicate Keyed(rows: seq<Item>) {
    forall i, j :: 0 <= i < j < |rows| ==> rows[i].id != rows[j].id
  }

  lemma {:induction false} InsertFalls(s: seq<Item>, i: Item)
    requires Falling(s) && forall k :: 0 <= k < |s| ==> s[k].id != i.id
    ensures Falling(Insert(s, i)) && forall y :: y in Insert(s, i) <==> y in s || y == i
  {
    if s != [] && !Less(PlaceOf(s[0]), PlaceOf(i)) {
      var rest := s[1..];
      InsertFalls(rest, i);
      assert s == [s[0]] + rest;
      var r := Insert(rest, i);
      forall k | 0 <= k < |r| ensures Less(PlaceOf(r[k]), PlaceOf(s[0])) {
        assert r[k] in r;
        if r[k] in rest { var n :| 0 <= n < |rest| && rest[n] == r[k]; assert s[n + 1] == r[k]; }
      }
    }
  }

  lemma {:induction false} SortedFalls(rows: seq<Item>)
    requires Keyed(rows)
    ensures Falling(Sorted(rows)) && forall y :: y in Sorted(rows) <==> y in rows
  {
    if rows != [] {
      var (init, last) := (rows[..|rows| - 1], rows[|rows| - 1]);
      assert rows == init + [last];
      SortedFalls(init);
      var s := Sorted(init);
      forall k | 0 <= k < |s| ensures s[k].id != last.id {
        assert s[k] in s && s[k] in init;
      }
      InsertFalls(s, last);
    }
  }

  lemma {:induction false} MatchingIff(rows: seq<Item>, after: Option<Place>)
    ensures forall y :: y in Matching(rows, after) <==> y in rows && Wanted(y, after)
    ensures Keyed(rows) ==> Keyed(Matching(rows, after))
  {
    if rows != [] {
      var (init, last) := (rows[..|rows| - 1], rows[|rows| - 1]);
      assert rows == init + [last];
      MatchingIff(init, after);
      var m := Matching(init, after);
      if Keyed(rows) {
        forall k | 0 <= k < |m| ensures m[k].id != last.id { assert m[k] in m && m[k] in init; }
      }
    }
  }

  /** The answer to the query: exactly the active items older than the place, or as old with a smaller id, falling. */
  lemma RemainingIs(rows: seq<Item>, after: Option<Place>)
    requires Keyed(rows)
    ensures Falling(Remaining(rows, after))
    ensures forall y :: y in Remaining(rows, after) <==>
              && y in rows && y.active
              && (after == None || y.created < after.value.created || (y.created == after.value.created && y.id < after.value.id))
  {
    MatchingIff(rows, after);
    SortedFalls(Matching(rows, after));
  }

  lemma HeadsEqual(a: seq<Item>, b: seq<Item>)
    requires Falling(a) && Falling(b) && a != [] && b != [] && a[0] in b && b[0] in a
    ensures a[0] == b[0]
  {}

  /** A falling sequence is determined by its members. */
  lemma {:induction false} FallingUnique(a: seq<Item>, b: seq<Item>)
    requires Falling(a) && Falling(b) && forall y :: y in a <==> y in b
    ensures a == b
  {
    assert a != [] ==> a[0] in a;
    assert b != [] ==> b[0] in b;
    if a != [] {
      HeadsEqual(a, b);
      var (x, y) := (a[1..], b[1..]);
      assert a == [a[0]] + x && b == [b[0]] + y;
      forall z ensures z in x <==> z in y {
        assert z in x ==> z in a && z != a[0];
        assert z in y ==> z in b && z != b[0];
      }
      FallingUnique(x, y);
    }
  }

  // ---- One page on ----------------------------------------------------------------------------

  predicate Behind(i: Item, p: Place) { i.created < p.created || (i.created == p.created && i.id < p.id) }

  /** Only items at or ahead of the reader's place come, go or change. */
  ghost predicate Undisturbed(rows: seq<Item>, rows': seq<Item>, p: Place) {
    forall y :: Behind(y, p) ==> (y in rows <==> y in rows')
  }

  /** The rest of a falling answer is the answer to the query at the last item read. */
  lemma RestIsNext(rows: seq<Item>, rows': seq<Item>, after: Option<Place>, n: nat)
    requires Keyed(rows) && Keyed(rows') && 0 < n <= |Remaining(rows, after)|
    requires Undisturbed(rows, rows', PlaceOf(Remaining(rows, after)[n - 1]))
    ensures Remaining(rows', Some(PlaceOf(Remaining(rows, after)[n - 1]))) == Remaining(rows, after)[n..]
  {
    var all := Remaining(rows, after);
    var (rest, p) := (all[n..], PlaceOf(all[n - 1]));
    RemainingIs(rows, after);
    RemainingIs(rows', Some(p));
    forall y ensures y in rest <==> y in Remaining(rows', Some(p)) {
      if y in rest {
        var k :| 0 <= k < |rest| && rest[k] == y;
        assert all[n + k] == y && y in all;
        assert Behind(y, p);
      }
      if y in rows' && Wanted(y, Some(p)) {
        assert Behind(y, p) && y in rows;
        assert Wanted(y, after) by { if after.Some? { assert all[n - 1] in all; } }
        var k :| 0 <= k < |all| && all[k] == y;
        assert k >= n;
        assert rest[k - n] == y;
      }
    }
    FallingUnique(rest, Remaining(rows', Some(p)));
  }

  // ---- The walk -------------------------------------------------------------------------------

  /** One request: the table it finds, the cursor it sends, the page it gets. */
  datatype Visit = Visit(rows: seq<Item>, cursor: Option<string>, page: Page)

  predicate Answered(x: Texts, v: Visit, limit: nat) { v.page == PageFor(x, v.rows, v.cursor, limit) }

  predicate Linked(v: Visit, w: Visit) { v.page.Page? && v.page.next.Some? && w.cursor == v.page.next }

  predicate Follows(x: Texts, walk: seq<Visit>, limit: nat) {
    && walk != [] && walk[0].cursor == None
    && (forall k :: 0 <= k < |walk| ==> Answered(x, walk[k], limit))
    && forall k :: 0 <= k < |walk| - 1 ==> Linked(walk[k], walk[k + 1])
  }

  function LastPlace(v: Visit): Place
    requires v.page.Page? && v.page.items != []
  {
    PlaceOf(v.page.items[|v.page.items| - 1])
  }

  /** Between two requests, changes only at or ahead of the last item read. */
  ghost predicate QuietStep(v: Visit, w: Visit) {
    Keyed(v.rows) && Keyed(w.rows) && (v.page.Page? && v.page.items != [] ==> Undisturbed(v.rows, w.rows, LastPlace(v)))
  }

  ghost predicate Quiet(walk: seq<Visit>) {
    && (walk != [] ==> Keyed(walk[0].rows))
    && forall k :: 0 <= k < |walk| - 1 ==> QuietStep(walk[k], walk[k + 1])
  }

  function Collected(walk: seq<Visit>): seq<Item> {
    if walk == [] then []
    else Collected(walk[..|walk| - 1]) + match walk[|walk| - 1].page case Failed => [] case Page(items, _) => items
  }

  function PlaceFor(x: Texts, cursor: Option<string>): Option<Place> {
    if cursor.None? then None else DecodeCursor(x, cursor.value)
  }

  predicate Readable(x: Texts, cursor: Option<string>) { cursor.None? || PlaceFor(x, cursor).Some? }

  lemma PageShape(x: Texts, rows: seq<Item>, cursor: Option<string>, limit: nat)
    requires limit >= 1 && Readable(x, cursor)
    ensures var (page, left) := (PageFor(x, rows, cursor, limit), Remaining(rows, PlaceFor(x, cursor)));
            && page.Page? && (page.next.Some? <==> |left| > limit)
            && page.items == (if |left| > limit then left[..limit] else left)
            && (|left| > limit ==> page.next == Some(EncodeCursor(x, PlaceOf(left[limit - 1]))))
  {}

  /** The next request finds exactly what this one left over. */
  lemma NextRequest(x: Texts, v: Visit, rows': seq<Item>, limit: nat)
    requires Faithful(x) && limit >= 1 && Keyed(v.rows) && Keyed(rows') && Readable(x, v.cursor)
    requires v.page == PageFor(x, v.rows, v.cursor, limit) && v.page.Page? && v.page.next.Some?
    requires v.page.items != [] ==> Undisturbed(v.rows, rows', LastPlace(v))
    ensures var left := Remaining(v.rows, PlaceFor(x, v.cursor));
            && |left| > limit && v.page.items == left[..limit]
            && Readable(x, v.page.next) && Remaining(rows', PlaceFor(x, v.page.next)) == left[limit..]
  {
    var left := Remaining(v.rows, PlaceFor(x, v.cursor));
    PageShape(x, v.rows, v.cursor, limit);
    CursorRoundTrip(x, PlaceOf(left[limit - 1]));
    RestIsNext(v.rows, rows', PlaceFor(x, v.cursor), limit);
  }

  /** How many items `k` full pages hold. */
  function Full(k: nat, limit: nat): nat {
    if k == 0 then 0 else Full(k - 1, limit) + limit
  }

  lemma {:induction false} FullIs(k: nat, limit: nat)
    ensures Full(k, limit) == k * limit
  {
    if k > 0 { FullIs(k - 1, limit); }
  }

  lemma Shift(all: seq<Item>, n: nat, limit: nat)
    requires n + limit <= |all|
    ensures all[n..][limit..] == all[n + limit..] && all[..n] + all[n..][..limit] == all[..n + limit]
  {}

  /** What is still to come at a request is what the first table held, less the pages read. */
  ghost predicate Reached(x: Texts, v: Visit, read: seq<Item>, n: nat, all: seq<Item>) {
    && n <= |all| && read == all[..n]
    && Readable(x, v.cursor) && Remaining(v.rows, PlaceFor(x, v.cursor)) == all[n..]
  }

  lemma ReachedNext(x: Texts, v: Visit, w: Visit, read: seq<Item>, n: nat, all: seq<Item>, limit: nat)
    requires Reached(x, v, read, n, all) && Faithful(x) && limit >= 1
    requires Answered(x, v, limit) && Linked(v, w) && QuietStep(v, w)
    ensures Reached(x, w, read + v.page.items, n + limit, all)
  {
    NextRequest(x, v, w.rows, limit);
    Shift(all, n, limit);
  }

  lemma CollectedNext(walk: seq<Visit>, k: nat)
    requires k < |walk| && walk[k].page.Page?
    ensures Collected(walk[..k + 1]) == Collected(walk[..k]) + walk[k].page.items
  {
    assert walk[..k + 1][..k] == walk[..k];
  }

  ghost predicate AllRead(x: Texts, walk: seq<Visit>, limit: nat, k: nat, all: seq<Item>)
    requires k < |walk|
  {
    Reached(x, walk[k], Collected(walk[..k]), Full(k, limit), all)
  }

  lemma RequestStep(x: Texts, walk: seq<Visit>, limit: nat, k: nat, all: seq<Item>)
    requires k + 1 < |walk| && Faithful(x) && limit >= 1 && AllRead(x, walk, limit, k, all)
    requires Answered(x, walk[k], limit) && Linked(walk[k], walk[k + 1]) && QuietStep(walk[k], walk[k + 1])
    ensures AllRead(x, walk, limit, k + 1, all)
  {
    ReachedNext(x, walk[k], walk[k + 1], Collected(walk[..k]), Full(k, limit), all, limit);
    CollectedNext(walk, k);
  }

  lemma {:induction false} AtRequest(x: Texts, walk: seq<Visit>, limit: nat, k: nat)
    requires Faithful(x) && limit >= 1 && Follows(x, walk, limit) && Quiet(walk) && k < |walk|
    ensures AllRead(x, walk, limit, k, Remaining(walk[0].rows, None))
    decreases k
  {
    if k > 0 {
      AtRequest(x, walk, limit, k - 1);
      RequestStep(x, walk, limit, k - 1, Remaining(walk[0].rows, None));
    }
  }

  /** At the last request: the page holds all that was left. */
  lemma LastPage(x: Texts, v: Visit, read: seq<Item>, n: nat, all: seq<Item>, limit: nat)
    requires Reached(x, v, read, n, all) && limit >= 1 && Answered(x, v, limit)
    ensures v.page.Page? && (v.page.next.None? <==> |all| <= n + limit)
    ensures v.page.next.None? ==> read + v.page.items == all
  {
    PageShape(x, v.rows, v.cursor, limit);
    assert all[..n] + all[n..] == all;
  }

  lemma CollectsAll(x: Texts, walk: seq<Visit>, limit: nat)
    requires Faithful(x) && limit >= 1 && Follows(x, walk, limit) && Quiet(walk)
    requires walk[|walk| - 1].page.Page? && walk[|walk| - 1].page.next.None?
    ensures Collected(walk) == Remaining(walk[0].rows, None)
  {
    var n := |walk| - 1;
    AtRequest(x, walk, limit, n);
    LastPage(x, walk[n], Collected(walk[..n]), Full(n, limit), Remaining(walk[0].rows, None), limit);
    CollectedNext(walk, n);
    assert walk[..n + 1] == walk;
  }

  /**
    Following the cursors to the end returns every active item of the first table once, in falling
    order, and nothing else, whatever came or went at or ahead of the reader meanwhile.
   */
  lemma WalkReturnsEverything(x: Texts, walk: seq<Visit>, limit: nat)
    requires Faithful(x) && limit >= 1 && Follows(x, walk, limit) && Quiet(walk)
    requires walk[|walk| - 1].page.Page? && walk[|walk| - 1].page.next.None?
    ensures Falling(Collected(walk))
    ensures forall y :: y in Collected(walk) <==> y in walk[0].rows && y.active
  {
    CollectsAll(x, walk, limit);
    RemainingIs(walk[0].rows, None);
  }

  /** The walk ends: no request fails, and there are no more requests than full pages of the first table. */
  lemma WalkEnds(x: Texts, walk: seq<Visit>, limit: nat)
    requires Faithful(x) && limit >= 1 && Follows(x, walk, limit) && Quiet(walk)
    ensures var n := |Remaining(walk[0].rows, None)|;
            && (|walk| - 1) * limit <= n
            && walk[|walk| - 1].page.Page?
            && (walk[|walk| - 1].page.next.None? <==> n <= |walk| * limit)
  {
    var (k, all) := (|walk| - 1, Remaining(walk[0].rows, None));
    AtRequest(x, walk, limit, k);
    LastPage(x, walk[k], Collected(walk[..k]), Full(k, limit), all, limit);
    FullIs(k, limit);
    FullIs(|walk|, limit);
    assert Full(|walk|, limit) == Full(k, limit) + limit;
  }

  /** A limit of zero steps over items without returning them: the walk needs at least one per page. */
  lemma ZeroLimitSkips(x: Texts, rows: seq<Item>)
    requires Faithful(x) && Keyed(rows) && |Remaining(rows, None)| >= 1
    ensures var all := Remaining(rows, None);
            var page := PageFor(x, rows, None, 0);
            && page.Page? && page.items == [] && page.next.Some?
            && Remaining(rows, PlaceFor(x, page.next)) == all[1..]
  {
    var all := Remaining(rows, None);
    CursorRoundTrip(x, PlaceOf(all[0]));
    RestIsNext(rows, rows, None, 1);
  }
}
