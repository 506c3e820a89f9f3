/** What the fused ranking promises: every id once, best score first, dominance respected. */
module FusionOrder {
  import opened Wrappers
  import opened Fusion

  predicate Unique(ids: seq<Id>) { forall i, j :: 0 <= i < j < |ids| ==> ids[i] != ids[j] }

  /** The index at which an id stands. */
  function Place(ids: seq<Id>, id: Id): (p: nat)
    ensures p <= |ids| && (id in ids ==> p < |ids| && ids[p] == id) && (id !in ids ==> p == |ids|)
  {
    if ids == [] || ids[0] == id then 0 else 1 + Place(ids[1..], id)
  }

  // ---- Each id once ---------------------------------------------------------------------------

  lemma {:induction false} SeenInUnique(seen: seq<Id>, list: seq<Id>)
    requires Unique(seen)
    ensures Unique(SeenIn(seen, list))
  {
    if list != [] { SeenInUnique(seen, list[..|list| - 1]); }
  }

  lemma {:induction false} SeenUnique(lists: seq<seq<Id>>)
    ensures Unique(Seen(lists))
  {
    if lists != [] {
      SeenUnique(lists[..|lists| - 1]);
      SeenInUnique(Seen(lists[..|lists| - 1]), lists[|lists| - 1]);
    }
  }

  predicate Occurs(lists: seq<seq<Id>>, id: Id) { exists i :: 0 <= i < |lists| && id in lists[i] }

  lemma {:induction false} SeenIff(lists: seq<seq<Id>>, id: Id)
    ensures id in Seen(lists) <==> Occurs(lists, id)
  {
    if lists != [] {
      var init := lists[..|lists| - 1];
      SeenIff(init, id);
      SeenInIff(Seen(init), lists[|lists| - 1], id);
      assert forall i :: 0 <= i < |init| ==> init[i] == lists[i];
    }
  }

  // ---- Ranking --------------------------------------------------------------------------------

  /** Higher score first; at equal scores, first seen first. */
  predicate Precedes(a: Id, b: Id, scores: Scores, seen: seq<Id>)
    requires a in scores && b in scores
  {
    scores[a] > scores[b] || (scores[a] == scores[b] && Place(seen, a) < Place(seen, b))
  }

  ghost predicate InOrder(ids: seq<Id>, scores: Scores, seen: seq<Id>)
    requires forall i :: i in ids ==> i in scores
  {
    forall i, j :: 0 <= i < j < |ids| ==> Precedes(ids[i], ids[j], scores, seen)
  }

  lemma {:induction false} InsertInOrder(ids: seq<Id>, id: Id, scores: Scores, seen: seq<Id>)
    requires id in scores && forall i :: i in ids ==> i in scores && Place(seen, i) < Place(seen, id)
    requires InOrder(ids, scores, seen)
    ensures forall i :: i in Insert(ids, id, scores) ==> i in scores
    ensures InOrder(Insert(ids, id, scores), scores, seen)
  {
    InsertKeeps(ids, id, scores);
    if ids != [] {
      var (init, last) := (ids[..|ids| - 1], ids[|ids| - 1]);
      assert ids == init + [last];
      if scores[last] >= scores[id] {
        forall i | 0 <= i < |ids| ensures Precedes(ids[i], id, scores, seen) {
          assert i == |ids| - 1 || Precedes(ids[i], last, scores, seen);
        }
      } else {
        InsertInOrder(init, id, scores, seen);
        InsertKeeps(init, id, scores);
        var r := Insert(init, id, scores);
        forall i | 0 <= i < |r| ensures Precedes(r[i], last, scores, seen) {
          assert r[i] in r;
          if r[i] in init { var k :| 0 <= k < |init| && init[k] == r[i]; assert ids[k] == r[i]; }
        }
      }
    }
  }

  lemma {:induction false} PlaceLast(ids: seq<Id>, id: Id, last: Id)
    requires last !in ids
    ensures Place(ids + [last], last) == |ids| && (id in ids ==> Place(ids + [last], id) == Place(ids, id))
  {
    if ids != [] {
      assert (ids + [last])[1..] == ids[1..] + [last];
      PlaceLast(ids[1..], id, last);
    }
  }

  lemma {:induction false} RankedInOrder(ids: seq<Id>, scores: Scores)
    requires Unique(ids) && forall i :: i in ids ==> i in scores
    ensures InOrder(Ranked(ids, scores), scores, ids)
  {
    if ids != [] {
      var (init, last) := (ids[..|ids| - 1], ids[|ids| - 1]);
      assert ids == init + [last] && last !in init;
      RankedInOrder(init, scores);
      var before := Ranked(init, scores);
      forall i | i in before ensures Place(ids, i) == Place(init, i) < Place(ids, last) { PlaceLast(init, i, last); }
      assert InOrder(before, scores, ids);
      InsertInOrder(before, last, scores, ids);
    }
  }

  /** The fusion holds each id of the union once, in falling score, ties by first sight. */
  lemma FusedIsTheRanking(lists: seq<seq<Id>>, k: nat)
    ensures var r := Fused(lists, k);
            && (forall id :: id in r <==> Occurs(lists, id))
            && Unique(r)
            && forall i, j :: 0 <= i < j < |r| ==>
                 || Score(lists, r[i], k) > Score(lists, r[j], k)
                 || (Score(lists, r[i], k) == Score(lists, r[j], k) && Place(Seen(lists), r[i]) < Place(Seen(lists), r[j]))
  {
    var (r, scores) := (Fused(lists, k), Scored(lists, k));
    SeenUnique(lists);
    RankedInOrder(Seen(lists), scores);
    forall id ensures id in r <==> Occurs(lists, id) { SeenIff(lists, id); }
    forall i, j | 0 <= i < j < |r| ensures Precedes(r[i], r[j], scores, Seen(lists)) && r[i] in Seen(lists) && r[j] in Seen(lists) {
      assert r[i] in r && r[j] in r;
    }
  }

  // ---- Dominance ------------------------------------------------------------------------------

  lemma {:induction false} HitsAt(list: seq<Id>, id: Id, k: nat)
    requires Unique(list)
    ensures Hits(list, id, k) == if id in list then 1.0 / (k + Place(list, id) + 1) as real else 0.0
  {
    if list != [] {
      var (init, last) := (list[..|list| - 1], list[|list| - 1]);
      assert list == init + [last] && last !in init;
      HitsAt(init, id, k);
      PlaceLast(init, id, last);
    }
  }

  /** In every list `a` stands at least as high as `b`. */
  predicate AtLeastAsHigh(list: seq<Id>, a: Id, b: Id) { Place(list, a) <= Place(list, b) }

  lemma Reciprocal(p: nat, q: nat, k: nat)
    requires p < q
    ensures 1.0 / (k + p + 1) as real > 1.0 / (k + q + 1) as real > 0.0
  {
    var (x, y) := ((k + p + 1) as real, (k + q + 1) as real);
    assert 1.0 / x - 1.0 / y == (y - x) / (x * y);
  }

  lemma HitsDominate(list: seq<Id>, a: Id, b: Id, k: nat)
    requires Unique(list) && AtLeastAsHigh(list, a, b) && a != b
    ensures Hits(list, a, k) >= Hits(list, b, k) && (a in list ==> Hits(list, a, k) > Hits(list, b, k))
  {
    HitsAt(list, a, k);
    HitsAt(list, b, k);
    if a in list {
      assert Place(list, a) < Place(list, b);
      Reciprocal(Place(list, a), Place(list, b), k);
    }
  }

  lemma {:induction false} ScoreDominates(lists: seq<seq<Id>>, a: Id, b: Id, k: nat)
    requires a != b && forall i :: 0 <= i < |lists| ==> Unique(lists[i]) && AtLeastAsHigh(lists[i], a, b)
    ensures Score(lists, a, k) >= Score(lists, b, k) && (Occurs(lists, a) ==> Score(lists, a, k) > Score(lists, b, k))
  {
    if lists != [] {
      var (init, last) := (lists[..|lists| - 1], lists[|lists| - 1]);
      assert forall i :: 0 <= i < |init| ==> init[i] == lists[i];
      ScoreDominates(init, a, b, k);
      HitsDominate(last, a, b, k);
    }
  }

  /**
    For lists without duplicates, an id that stands at least as high as another in every list, and
    in some list at all, comes before it.
   */
  lemma DominanceIsRespected(lists: seq<seq<Id>>, a: Id, b: Id, k: nat)
    requires a != b && forall i :: 0 <= i < |lists| ==> Unique(lists[i]) && AtLeastAsHigh(lists[i], a, b)
    requires Occurs(lists, a) && Occurs(lists, b)
    ensures var r := Fused(lists, k); a in r && b in r && Place(r, a) < Place(r, b)
  {
    FusedIsTheRanking(lists, k);
    ScoreDominates(lists, a, b, k);
    var r := Fused(lists, k);
    var (i, j) := (Place(r, a), Place(r, b));
    assert r[i] == a && r[j] == b;
  }

  // ---- The two lists of a search --------------------------------------------------------------

  /** Near neighbours before place `i`. */
  function Nearer(hits: seq<Hit>, limit: real, i: nat): set<nat> {
    set j: nat | j < i && j < |hits| && hits[j].distance <= limit
  }

  lemma NearerNext(hits: seq<Hit>, limit: real, n: nat)
    requires n < |hits|
    ensures |Nearer(hits, limit, n + 1)| == |Nearer(hits, limit, n)| + if hits[n].distance <= limit then 1 else 0
  {
    var s := Nearer(hits, limit, n);
    if hits[n].distance <= limit {
      assert Nearer(hits, limit, n + 1) == s + {n} && n !in s;
    } else {
      assert Nearer(hits, limit, n + 1) == s;
    }
  }

  /** The near neighbours keep their order: each has before it those that are near and come earlier. */
  lemma {:induction false} ConfidentAt(hits: seq<Hit>, limit: real, i: nat)
    requires i < |hits| && hits[i].distance <= limit
    ensures var p := |Nearer(hits, limit, i)|; p < |Confident(hits, limit)| && Confident(hits, limit)[p] == hits[i].id
    ensures |Confident(hits, limit)| == |Nearer(hits, limit, |hits|)|
  {
    var n := |hits| - 1;
    ConfidentSize(hits, limit);
    if i < n {
      ConfidentAt(hits[..n], limit, i);
      assert Nearer(hits[..n], limit, i) == Nearer(hits, limit, i);
    } else {
      ConfidentSize(hits[..n], limit);
      assert Nearer(hits[..n], limit, n) == Nearer(hits, limit, n);
    }
  }

  lemma {:induction false} ConfidentSize(hits: seq<Hit>, limit: real)
    ensures |Confident(hits, limit)| == |Nearer(hits, limit, |hits|)|
  {
    if hits == [] {
      assert Nearer(hits, limit, 0) == {};
    } else {
      var n := |hits| - 1;
      ConfidentSize(hits[..n], limit);
      assert Nearer(hits[..n], limit, n) == Nearer(hits, limit, n);
      NearerNext(hits, limit, n);
    }
  }

  /** A place `p` in one list of two adds 1/(61 + p) to an id's score. */
  lemma ScoreOfTwo(a: seq<Id>, b: seq<Id>, id: Id)
    requires Unique(a) && Unique(b)
    ensures Score([a, b], id, RRF_K)
         == (if id in a then 1.0 / (61 + Place(a, id)) as real else 0.0) + (if id in b then 1.0 / (61 + Place(b, id)) as real else 0.0)
  {
    HitsAt(a, id, RRF_K);
    HitsAt(b, id, RRF_K);
    assert [a, b][..1] == [a] && [a][..0] == [];
    assert Score([a], id, RRF_K) == Score([a][..0], id, RRF_K) + Hits(a, id, RRF_K);
  }

  /** Of rows with one id the last is kept. */
  lemma {:induction false} LastIsKept(hits: seq<Hit>, i: nat)
    requires i < |hits| && forall j :: i < j < |hits| ==> hits[j].id != hits[i].id
    ensures hits[i].id in ById(hits) && ById(hits)[hits[i].id] == hits[i]
  {
    if i < |hits| - 1 { LastIsKept(hits[..|hits| - 1], i); }
  }
}
