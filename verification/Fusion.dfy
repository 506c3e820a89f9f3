/** Reciprocal rank fusion over exact rationals, and the hybrid search that uses it. */
module Fusion {
  import opened Wrappers

  type Id = nat

  const RRF_K: nat := 60

  // ---- Scores ---------------------------------------------------------------------------------

  /** What one list adds to an id's score: 1/(k + rank + 1) for every place it holds. */
  function Hits(list: seq<Id>, id: Id, k: nat): real {
    if list == [] then 0.0
    else
      var n := |list| - 1;
      Hits(list[..n], id, k) + if list[n] == id then 1.0 / (k + n + 1) as real else 0.0
  }

  function Score(lists: seq<seq<Id>>, id: Id, k: nat): real {
    if lists == [] then 0.0 else Score(lists[..|lists| - 1], id, k) + Hits(lists[|lists| - 1], id, k)
  }

  /** The ids in the order they are first met. */
  function SeenIn(seen: seq<Id>, list: seq<Id>): seq<Id> {
    if list == [] then seen
    else
      var before := SeenIn(seen, list[..|list| - 1]);
      if list[|list| - 1] in before then before else before + [list[|list| - 1]]
  }

  function Seen(lists: seq<seq<Id>>): seq<Id> {
    if lists == [] then [] else SeenIn(Seen(lists[..|lists| - 1]), lists[|lists| - 1])
  }

  // ---- Ordering -------------------------------------------------------------------------------

  type Scores = map<Id, real>

  /** A later-seen id goes behind everything that scores at least as much. */
  function Insert(ids: seq<Id>, id: Id, scores: Scores): seq<Id>
    requires id in scores && forall i :: i in ids ==> i in scores
  {
    if ids == [] then [id]
    else if scores[ids[|ids| - 1]] >= scores[id] then ids + [id]
    else Insert(ids[..|ids| - 1], id, scores) + [ids[|ids| - 1]]
  }

  lemma {:induction false} InsertKeeps(ids: seq<Id>, id: Id, scores: Scores)
    requires id in scores && forall i :: i in ids ==> i in scores
    ensures multiset(Insert(ids, id, scores)) == multiset(ids) + multiset{id}
    ensures forall i :: i in Insert(ids, id, scores) <==> i in ids || i == id
  {
    if ids != [] {
      var (init, last) := (ids[..|ids| - 1], ids[|ids| - 1]);
      assert ids == init + [last];
      if scores[last] < scores[id] { InsertKeeps(init, id, scores); }
    }
  }

  /** `sorted` by score, falling; equal scores stay in the order given. */
  function Ranked(ids: seq<Id>, scores: Scores): (r: seq<Id>)
    requires forall i :: i in ids ==> i in scores
    ensures multiset(r) == multiset(ids) && forall i :: i in r <==> i in ids
  {
    if ids == [] then []
    else
      var (init, last) := (ids[..|ids| - 1], ids[|ids| - 1]);
      assert ids == init + [last];
      var before := Ranked(init, scores);
      InsertKeeps(before, last, scores);
      Insert(before, last, scores)
  }

  function Scored(lists: seq<seq<Id>>, k: nat): Scores {
    map i | i in Seen(lists) :: Score(lists, i, k)
  }

  function Fused(lists: seq<seq<Id>>, k: nat): seq<Id> {
    Ranked(Seen(lists), Scored(lists, k))
  }

  // ---- The loops ------------------------------------------------------------------------------

  /** Where the loops stand: every id seen so far has its score so far. */
  ghost predicate Tally(scores: Scores, seen: seq<Id>, lists: seq<seq<Id>>, list: seq<Id>, k: nat) {
    && seen == SeenIn(Seen(lists), list) && (forall i :: i in scores <==> i in seen)
    && forall i :: i in seen ==> scores[i] == Score(lists, i, k) + Hits(list, i, k)
  }

  lemma {:induction false} UnseenHits(seen: seq<Id>, list: seq<Id>, id: Id, k: nat)
    requires id !in SeenIn(seen, list)
    ensures Hits(list, id, k) == 0.0 && id !in seen
  {
    if list != [] {
      var init := list[..|list| - 1];
      assert id !in SeenIn(seen, init);
      UnseenHits(seen, init, id, k);
    }
  }

  lemma {:induction false} UnseenScore(lists: seq<seq<Id>>, id: Id, k: nat)
    requires id !in Seen(lists)
    ensures Score(lists, id, k) == 0.0
  {
    if lists != [] {
      UnseenHits(Seen(lists[..|lists| - 1]), lists[|lists| - 1], id, k);
      UnseenScore(lists[..|lists| - 1], id, k);
    }
  }

  lemma TallyNext(scores: Scores, seen: seq<Id>, lists: seq<seq<Id>>, list: seq<Id>, n: nat, k: nat)
    requires n < |list| && Tally(scores, seen, lists, list[..n], k)
    ensures var id := list[n];
            var was := if id in scores then scores[id] else 0.0;
            Tally(scores[id := was + 1.0 / (k + n + 1) as real], if id in seen then seen else seen + [id], lists, list[..n + 1], k)
  {
    var id := list[n];
    assert list[..n + 1][..n] == list[..n];
    if id !in seen {
      UnseenHits(Seen(lists), list[..n], id, k);
      UnseenScore(lists, id, k);
    }
  }

  lemma TallyList(scores: Scores, seen: seq<Id>, lists: seq<seq<Id>>, j: nat, k: nat)
    requires j < |lists| && Tally(scores, seen, lists[..j], lists[j], k)
    ensures Tally(scores, seen, lists[..j + 1], [], k)
  {
    assert lists[..j + 1][..j] == lists[..j];
  }

  /** `rrf_fuse` */
  method Fuse(lists: seq<seq<Id>>, k: nat) returns (r: seq<Id>)
    ensures r == Fused(lists, k)
  {
    var scores: Scores := map[];
    var seen: seq<Id> := [];
    assert lists[..0] == [];
    for j := 0 to |lists|
      invariant Tally(scores, seen, lists[..j], [], k)
    {
      var list := lists[j];
      assert list[..0] == [];
      for n := 0 to |list|
        invariant Tally(scores, seen, lists[..j], list[..n], k)
      {
        TallyNext(scores, seen, lists[..j], list, n, k);
        var id := list[n];
        scores := scores[id := (if id in scores then scores[id] else 0.0) + 1.0 / (k + n + 1) as real];
        if id !in seen { seen := seen + [id]; }
      }
      assert list[..|list|] == list;
      TallyList(scores, seen, lists, j, k);
    }
    assert lists[..|lists|] == lists;
    assert scores == Scored(lists, k);
    r := Ranked(seen, scores);
  }

  // ---- Hybrid search --------------------------------------------------------------------------

  datatype Hit = Hit(id: Id, distance: real)

  const SEMANTIC_MAX_DISTANCE: real := 0.35

  function Ids(hits: seq<Hit>): seq<Id> { seq(|hits|, i requires 0 <= i < |hits| => hits[i].id) }

  function Confident(hits: seq<Hit>, limit: real): seq<Id> {
    if hits == [] then []
    else
      var h := hits[|hits| - 1];
      Confident(hits[..|hits| - 1], limit) + if h.distance <= limit then [h.id] else []
  }

  /** The row kept for an id: the last one of its list. */
  function ById(hits: seq<Hit>): map<Id, Hit> {
    if hits == [] then map[] else ById(hits[..|hits| - 1])[hits[|hits| - 1].id := hits[|hits| - 1]]
  }

  predicate Among(id: Id, hits: seq<Hit>) { exists h :: h in hits && h.id == id }

  /** A keyword row, or else a neighbour whose id is that of a near one. */
  predicate FromEither(r: Hit, keyword: seq<Hit>, neighbours: seq<Hit>) {
    || r in keyword
    || (r in neighbours && !Among(r.id, keyword) && exists h :: h in neighbours && h.id == r.id && h.distance <= 0.35)
  }

  lemma {:induction false} IdsIff(hits: seq<Hit>, id: Id)
    ensures id in Ids(hits) <==> Among(id, hits)
  {
    if id in Ids(hits) {
      var i :| 0 <= i < |hits| && Ids(hits)[i] == id;
      assert hits[i] in hits;
    }
    if h :| h in hits && h.id == id {
      var i :| 0 <= i < |hits| && hits[i] == h;
      assert Ids(hits)[i] == id;
    }
  }

  lemma {:induction false} ConfidentIff(hits: seq<Hit>, limit: real, id: Id)
    ensures id in Confident(hits, limit) <==> exists h :: h in hits && h.id == id && h.distance <= limit
  {
    if hits != [] {
      ConfidentIff(hits[..|hits| - 1], limit, id);
      assert hits == hits[..|hits| - 1] + [hits[|hits| - 1]];
    }
  }

  lemma {:induction false} ByIdKeeps(hits: seq<Hit>)
    ensures forall i :: i in ById(hits) ==> ById(hits)[i] in hits
  {
    if hits != [] {
      ByIdKeeps(hits[..|hits| - 1]);
      assert hits == hits[..|hits| - 1] + [hits[|hits| - 1]];
    }
  }

  lemma FusedIff(keyword: seq<Hit>, neighbours: seq<Hit>, limit: real, id: Id)
    ensures id in Fused([Ids(keyword), Confident(neighbours, limit)], RRF_K)
       <==> Among(id, keyword) || exists h :: h in neighbours && h.id == id && h.distance <= limit
  {
    var (a, b) := (Ids(keyword), Confident(neighbours, limit));
    var none: seq<seq<Id>> := [];
    assert [a, b][..1] == [a] && [a][..0] == none;
    assert Seen([a]) == SeenIn([], a) && Seen([a, b]) == SeenIn(Seen([a]), b);
    SeenInIff(Seen([a]), b, id);
    SeenInIff([], a, id);
    IdsIff(keyword, id);
    ConfidentIff(neighbours, limit, id);
  }

  lemma Kept(keyword: seq<Hit>, neighbours: seq<Hit>, id: Id)
    requires id in Fused([Ids(keyword), Confident(neighbours, SEMANTIC_MAX_DISTANCE)], RRF_K)
    ensures var byId := ById(neighbours) + ById(keyword); id in byId && FromEither(byId[id], keyword, neighbours)
  {
    FusedIff(keyword, neighbours, SEMANTIC_MAX_DISTANCE, id);
    FusedIds(keyword, neighbours, SEMANTIC_MAX_DISTANCE, id);
    ByIdHas(keyword);
    ByIdKeeps(keyword);
    ByIdKeeps(neighbours);
    IdsIff(keyword, id);
  }

  lemma FusedHas(keyword: seq<Hit>, neighbours: seq<Hit>, h: Hit)
    requires h in keyword || (h in neighbours && h.distance <= 0.35)
    ensures h.id in Fused([Ids(keyword), Confident(neighbours, SEMANTIC_MAX_DISTANCE)], RRF_K)
  {
    FusedIff(keyword, neighbours, SEMANTIC_MAX_DISTANCE, h.id);
  }

  /** `hybrid_search` after its two queries: keyword rows win over neighbours with the same id. */
  method Hybrid(keyword: seq<Hit>, neighbours: seq<Hit>, k: nat)
    returns (results: seq<Hit>, nearest: seq<Hit>)
    ensures var fused := Fused([Ids(keyword), Confident(neighbours, SEMANTIC_MAX_DISTANCE)], RRF_K);
            && |results| == Min(k, |fused|)
            && forall i :: 0 <= i < |results| ==>
                 && results[i].id == fused[i]
                 && if fused[i] in ById(keyword) then results[i] == ById(keyword)[fused[i]]
                    else fused[i] in ById(neighbours) && results[i] == ById(neighbours)[fused[i]]
    ensures nearest == if results == [] then neighbours[..Min(3, |neighbours|)] else []
    ensures forall r :: r in results ==>
              || r in keyword
              || (r in neighbours && !Among(r.id, keyword) && exists h :: h in neighbours && h.id == r.id && h.distance <= 0.35)
    ensures |results| <= k
    ensures |results| < k ==>
              forall h :: h in keyword || (h in neighbours && h.distance <= 0.35) ==> Among(h.id, results)
  {
    var lists := [Ids(keyword), Confident(neighbours, SEMANTIC_MAX_DISTANCE)];
    var fused := Fuse(lists, RRF_K);
    ghost var all := fused;
    fused := fused[..Min(k, |fused|)];
    var byId := ById(neighbours) + ById(keyword);
    forall i | 0 <= i < |fused| ensures fused[i] in byId && byId[fused[i]].id == fused[i] {
      assert fused[i] in all;
      FusedIds(keyword, neighbours, SEMANTIC_MAX_DISTANCE, fused[i]);
    }
    results := seq(|fused|, i requires 0 <= i < |fused| => byId[fused[i]]);
    forall r | r in results ensures FromEither(r, keyword, neighbours) {
      var i :| 0 <= i < |results| && results[i] == r;
      assert fused[i] in all;
      Kept(keyword, neighbours, fused[i]);
    }
    if |results| < k {
      assert fused == all;
      forall h | h in keyword || (h in neighbours && h.distance <= 0.35) ensures Among(h.id, results) {
        FusedHas(keyword, neighbours, h);
        var i :| 0 <= i < |fused| && fused[i] == h.id;
        assert results[i].id == h.id && results[i] in results;
      }
    }
    nearest := if results == [] then neighbours[..Min(3, |neighbours|)] else [];
  }

  lemma {:induction false} ByIdHas(hits: seq<Hit>)
    ensures forall i :: i in ById(hits) ==> ById(hits)[i].id == i
    ensures forall i :: i in ById(hits) <==> i in Ids(hits)
    ensures forall limit, i :: i in Confident(hits, limit) ==> i in ById(hits)
  {
    if hits != [] {
      var (init, h) := (hits[..|hits| - 1], hits[|hits| - 1]);
      ByIdHas(init);
      assert Ids(hits) == Ids(init) + [h.id];
    }
  }

  lemma {:induction false} SeenInIff(seen: seq<Id>, list: seq<Id>, id: Id)
    ensures id in SeenIn(seen, list) <==> id in seen || id in list
  {
    if list != [] {
      SeenInIff(seen, list[..|list| - 1], id);
      assert list == list[..|list| - 1] + [list[|list| - 1]];
    }
  }

  lemma FusedIds(keyword: seq<Hit>, neighbours: seq<Hit>, limit: real, id: Id)
    requires id in Fused([Ids(keyword), Confident(neighbours, limit)], RRF_K)
    ensures id in ById(keyword) || id in ById(neighbours)
    ensures id in ById(keyword) ==> ById(keyword)[id].id == id
    ensures id in ById(neighbours) ==> ById(neighbours)[id].id == id
  {
    var (a, b) := (Ids(keyword), Confident(neighbours, limit));
    var none: seq<seq<Id>> := [];
    assert [a, b][..1] == [a] && [a][..0] == none;
    assert Seen([a]) == SeenIn([], a) && Seen([a, b]) == SeenIn(Seen([a]), b);
    SeenInIff(Seen([a]), b, id);
    SeenInIff([], a, id);
    ByIdHas(keyword);
    ByIdHas(neighbours);
  }
}
