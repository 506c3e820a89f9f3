/**
  The two sliding-window limiters.  Both answer "how many calls were admitted in the last sixty
  seconds"; one keeps a Redis sorted set that expires, the other an in-process deque that is swept.
  Each class carries the full admission history as a ghost, and every answer is stated on it.
 */
module RateLimits {
  import opened Wrappers

  const WINDOW: real := 60.0
  const MAX_KEYS: nat := 20000

  /** Admissions strictly after the cutoff. */
  function After(h: seq<real>, cutoff: real): nat {
    if h == [] then 0 else After(h[..|h| - 1], cutoff) + if h[|h| - 1] > cutoff then 1 else 0
  }

  /** Admissions at or after the cutoff. */
  function From(h: seq<real>, cutoff: real): nat {
    if h == [] then 0 else From(h[..|h| - 1], cutoff) + if h[|h| - 1] >= cutoff then 1 else 0
  }

  predicate Sorted(h: seq<real>) {
    forall i, j :: 0 <= i < j < |h| ==> h[i] <= h[j]
  }

  predicate UpTo(h: seq<real>, t: real) {
    forall i :: 0 <= i < |h| ==> 0.0 <= h[i] <= t
  }

  // ---- Redis sorted set ----------------------------------------------------------------------

  /** ZREMRANGEBYSCORE key 0 cutoff. */
  function Trimmed(w: seq<real>, cutoff: real): seq<real> {
    if w == [] then []
    else Trimmed(w[..|w| - 1], cutoff) + if 0.0 <= w[|w| - 1] <= cutoff then [] else [w[|w| - 1]]
  }

  lemma {:induction false} TrimmedCount(w: seq<real>, cutoff: real, c: real, t: real)
    requires cutoff <= c && UpTo(w, t)
    ensures After(Trimmed(w, cutoff), c) == After(w, c)
    ensures UpTo(Trimmed(w, cutoff), t) && |Trimmed(w, cutoff)| == After(w, cutoff)
  {
    if w != [] {
      TrimmedCount(w[..|w| - 1], cutoff, c, t);
      var r := Trimmed(w[..|w| - 1], cutoff);
      assert Trimmed(w, cutoff) == r || (Trimmed(w, cutoff) == r + [w[|w| - 1]] && (r + [w[|w| - 1]])[..|r|] == r);
    }
  }

  lemma AfterSnoc(h: seq<real>, x: real, c: real)
    ensures After(h + [x], c) == After(h, c) + if x > c then 1 else 0
  {
    assert (h + [x])[..|h|] == h;
  }

  lemma {:induction false} AfterNone(h: seq<real>, t: real)
    requires UpTo(h, t)
    ensures forall c :: c >= t ==> After(h, c) == 0
  {
    if h != [] { AfterNone(h[..|h| - 1], t); }
  }

  type Name = string

  function Of(m: map<Name, seq<real>>, k: Name): seq<real> {
    if k in m then m[k] else []
  }

  /** The stored window agrees with the full history on everything the next check can ask. */
  ghost predicate Tracks(w: seq<real>, h: seq<real>, t: real) {
    UpTo(w, t) && UpTo(h, t) && Sorted(h) && forall c :: c >= t - WINDOW ==> After(w, c) == After(h, c)
  }

  lemma TracksLater(w: seq<real>, h: seq<real>, t: real, now: real)
    requires Tracks(w, h, t) && t <= now
    ensures Tracks(w, h, now)
  {
  }

  lemma TracksTrimmed(w: seq<real>, h: seq<real>, now: real)
    requires Tracks(w, h, now)
    ensures Tracks(Trimmed(w, now - WINDOW), h, now) && |Trimmed(w, now - WINDOW)| == After(h, now - WINDOW)
  {
    forall c | c >= now - WINDOW ensures After(Trimmed(w, now - WINDOW), c) == After(h, c) {
      TrimmedCount(w, now - WINDOW, c, now);
    }
    TrimmedCount(w, now - WINDOW, now - WINDOW, now);
  }

  lemma TracksAdmitted(w: seq<real>, h: seq<real>, now: real)
    requires Tracks(w, h, now) && now >= 0.0
    ensures Tracks(w + [now], h + [now], now)
  {
    forall c | c >= now - WINDOW ensures After(w + [now], c) == After(h + [now], c) {
      AfterSnoc(w, now, c);
      AfterSnoc(h, now, c);
    }
  }

  /** Trimming, then admitting or not, keeps the stored window and the history in step. */
  lemma CheckedTracks(w: seq<real>, h: seq<real>, now: real)
    requires Tracks(w, h, now) && now >= 0.0
    ensures Tracks(Trimmed(w, now - WINDOW), h, now)
    ensures Tracks(Trimmed(w, now - WINDOW) + [now], h + [now], now)
    ensures |Trimmed(w, now - WINDOW)| == After(h, now - WINDOW)
  {
    TracksTrimmed(w, h, now);
    TracksAdmitted(Trimmed(w, now - WINDOW), h, now);
  }

  lemma TracksExpired(w: seq<real>, h: seq<real>, t: real, now: real)
    requires Tracks(w, h, t) && t <= now && UpTo(w, now - WINDOW)
    ensures Tracks([], h, now)
  {
    AfterNone(w, now - WINDOW);
  }

  /** A sorted set and the time its key expires. */
  datatype Entry = Entry(scores: seq<real>, expires: real)

  function Scores(m: map<Name, Entry>, k: Name): seq<real> {
    if k in m then m[k].scores else []
  }

  /** The key outlives every score by two windows. */
  ghost predicate EntryOk(m: map<Name, Entry>, k: Name, h: seq<real>, clock: real) {
    Tracks(Scores(m, k), h, clock) && (k in m ==> UpTo(m[k].scores, m[k].expires - 2.0 * WINDOW))
  }

  ghost predicate AllOk(m: map<Name, Entry>, a: map<Name, seq<real>>, clock: real) {
    forall k :: EntryOk(m, k, Of(a, k), clock)
  }

  lemma AllLater(m: map<Name, Entry>, a: map<Name, seq<real>>, clock: real, now: real)
    requires AllOk(m, a, clock) && clock <= now
    ensures AllOk(m, a, now)
  {
    forall j ensures EntryOk(m, j, Of(a, j), now) {
      assert EntryOk(m, j, Of(a, j), clock);
      TracksLater(Scores(m, j), Of(a, j), clock, now);
    }
  }

  lemma AdmitKeeps(m: map<Name, Entry>, a: map<Name, seq<real>>, k: Name, now: real)
    requires AllOk(m, a, now) && now >= 0.0
    ensures var w := Trimmed(Scores(m, k), now - WINDOW);
            && |w| == After(Of(a, k), now - WINDOW)
            && AllOk(m[k := Entry(w + [now], now + 2.0 * WINDOW)], a[k := Of(a, k) + [now]], now)
  {
    assert EntryOk(m, k, Of(a, k), now);
    CheckedTracks(Scores(m, k), Of(a, k), now);
    var m', a' := m[k := Entry(Trimmed(Scores(m, k), now - WINDOW) + [now], now + 2.0 * WINDOW)], a[k := Of(a, k) + [now]];
    forall j ensures EntryOk(m', j, Of(a', j), now) {
      assert EntryOk(m, j, Of(a, j), now);
    }
  }

  lemma RefuseKeeps(m: map<Name, Entry>, a: map<Name, seq<real>>, k: Name, now: real)
    requires AllOk(m, a, now) && now >= 0.0 && k in m
    ensures AllOk(m[k := Entry(Trimmed(m[k].scores, now - WINDOW), m[k].expires)], a, now)
  {
    assert EntryOk(m, k, Of(a, k), now);
    CheckedTracks(m[k].scores, Of(a, k), now);
    TrimmedCount(m[k].scores, now - WINDOW, now, m[k].expires - 2.0 * WINDOW);
    var m' := m[k := Entry(Trimmed(m[k].scores, now - WINDOW), m[k].expires)];
    forall j ensures EntryOk(m', j, Of(a, j), now) {
      assert EntryOk(m, j, Of(a, j), now);
    }
  }

  lemma ExpireKeeps(m: map<Name, Entry>, a: map<Name, seq<real>>, k: Name, clock: real, now: real)
    requires AllOk(m, a, clock) && clock <= now && k in m && now >= m[k].expires
    ensures AllOk(m - {k}, a, now)
  {
    forall j ensures EntryOk(m - {k}, j, Of(a, j), now) {
      assert EntryOk(m, j, Of(a, j), clock);
      if j == k {
        TracksExpired(m[k].scores, Of(a, k), clock, now);
      } else {
        TracksLater(Scores(m, j), Of(a, j), clock, now);
      }
    }
  }

  class SortedSets {
    var sets: map<Name, Entry>
    var clock: real
    ghost var admitted: map<Name, seq<real>>   // every admission ever, per key

    ghost predicate Valid()
      reads this
    {
      clock >= 0.0 && AllOk(sets, admitted, clock)
    }

    constructor ()
      ensures Valid() && admitted == map[]
    {
      sets, clock, admitted := map[], 0.0, map[];
    }

    /** The store drops a key whose time to live has passed.  No later answer can tell. */
    method Expire(k: Name, now: real)
      requires Valid() && now >= clock && k in sets && now >= sets[k].expires
      modifies this
      ensures Valid() && admitted == old(admitted) && clock == now && k !in sets
    {
      ExpireKeeps(sets, admitted, k, clock, now);
      sets := sets - {k};
      clock := now;
    }

    /** `check_rate`: admitted exactly while fewer than `perMin` calls were in the last sixty seconds. */
    method Check(k: Name, perMin: Option<int>, now: real) returns (ok: bool)
      requires Valid() && now >= clock
      modifies this
      ensures Valid() && clock == now
      ensures ok == (perMin.None? || After(Of(old(admitted), k), now - WINDOW) < perMin.value)
      ensures admitted == if ok && perMin.Some? then old(admitted)[k := Of(old(admitted), k) + [now]] else old(admitted)
    {
      AllLater(sets, admitted, clock, now);
      clock := now;
      if perMin.None? {
        return true;
      }
      AdmitKeeps(sets, admitted, k, now);
      var w := Trimmed(Scores(sets, k), now - WINDOW);
      ok := |w| < perMin.value;
      if ok {
        sets := sets[k := Entry(w + [now], now + 2.0 * WINDOW)];
        admitted := admitted[k := Of(admitted, k) + [now]];
      } else if k in sets {
        RefuseKeeps(sets, admitted, k, now);
        sets := sets[k := Entry(w, sets[k].expires)];
      }
    }
  }

  // ---- In-process deque ----------------------------------------------------------------------

  lemma FromSnoc(h: seq<real>, x: real, c: real)
    ensures From(h + [x], c) == From(h, c) + if x >= c then 1 else 0
  {
    assert (h + [x])[..|h|] == h;
  }

  lemma {:induction false} FromCons(h: seq<real>, x: real, c: real)
    ensures From([x] + h, c) == From(h, c) + if x >= c then 1 else 0
  {
    if h != [] {
      var n := |h| - 1;
      FromCons(h[..n], x, c);
      assert ([x] + h)[..n + 1] == [x] + h[..n];
    }
  }

  lemma {:induction false} FromAll(h: seq<real>, c: real)
    requires forall i :: 0 <= i < |h| ==> h[i] >= c
    ensures From(h, c) == |h|
  {
    if h != [] { FromAll(h[..|h| - 1], c); }
  }

  lemma {:induction false} FromNone(h: seq<real>, c: real)
    requires forall i :: 0 <= i < |h| ==> h[i] < c
    ensures From(h, c) == 0
  {
    if h != [] { FromNone(h[..|h| - 1], c); }
  }

  ghost predicate Follows(q: seq<real>, h: seq<real>, t: real) {
    Sorted(q) && Sorted(h) && (forall i :: 0 <= i < |q| ==> q[i] <= t) && (forall i :: 0 <= i < |h| ==> h[i] <= t)
    && forall c :: c >= t - WINDOW ==> From(q, c) == From(h, c)
  }

  lemma FollowsLater(q: seq<real>, h: seq<real>, t: real, now: real)
    requires Follows(q, h, t) && t <= now
    ensures Follows(q, h, now)
  {
  }

  lemma FollowsPopped(q: seq<real>, h: seq<real>, now: real)
    requires Follows(q, h, now) && q != [] && q[0] < now - WINDOW
    ensures Follows(q[1..], h, now)
  {
    forall c | c >= now - WINDOW ensures From(q[1..], c) == From(h, c) {
      FromCons(q[1..], q[0], c);
      assert [q[0]] + q[1..] == q;
    }
  }

  lemma FollowsAdmitted(q: seq<real>, h: seq<real>, now: real)
    requires Follows(q, h, now)
    ensures Follows(q + [now], h + [now], now)
  {
    forall c | c >= now - WINDOW ensures From(q + [now], c) == From(h + [now], c) {
      FromSnoc(q, now, c);
      FromSnoc(h, now, c);
    }
  }

  lemma FollowsSwept(q: seq<real>, h: seq<real>, now: real)
    requires Follows(q, h, now) && (q == [] || q[|q| - 1] < now - WINDOW)
    ensures Follows([], h, now)
  {
    forall c | c >= now - WINDOW ensures From([], c) == From(h, c) {
      FromNone(q, c);
    }
  }

  /** A bucket without a hit of the last minute. */
  predicate Gone(q: seq<real>, now: real) { q == [] || q[|q| - 1] < now - 60.0 }

  class Buckets {
    var buckets: map<Name, seq<real>>
    ghost var clock: real
    ghost var admitted: map<Name, seq<real>>   // every limited admission ever, per key

    ghost predicate Valid()
      reads this
    {
      forall k :: Follows(Of(buckets, k), Of(admitted, k), clock)
    }

    constructor (start: real)
      ensures Valid() && admitted == map[] && clock == start
    {
      buckets, clock, admitted := map[], start, map[];
    }

    /** `_sweep`: buckets whose last hit left the window go.  No later answer can tell. */
    method Sweep(now: real)
      requires Valid() && now == clock
      modifies this`buckets
      ensures Valid()
      ensures forall k :: k in buckets <==> k in old(buckets) && old(buckets)[k] != [] && old(buckets)[k][|old(buckets)[k]| - 1] >= now - WINDOW
      ensures forall k :: k in buckets ==> buckets[k] == old(buckets)[k]
    {
      var kept := map k | k in buckets && buckets[k] != [] && buckets[k][|buckets[k]| - 1] >= now - WINDOW :: buckets[k];
      forall k ensures Follows(Of(kept, k), Of(admitted, k), clock) {
        if k in buckets && k !in kept {
          FollowsSwept(buckets[k], Of(admitted, k), now);
        }
      }
      buckets := kept;
    }

    /** Hits that left the window are popped off the front of the deque. */
    method PopOld(dq: seq<real>, ghost h: seq<real>, now: real) returns (left: seq<real>)
      requires Follows(dq, h, now)
      ensures Follows(left, h, now) && |left| == From(h, now - WINDOW)
    {
      left := dq;
      while left != [] && left[0] < now - WINDOW
        invariant Follows(left, h, now)
        decreases |left|
      {
        FollowsPopped(left, h, now);
        left := left[1..];
      }
      FromAll(left, now - WINDOW);
    }

    /** The key's own deque: old hits popped, the new one appended if there is room. */
    method Admit(key: Name, perMin: int, now: real) returns (ok: bool)
      requires Valid() && perMin > 0 && now == clock
      modifies this`buckets, this`admitted
      ensures Valid() && ok == (From(Of(old(admitted), key), now - WINDOW) < perMin)
      ensures admitted == if ok then old(admitted)[key := Of(old(admitted), key) + [now]] else old(admitted)
      ensures buckets.Keys == old(buckets).Keys + {key}
    {
      var dq := PopOld(Of(buckets, key), Of(admitted, key), now);
      ok := |dq| < perMin;
      if ok {
        FollowsAdmitted(dq, Of(admitted, key), now);
        dq := dq + [now];
        admitted := admitted[key := Of(admitted, key) + [now]];
      }
      ghost var was := buckets;
      buckets := buckets[key := dq];
      forall j ensures Follows(Of(buckets, j), Of(admitted, j), clock) {
        if j != key { assert Of(buckets, j) == Of(was, j) && Of(admitted, j) == Of(old(admitted), j); }
      }
    }

    /** `allow`: admitted exactly while fewer than `perMin` hits are at most sixty seconds old. */
    method Allow(key: Name, perMin: int, now: real) returns (ok: bool)
      requires Valid() && now >= clock
      modifies this
      ensures Valid()
      ensures ok == (perMin <= 0 || From(Of(old(admitted), key), now - WINDOW) < perMin)
      ensures admitted == if ok && perMin > 0 then old(admitted)[key := Of(old(admitted), key) + [now]] else old(admitted)
      ensures perMin <= 0 ==> buckets == old(buckets)
      ensures perMin > 0 ==> key in buckets && forall k :: k != key ==>
                (k in buckets <==> k in old(buckets) && (|old(buckets)| <= 20_000 || !Gone(old(buckets)[k], now)))
    {
      if perMin <= 0 {
        return true;
      }
      MakeRoom(now);
      ok := Admit(key, perMin, now);
    }

    /** At a new time: with too many keys, stale buckets go first. */
    method MakeRoom(now: real)
      requires Valid() && now >= clock
      modifies this`clock, this`buckets
      ensures Valid() && clock == now
      ensures forall k :: k in buckets <==> k in old(buckets) && (|old(buckets)| <= 20_000 || !Gone(old(buckets)[k], now))
    {
      Advance(now);
      if |buckets| > MAX_KEYS {
        Sweep(now);
      }
    }

    /** The clock is read again. */
    ghost method Advance(now: real)
      requires Valid() && now >= clock
      modifies this`clock
      ensures Valid() && clock == now
    {
      forall j ensures Follows(Of(buckets, j), Of(admitted, j), now) {
        FollowsLater(Of(buckets, j), Of(admitted, j), clock, now);
      }
      clock := now;
    }
  }

  // ---- The two counts -------------------------------------------------------------------------

  function Younger(h: seq<real>, cutoff: real): set<nat> { set i: nat | i < |h| && h[i] > cutoff }

  function NotOlder(h: seq<real>, cutoff: real): set<nat> { set i: nat | i < |h| && h[i] >= cutoff }

  /** The Redis count is of the entries later than the cutoff. */
  lemma {:induction false} AfterCounts(h: seq<real>, cutoff: real)
    ensures After(h, cutoff) == |Younger(h, cutoff)|
  {
    if h == [] {
      assert Younger(h, cutoff) == {};
    } else {
      var n := |h| - 1;
      AfterCounts(h[..n], cutoff);
      var before := Younger(h[..n], cutoff);
      assert n !in before && Younger(h, cutoff) == before + if h[n] > cutoff then {n} else {};
    }
  }

  /** The in-process one keeps those at the cutoff as well. */
  lemma {:induction false} FromCounts(h: seq<real>, cutoff: real)
    ensures From(h, cutoff) == |NotOlder(h, cutoff)|
  {
    if h == [] {
      assert NotOlder(h, cutoff) == {};
    } else {
      var n := |h| - 1;
      FromCounts(h[..n], cutoff);
      var before := NotOlder(h[..n], cutoff);
      assert n !in before && NotOlder(h, cutoff) == before + if h[n] >= cutoff then {n} else {};
    }
  }

  // ---- What the rule means for every window --------------------------------------------------

  predicate NoneLater(h: seq<real>, t: real) {
    h == [] || (h[|h| - 1] <= t && NoneLater(h[..|h| - 1], t))
  }

  /** Non-decreasing times. */
  predicate InOrder(h: seq<real>) {
    h == [] || (NoneLater(h[..|h| - 1], h[|h| - 1]) && InOrder(h[..|h| - 1]))
  }

  /** A history in time order in which every admission found a free slot, by the open count. */
  predicate OpenRule(h: seq<real>, p: nat) {
    h == [] ||
    var (init, t) := (h[..|h| - 1], h[|h| - 1]);
    OpenRule(init, p) && NoneLater(init, t) && After(init, t - WINDOW) < p
  }

  predicate ClosedRule(h: seq<real>, p: nat) {
    h == [] ||
    var (init, t) := (h[..|h| - 1], h[|h| - 1]);
    ClosedRule(init, p) && NoneLater(init, t) && From(init, t - WINDOW) < p
  }

  /** Admissions in (x, x + 60]. */
  function InOpen(h: seq<real>, x: real): nat {
    if h == [] then 0 else InOpen(h[..|h| - 1], x) + if x < h[|h| - 1] <= x + WINDOW then 1 else 0
  }

  /** Admissions in [x, x + 60]. */
  function InClosed(h: seq<real>, x: real): nat {
    if h == [] then 0 else InClosed(h[..|h| - 1], x) + if x <= h[|h| - 1] <= x + WINDOW then 1 else 0
  }

  lemma {:induction false} OpenBelow(h: seq<real>, x: real, c: real)
    requires c <= x
    ensures InOpen(h, x) <= After(h, c)
  {
    if h != [] { OpenBelow(h[..|h| - 1], x, c); }
  }

  lemma {:induction false} ClosedBelow(h: seq<real>, x: real, c: real)
    requires c <= x
    ensures InClosed(h, x) <= From(h, c)
  {
    if h != [] { ClosedBelow(h[..|h| - 1], x, c); }
  }

  /** No sixty-second window, open at its old end, ever holds more than the limit. */
  lemma {:induction false} OpenWindowBound(h: seq<real>, p: nat, x: real)
    requires OpenRule(h, p)
    ensures InOpen(h, x) <= p
  {
    if h != [] {
      OpenWindowBound(h[..|h| - 1], p, x);
      if x < h[|h| - 1] <= x + WINDOW {
        OpenBelow(h[..|h| - 1], x, h[|h| - 1] - WINDOW);
      }
    }
  }

  /** The same for windows closed at both ends. */
  lemma {:induction false} ClosedWindowBound(h: seq<real>, p: nat, x: real)
    requires ClosedRule(h, p)
    ensures InClosed(h, x) <= p
  {
    if h != [] {
      ClosedWindowBound(h[..|h| - 1], p, x);
      if x <= h[|h| - 1] <= x + WINDOW {
        ClosedBelow(h[..|h| - 1], x, h[|h| - 1] - WINDOW);
      }
    }
  }

  /** The admissions out of a list of attempts, as the contract of `Check` gives them. */
  function OpenAdmissions(attempts: seq<real>, p: nat): seq<real> {
    if attempts == [] then []
    else
      var (h, t) := (OpenAdmissions(attempts[..|attempts| - 1], p), attempts[|attempts| - 1]);
      if After(h, t - WINDOW) < p then h + [t] else h
  }

  /** The same for `Allow`. */
  function ClosedAdmissions(attempts: seq<real>, p: nat): seq<real> {
    if attempts == [] then []
    else
      var (h, t) := (ClosedAdmissions(attempts[..|attempts| - 1], p), attempts[|attempts| - 1]);
      if From(h, t - WINDOW) < p then h + [t] else h
  }

  lemma {:induction false} NoneLaterMonotone(h: seq<real>, t: real, u: real)
    requires NoneLater(h, t) && t <= u
    ensures NoneLater(h, u)
  {
    if h != [] { NoneLaterMonotone(h[..|h| - 1], t, u); }
  }

  lemma NoneLaterSnoc(h: seq<real>, t: real)
    requires NoneLater(h, t)
    ensures NoneLater(h + [t], t)
  {
    assert (h + [t])[..|h|] == h;
  }

  lemma SnocRule(h: seq<real>, t: real, p: nat)
    requires NoneLater(h, t)
    ensures OpenRule(h, p) && After(h, t - WINDOW) < p ==> OpenRule(h + [t], p)
    ensures ClosedRule(h, p) && From(h, t - WINDOW) < p ==> ClosedRule(h + [t], p)
  {
    assert (h + [t])[..|h|] == h;
  }

  /** Whatever the attempts, one limit keeps the rule; so no window of any run exceeds it. */
  lemma {:induction false} OpenRunBound(attempts: seq<real>, p: nat, now: real, x: real)
    requires NoneLater(attempts, now) && InOrder(attempts)
    ensures var h := OpenAdmissions(attempts, p); NoneLater(h, now) && OpenRule(h, p) && InOpen(h, x) <= p
  {
    if attempts != [] {
      var t := attempts[|attempts| - 1];
      var h := OpenAdmissions(attempts[..|attempts| - 1], p);
      OpenRunBound(attempts[..|attempts| - 1], p, t, x);
      SnocRule(h, t, p);
      NoneLaterSnoc(h, t);
      NoneLaterMonotone(OpenAdmissions(attempts, p), t, now);
      OpenWindowBound(OpenAdmissions(attempts, p), p, x);
    }
  }

  lemma {:induction false} ClosedRunBound(attempts: seq<real>, p: nat, now: real, x: real)
    requires NoneLater(attempts, now) && InOrder(attempts)
    ensures var h := ClosedAdmissions(attempts, p); NoneLater(h, now) && ClosedRule(h, p) && InClosed(h, x) <= p
  {
    if attempts != [] {
      var t := attempts[|attempts| - 1];
      var h := ClosedAdmissions(attempts[..|attempts| - 1], p);
      ClosedRunBound(attempts[..|attempts| - 1], p, t, x);
      SnocRule(h, t, p);
      NoneLaterSnoc(h, t);
      NoneLaterMonotone(ClosedAdmissions(attempts, p), t, now);
      ClosedWindowBound(ClosedAdmissions(attempts, p), p, x);
    }
  }
}
