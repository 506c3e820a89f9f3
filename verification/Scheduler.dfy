/**
  Several schedulers sharing one lock store: a job's minute is claimed by a key that lives for
  ninety seconds.  Times are in milliseconds of the store's clock.
 */
module Scheduler {
  import opened Wrappers
  import opened Cron

  type Time = int
  type Minute = int

  const LOCK_TTL: Time := 90_000

  datatype Key = Key(job: string, minute: Minute)

  datatype Attempt = Attempt(key: Key, at: Time)

  /** The claims made so far on the store, oldest first; a claim wins when no live key stands. */
  function Expiry(log: seq<Attempt>, k: Key): Option<Time> {
    if log == [] then None
    else
      var (init, a) := (log[..|log| - 1], log[|log| - 1]);
      if a.key == k && FreeAt(Expiry(init, k), a.at) then Some(a.at + LOCK_TTL) else Expiry(init, k)
  }

  predicate FreeAt(expiry: Option<Time>, now: Time) { expiry.None? || expiry.value <= now }

  predicate Won(log: seq<Attempt>, i: nat)
    requires i < |log|
  {
    FreeAt(Expiry(log[..i], log[i].key), log[i].at)
  }

  predicate InOrder(log: seq<Attempt>) { forall i, j :: 0 <= i < j < |log| ==> log[i].at <= log[j].at }

  // ---- The store and a scheduler --------------------------------------------------------------

  class Redis {
    var expiry: map<Key, Time>
    ghost var log: seq<Attempt>

    ghost predicate Valid()
      reads this
    {
      forall k :: Expiry(log, k) == if k in expiry then Some(expiry[k]) else None
    }

    constructor ()
      ensures Valid() && log == []
    {
      expiry, log := map[], [];
    }

    /** `SET key NX EX 90` */
    method SetIfAbsent(k: Key, now: Time) returns (ok: bool)
      requires Valid()
      modifies this
      ensures Valid() && log == old(log) + [Attempt(k, now)] && ok == Won(log, |old(log)|)
    {
      ok := k !in expiry || expiry[k] <= now;
      log := log + [Attempt(k, now)];
      assert log[..|old(log)|] == old(log);
      if ok { expiry := expiry[k := now + LOCK_TTL]; }
    }
  }

  datatype JobSpec = JobSpec(name: string, cron: string, zone: Option<string>)

  /** What each job's expression says at the current time in the job's zone. */
  type Reader = JobSpec -> Reading

  function At(clock: Option<string> -> Clock): Reader { (s: JobSpec) => CronReading(s.cron, clock(s.zone)) }

  function NamesOf(jobs: seq<JobSpec>, ids: seq<nat>): seq<string>
    requires forall k :: 0 <= k < |ids| ==> ids[k] < |jobs|
  {
    seq(|ids|, k requires 0 <= k < |ids| => jobs[ids[k]].name)
  }

  predicate Ascending(ids: seq<nat>) { forall k, l :: 0 <= k < l < |ids| ==> ids[k] < ids[l] }

  /** The jobs that read true among the first `n`. */
  ghost predicate Due(jobs: seq<JobSpec>, due: Reader, n: nat, ids: seq<nat>)
    requires n <= |jobs|
  {
    && Ascending(ids) && (forall k :: 0 <= k < |ids| ==> ids[k] < n)
    && forall i: nat :: i in ids <==> i < n && due(jobs[i]) == Ok(true)
  }

  function WithNext(jobs: seq<JobSpec>, due: Reader, n: nat, ids: seq<nat>): seq<nat>
    requires n < |jobs|
  {
    if due(jobs[n]) == Ok(true) then ids + [n] else ids
  }

  lemma NamesNext(jobs: seq<JobSpec>, ids: seq<nat>, n: nat)
    requires n < |jobs| && forall k :: 0 <= k < |ids| ==> ids[k] < |jobs|
    ensures NamesOf(jobs, ids + [n]) == NamesOf(jobs, ids) + [jobs[n].name]
  {}

  lemma DueNext(jobs: seq<JobSpec>, due: Reader, n: nat, ids: seq<nat>)
    requires n < |jobs| && Due(jobs, due, n, ids)
    ensures Due(jobs, due, n + 1, WithNext(jobs, due, n, ids))
  {
    var next := WithNext(jobs, due, n, ids);
    forall i: nat ensures i in next <==> i < n + 1 && due(jobs[i]) == Ok(true) {
      assert i in next <==> i in ids || (i == n && due(jobs[n]) == Ok(true));
    }
  }

  /** Job `i` is read, as no job before it is malformed, and its expression holds at its own zone's local time. */
  predicate Runs(jobs: seq<JobSpec>, clock: Option<string> -> Clock, i: nat) {
    && i < |jobs| && CronReading(jobs[i].cron, clock(jobs[i].zone)) == Ok(true)
    && forall k :: 0 <= k < i ==> CronReading(jobs[k].cron, clock(jobs[k].zone)) != Malformed
  }

  predicate RunsBy(jobs: seq<JobSpec>, due: Reader, i: nat) {
    i < |jobs| && due(jobs[i]) == Ok(true) && forall k :: 0 <= k < i ==> due(jobs[k]) != Malformed
  }

  lemma DueRun(jobs: seq<JobSpec>, due: Reader, end: nat, ids: seq<nat>)
    requires end <= |jobs| && Due(jobs, due, end, ids) && forall k :: 0 <= k < end ==> due(jobs[k]) != Malformed
    requires end < |jobs| ==> due(jobs[end]) == Malformed
    ensures forall i: nat :: i in ids <==> RunsBy(jobs, due, i)
    ensures end < |jobs| <==> exists i :: 0 <= i < |jobs| && due(jobs[i]) == Malformed
  {}

  lemma AtIs(clock: Option<string> -> Clock, s: JobSpec)
    ensures At(clock)(s) == CronReading(s.cron, clock(s.zone))
  {}

  lemma RunsAt(jobs: seq<JobSpec>, clock: Option<string> -> Clock, i: nat)
    ensures RunsBy(jobs, At(clock), i) <==> Runs(jobs, clock, i)
  {
    forall k | 0 <= k < |jobs| ensures At(clock)(jobs[k]) == CronReading(jobs[k].cron, clock(jobs[k].zone)) { AtIs(clock, jobs[k]); }
  }

  /** The claims of a pass: one for each due job, as the pass gets to it. */
  function Claims(names: seq<string>, minute: Minute, at: nat -> Time): seq<Attempt> {
    seq(|names|, i requires 0 <= i < |names| => Attempt(Key(names[i], minute), at(i)))
  }

  /** The names among the first `n` new claims that were won. */
  function Winners(log: seq<Attempt>, from: nat, n: nat): seq<string>
    requires from + n <= |log|
  {
    if n == 0 then []
    else Winners(log, from, n - 1) + if Won(log, from + n - 1) then [log[from + n - 1].key.job] else []
  }

  lemma {:induction false} WinnersKept(log: seq<Attempt>, from: nat, n: nat, a: Attempt)
    requires from + n <= |log|
    ensures Winners(log + [a], from, n) == Winners(log, from, n)
  {
    if n > 0 {
      WinnersKept(log, from, n - 1, a);
      assert (log + [a])[..from + n - 1] == log[..from + n - 1];
    }
  }

  /** Where a pass stands after the claims for `names`, on a log that was `log0` before it. */
  ghost predicate Progress(
    log0: seq<Attempt>, names: seq<string>, minute: Minute, at: nat -> Time, log: seq<Attempt>, ran: seq<string>)
  {
    log == log0 + Claims(names, minute, at) && ran == Winners(log, |log0|, |names|)
  }

  lemma NoneYet(jobs: seq<JobSpec>, minute: Minute, at: nat -> Time, log: seq<Attempt>)
    ensures Progress(log, NamesOf(jobs, []), minute, at, log, [])
  {
    assert NamesOf(jobs, []) == [] && log + Claims([], minute, at) == log;
  }

  lemma OneMore(
    log0: seq<Attempt>, names: seq<string>, name: string, minute: Minute, at: nat -> Time, log: seq<Attempt>, ran: seq<string>)
    requires Progress(log0, names, minute, at, log, ran)
    ensures var log' := log + [Attempt(Key(name, minute), at(|names|))];
            Progress(log0, names + [name], minute, at, log', ran + if Won(log', |log|) then [name] else [])
  {
    var a := Attempt(Key(name, minute), at(|names|));
    WinnersKept(log, |log0|, |names|, a);
    assert Claims(names + [name], minute, at) == Claims(names, minute, at) + [a];
  }

  /** The first `n` jobs have been read, those of `ids` claimed, and `ran` won. */
  ghost predicate Passed(
    jobs: seq<JobSpec>, due: Reader, n: nat, ids: seq<nat>,
    log0: seq<Attempt>, minute: Minute, at: nat -> Time, log: seq<Attempt>, ran: seq<string>)
  {
    && n <= |jobs| && Due(jobs, due, n, ids) && (forall k :: 0 <= k < n ==> due(jobs[k]) != Malformed)
    && Progress(log0, NamesOf(jobs, ids), minute, at, log, ran)
  }

  lemma PassesOver(
    jobs: seq<JobSpec>, due: Reader, n: nat, ids: seq<nat>,
    log0: seq<Attempt>, minute: Minute, at: nat -> Time, log: seq<Attempt>, ran: seq<string>)
    requires Passed(jobs, due, n, ids, log0, minute, at, log, ran) && n < |jobs| && due(jobs[n]) == Ok(false)
    ensures Passed(jobs, due, n + 1, ids, log0, minute, at, log, ran)
  {
    DueNext(jobs, due, n, ids);
  }

  lemma ClaimsOne(
    jobs: seq<JobSpec>, due: Reader, n: nat, ids: seq<nat>,
    log0: seq<Attempt>, minute: Minute, at: nat -> Time, log: seq<Attempt>, ran: seq<string>)
    requires Passed(jobs, due, n, ids, log0, minute, at, log, ran) && n < |jobs| && due(jobs[n]) == Ok(true)
    ensures var log' := log + [Attempt(Key(jobs[n].name, minute), at(|ids|))];
            Passed(jobs, due, n + 1, ids + [n], log0, minute, at, log', ran + if Won(log', |log|) then [jobs[n].name] else [])
  {
    DueNext(jobs, due, n, ids);
    NamesNext(jobs, ids, n);
    OneMore(log0, NamesOf(jobs, ids), jobs[n].name, minute, at, log, ran);
  }

  class Process {
    var registry: seq<JobSpec>

    constructor ()
      ensures registry == []
    {
      registry := [];
    }

    method Register(spec: JobSpec)
      modifies this
      ensures registry == old(registry) + [spec]
    {
      registry := registry + [spec];
    }

    method Clear()
      modifies this
      ensures registry == []
    {
      registry := [];
    }

    /** The pass over the registry, given how expressions read; a malformed one, at `end`, ends it. */
    method RunReading(redis: Redis, minute: Minute, due: Reader, at: nat -> Time)
      returns (ran: seq<string>, raised: bool, ghost end: nat, ghost ids: seq<nat>)
      requires redis.Valid()
      modifies redis
      ensures redis.Valid() && end <= |registry| && (forall k :: 0 <= k < end ==> due(registry[k]) != Malformed)
      ensures raised == (end < |registry|) && (raised ==> due(registry[end]) == Malformed)
      ensures Due(registry, due, end, ids)
      ensures Progress(old(redis.log), NamesOf(registry, ids), minute, at, redis.log, ran)
    {
      ran, raised, end, ids := [], false, 0, [];
      NoneYet(registry, minute, at, redis.log);
      var tried := 0;
      for i := 0 to |registry|
        invariant redis.Valid() && |ids| == tried && end == i
        invariant Passed(registry, due, i, ids, old(redis.log), minute, at, redis.log, ran)
      {
        var spec := registry[i];
        var r := due(spec);
        if r == Malformed {
          raised := true;
          return;
        }
        if r == Ok(true) {
          ClaimsOne(registry, due, i, ids, old(redis.log), minute, at, redis.log, ran);
          var ok := redis.SetIfAbsent(Key(spec.name, minute), at(tried));
          ran := ran + if ok then [spec.name] else [];
          tried, ids := tried + 1, ids + [i];
        } else {
          PassesOver(registry, due, i, ids, old(redis.log), minute, at, redis.log, ran);
        }
        end := i + 1;
      }
    }

    /** `run_due`: every job whose expression matches its local time and whose minute this process claims. */
    method RunDue(redis: Redis, minute: Minute, clock: Option<string> -> Clock, at: nat -> Time)
      returns (ran: seq<string>, raised: bool, ghost ids: seq<nat>)
      requires redis.Valid()
      modifies redis
      ensures redis.Valid() && Ascending(ids) && (forall i: nat :: i in ids <==> Runs(registry, clock, i))
      ensures forall k :: 0 <= k < |ids| ==> ids[k] < |registry|
      ensures Progress(old(redis.log), NamesOf(registry, ids), minute, at, redis.log, ran)
      ensures raised <==> exists i :: 0 <= i < |registry| && CronReading(registry[i].cron, clock(registry[i].zone)) == Malformed
    {
      ghost var end;
      ran, raised, end, ids := RunReading(redis, minute, At(clock), at);
      DueRun(registry, At(clock), end, ids);
      forall i: nat ensures RunsBy(registry, At(clock), i) <==> Runs(registry, clock, i) { RunsAt(registry, clock, i); }
      forall s ensures At(clock)(s) == CronReading(s.cron, clock(s.zone)) { AtIs(clock, s); }
    }
  }

  // ---- At most once ---------------------------------------------------------------------------

  lemma {:induction false} StandsAfterWin(log: seq<Attempt>, i: nat, j: nat)
    requires InOrder(log) && i < j <= |log| && Won(log, i)
    ensures var e := Expiry(log[..j], log[i].key); e.Some? && e.value >= log[i].at + LOCK_TTL
    decreases j
  {
    assert log[..j][..j - 1] == log[..j - 1];
    if i < j - 1 {
      StandsAfterWin(log, i, j - 1);
      assert log[i].at <= log[j - 1].at;
    }
  }

  /** Two runs of one job for one minute are at least the lock's life apart. */
  lemma WinsApart(log: seq<Attempt>, i: nat, j: nat)
    requires InOrder(log) && i < j < |log| && Won(log, i) && Won(log, j) && log[i].key == log[j].key
    ensures log[j].at >= log[i].at + 90_000
  {
    StandsAfterWin(log, i, j);
  }

  predicate FirstFor(log: seq<Attempt>, k: Key, f: nat) {
    f < |log| && log[f].key == k && forall i :: 0 <= i < f ==> log[i].key != k
  }

  lemma {:induction false} NoClaims(log: seq<Attempt>, k: Key)
    requires forall i :: 0 <= i < |log| ==> log[i].key != k
    ensures Expiry(log, k) == None
  {
    if log != [] { NoClaims(log[..|log| - 1], k); }
  }

  /** From one win, no later claim up to `j` wins exactly while the claims stay within the lock's life. */
  lemma {:induction false} HeldSince(log: seq<Attempt>, f: nat, j: nat)
    requires InOrder(log) && f < j <= |log| && Won(log, f)
    requires forall i :: f < i < j && log[i].key == log[f].key ==> !Won(log, i)
    ensures Expiry(log[..j], log[f].key) == Some(log[f].at + LOCK_TTL)
    decreases j
  {
    assert log[..j][..j - 1] == log[..j - 1];
    if f < j - 1 { HeldSince(log, f, j - 1); }
  }

  predicate OnlyWin(log: seq<Attempt>, k: Key, f: nat) {
    f < |log| && Won(log, f) && forall i :: 0 <= i < |log| && log[i].key == k && Won(log, i) ==> i == f
  }

  /**
    A job's minute runs exactly once, at the first claim, if and only if all claims on it, by any
    scheduler, come within the lock's life of the first.
   */
  lemma RunsOnceIff(log: seq<Attempt>, k: Key, f: nat)
    requires InOrder(log) && FirstFor(log, k, f)
    ensures OnlyWin(log, k, f) <==> forall i :: f < i < |log| && log[i].key == k ==> log[i].at < log[f].at + 90_000
  {
    NoClaims(log[..f], k);
    assert Won(log, f);
    if OnlyWin(log, k, f) {
      forall i | f < i < |log| && log[i].key == k ensures log[i].at < log[f].at + LOCK_TTL {
        HeldSince(log, f, i);
      }
    }
    if forall i :: f < i < |log| && log[i].key == k ==> log[i].at < log[f].at + LOCK_TTL {
      forall i | 0 <= i < |log| && log[i].key == k && Won(log, i) ensures i == f {
        if i > f { WinsApart(log, f, i); }
      }
    }
  }

  /** A scheduler ninety seconds late claims the minute again, and runs the job a second time. */
  lemma TwiceExample(k: Key)
    ensures var log := [Attempt(k, 0), Attempt(k, 90_000)]; InOrder(log) && Won(log, 0) && Won(log, 1)
  {
    var log := [Attempt(k, 0), Attempt(k, LOCK_TTL)];
    assert log[..0] == [] && log[..1] == [Attempt(k, 0)] && [Attempt(k, 0)][..0] == [];
  }
}
