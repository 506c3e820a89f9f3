/**
  Redis rate checks of one key that overlap.  A check reads the clock, trims the sorted set, counts
  it, and, if there is room, adds itself; each of the four is a step of its own, so any number of
  checks interleave.  The key's expiry is not part of this module.
 */
module RateOverlap {
  import opened Wrappers
  import opened RateLimits

  /** Where a check stands; its time is the one it read when it began. */
  datatype Phase = Begun | Trimmed | Passed

  datatype Check = Check(at: real, phase: Phase)

  /** `log` is every score ever added, `cut` the latest cutoff trimmed so far. */
  datatype State = State(scores: seq<real>, log: seq<real>, clock: real, cut: real, flying: seq<Check>)

  /**
    The limit, the number of checks that may be in flight at once, and whether checks are prompt:
    no check trims while an earlier one has yet to count.
   */
  datatype Rules = Rules(p: nat, c: nat, prompt: bool)

  datatype Step = Begin(now: real) | Trim(k: nat) | Read(k: nat) | Add(k: nat)

  function Start(now: real): State { State([], [], now, now - WINDOW, []) }

  function Without(fl: seq<Check>, k: nat): seq<Check>
    requires k < |fl|
  {
    fl[..k] + fl[k + 1..]
  }

  predicate Oldest(fl: seq<Check>, k: nat)
    requires k < |fl|
  {
    forall j :: 0 <= j < |fl| && fl[j].phase != Passed ==> fl[j].at >= fl[k].at
  }

  predicate Enabled(r: Rules, s: State, a: Step) {
    match a
    case Begin(now) => s.clock <= now && |s.flying| < r.c
    case Trim(k) => k < |s.flying| && s.flying[k].phase == Begun && (r.prompt ==> Oldest(s.flying, k))
    case Read(k) => k < |s.flying| && s.flying[k].phase == Trimmed
    case Add(k) => k < |s.flying| && s.flying[k].phase == Passed
  }

  function Later(a: real, b: real): real { if a > b then a else b }

  function Next(r: Rules, s: State, a: Step): State
    requires Enabled(r, s, a)
  {
    match a
    case Begin(now) => s.(clock := now, flying := s.flying + [Check(now, Begun)])
    case Trim(k) =>
      var cutoff := s.flying[k].at - WINDOW;
      s.(scores := RateLimits.Trimmed(s.scores, cutoff), cut := Later(s.cut, cutoff),
         flying := s.flying[k := s.flying[k].(phase := Trimmed)])
    case Read(k) =>
      if |s.scores| < r.p then s.(flying := s.flying[k := s.flying[k].(phase := Passed)])
      else s.(flying := Without(s.flying, k))
    case Add(k) =>
      var t := s.flying[k].at;
      s.(scores := s.scores + [t], log := s.log + [t], flying := Without(s.flying, k))
  }

  // ---- Counting in a window -------------------------------------------------------------------

  predicate In(x: real, t: real) { x < t <= x + WINDOW }

  function Counted(fl: seq<Check>, q: Check -> bool): nat {
    if fl == [] then 0 else Counted(fl[..|fl| - 1], q) + if q(fl[|fl| - 1]) then 1 else 0
  }

  function PassedIn(x: real): Check -> bool { (f: Check) => f.phase == Passed && In(x, f.at) }

  function UnreadIn(x: real): Check -> bool { (f: Check) => f.phase != Passed && In(x, f.at) }

  /** Admissions of the window that are on record, and those promised to checks that have passed. */
  function Granted(s: State, x: real): nat { InOpen(s.log, x) + Counted(s.flying, PassedIn(x)) }

  lemma {:induction false} CountedUpdate(fl: seq<Check>, k: nat, f: Check, q: Check -> bool)
    requires k < |fl|
    ensures Counted(fl[k := f], q) == Counted(fl, q) - (if q(fl[k]) then 1 else 0) + (if q(f) then 1 else 0)
  {
    var n := |fl| - 1;
    if k < n {
      CountedUpdate(fl[..n], k, f, q);
      assert fl[k := f][..n] == fl[..n][k := f];
    } else {
      assert fl[k := f][..n] == fl[..n];
    }
  }

  lemma {:induction false} CountedWithout(fl: seq<Check>, k: nat, q: Check -> bool)
    requires k < |fl|
    ensures Counted(Without(fl, k), q) == Counted(fl, q) - if q(fl[k]) then 1 else 0
  {
    var n := |fl| - 1;
    if k < n {
      CountedWithout(fl[..n], k, q);
      assert Without(fl, k)[..n - 1] == Without(fl[..n], k) && Without(fl, k)[n - 1] == fl[n];
    } else {
      assert Without(fl, k) == fl[..n];
    }
  }

  lemma CountedNext(fl: seq<Check>, f: Check, q: Check -> bool)
    ensures Counted(fl + [f], q) == Counted(fl, q) + if q(f) then 1 else 0
  {
    assert (fl + [f])[..|fl|] == fl;
  }

  /** Passed and unread are exclusive, and a check outside the window is neither. */
  lemma {:induction false} BothBounded(fl: seq<Check>, x: real)
    ensures Counted(fl, PassedIn(x)) + Counted(fl, UnreadIn(x)) <= |fl|
    ensures (exists k :: 0 <= k < |fl| && !In(x, fl[k].at)) ==> Counted(fl, PassedIn(x)) + Counted(fl, UnreadIn(x)) < |fl|
  {
    if fl != [] { BothBounded(fl[..|fl| - 1], x); }
  }

  lemma {:induction false} NoneUnread(fl: seq<Check>, x: real)
    requires forall k :: 0 <= k < |fl| && fl[k].phase != Passed ==> !In(x, fl[k].at)
    ensures Counted(fl, UnreadIn(x)) == 0
  {
    if fl != [] { NoneUnread(fl[..|fl| - 1], x); }
  }

  lemma InOpenNext(h: seq<real>, t: real, x: real)
    ensures InOpen(h + [t], x) == InOpen(h, x) + if In(x, t) then 1 else 0
  {
    assert (h + [t])[..|h|] == h;
  }

  lemma {:induction false} InOpenSize(h: seq<real>, x: real)
    ensures InOpen(h, x) <= |h|
  {
    if h != [] { InOpenSize(h[..|h| - 1], x); }
  }

  lemma {:induction false} TrimKeepsWindow(h: seq<real>, cutoff: real, x: real)
    requires cutoff <= x
    ensures InOpen(RateLimits.Trimmed(h, cutoff), x) == InOpen(h, x)
  {
    if h != [] {
      var (before, last) := (RateLimits.Trimmed(h[..|h| - 1], cutoff), h[|h| - 1]);
      TrimKeepsWindow(h[..|h| - 1], cutoff, x);
      InOpenNext(before, last, x);
      assert before + [] == before;
    }
  }

  // ---- The bound ------------------------------------------------------------------------------

  /** How many admissions a window can come to hold. */
  function Bound(r: Rules): nat
    requires r.p >= 1 && r.c >= 1
  {
    if r.prompt then r.p + r.c - 1 else r.p + 2 * r.c - 2
  }

  predicate FlyingOk(r: Rules, s: State) {
    && |s.flying| <= r.c && s.cut <= s.clock - WINDOW
    && forall k :: 0 <= k < |s.flying| ==> s.flying[k].at <= s.clock
  }

  /** Until a later check trims the window it is all in the set; afterwards only those in flight can add to it. */
  predicate CountsOk(r: Rules, trimmed: bool, inSet: nat, inLog: nat, granted: nat, unread: nat)
    requires r.p >= 1 && r.c >= 1
  {
    if trimmed then granted + unread <= Bound(r) && (r.prompt ==> unread == 0)
    else inSet == inLog && granted <= r.p + r.c - 1
  }

  predicate Inv(r: Rules, s: State, x: real)
    requires r.p >= 1 && r.c >= 1
  {
    && FlyingOk(r, s)
    && CountsOk(r, s.cut > x, InOpen(s.scores, x), InOpen(s.log, x), Granted(s, x), Counted(s.flying, UnreadIn(x)))
  }

  lemma BeginKeeps(r: Rules, s: State, now: real, x: real)
    requires r.p >= 1 && r.c >= 1 && Inv(r, s, x) && Enabled(r, s, Begin(now))
    ensures Inv(r, Next(r, s, Begin(now)), x)
  {
    CountedNext(s.flying, Check(now, Begun), PassedIn(x));
    CountedNext(s.flying, Check(now, Begun), UnreadIn(x));
  }

  /** The window is trimmed away: what is promised and what may still be is at most what is in flight. */
  lemma TrimmedAway(r: Rules, s: State, k: nat, x: real)
    requires r.p >= 1 && r.c >= 1 && Inv(r, s, x) && Enabled(r, s, Trim(k)) && s.cut <= x < s.flying[k].at - WINDOW
    ensures Granted(s, x) + Counted(s.flying, UnreadIn(x)) <= Bound(r)
    ensures r.prompt ==> Counted(s.flying, UnreadIn(x)) == 0
  {
    BothBounded(s.flying, x);
    assert !In(x, s.flying[k].at);
    if r.prompt { NoneUnread(s.flying, x); }
  }

  lemma TrimKeeps(r: Rules, s: State, k: nat, x: real)
    requires r.p >= 1 && r.c >= 1 && Inv(r, s, x) && Enabled(r, s, Trim(k))
    ensures Inv(r, Next(r, s, Trim(k)), x)
  {
    var (f, cutoff) := (s.flying[k], s.flying[k].at - WINDOW);
    CountedUpdate(s.flying, k, f.(phase := Trimmed), PassedIn(x));
    CountedUpdate(s.flying, k, f.(phase := Trimmed), UnreadIn(x));
    if cutoff <= x { TrimKeepsWindow(s.scores, cutoff, x); }
    if s.cut <= x < cutoff { TrimmedAway(r, s, k, x); }
  }

  lemma ReadKeeps(r: Rules, s: State, k: nat, x: real)
    requires r.p >= 1 && r.c >= 1 && Inv(r, s, x) && Enabled(r, s, Read(k))
    ensures Inv(r, Next(r, s, Read(k)), x)
  {
    var f := s.flying[k];
    if |s.scores| < r.p {
      CountedUpdate(s.flying, k, f.(phase := Passed), PassedIn(x));
      CountedUpdate(s.flying, k, f.(phase := Passed), UnreadIn(x));
      InOpenSize(s.scores, x);
      BothBounded(Next(r, s, Read(k)).flying, x);
    } else {
      CountedWithout(s.flying, k, PassedIn(x));
      CountedWithout(s.flying, k, UnreadIn(x));
    }
  }

  lemma WithoutOnly(fl: seq<Check>, k: nat, t: real)
    requires k < |fl| && forall j :: 0 <= j < |fl| ==> fl[j].at <= t
    ensures |Without(fl, k)| == |fl| - 1 && forall j :: 0 <= j < |Without(fl, k)| ==> Without(fl, k)[j].at <= t
  {}

  lemma AddCounts(r: Rules, s: State, k: nat, x: real)
    requires Enabled(r, s, Add(k))
    ensures var s' := Next(r, s, Add(k));
            && Granted(s', x) == Granted(s, x) && Counted(s'.flying, UnreadIn(x)) == Counted(s.flying, UnreadIn(x))
            && InOpen(s'.scores, x) - InOpen(s.scores, x) == InOpen(s'.log, x) - InOpen(s.log, x)
  {
    var t := s.flying[k].at;
    CountedWithout(s.flying, k, PassedIn(x));
    CountedWithout(s.flying, k, UnreadIn(x));
    InOpenNext(s.scores, t, x);
    InOpenNext(s.log, t, x);
  }

  lemma AddKeeps(r: Rules, s: State, k: nat, x: real)
    requires r.p >= 1 && r.c >= 1 && Inv(r, s, x) && Enabled(r, s, Add(k))
    ensures Inv(r, Next(r, s, Add(k)), x)
  {
    AddCounts(r, s, k, x);
    WithoutOnly(s.flying, k, s.clock);
  }

  lemma KeepsInv(r: Rules, s: State, a: Step, x: real)
    requires r.p >= 1 && r.c >= 1 && Inv(r, s, x) && Enabled(r, s, a)
    ensures Inv(r, Next(r, s, a), x)
  {
    match a
    case Begin(now) => BeginKeeps(r, s, now, x);
    case Trim(k) => TrimKeeps(r, s, k, x);
    case Read(k) => ReadKeeps(r, s, k, x);
    case Add(k) => AddKeeps(r, s, k, x);
  }

  // ---- Runs -----------------------------------------------------------------------------------

  predicate Runs(r: Rules, s: State, steps: seq<Step>)
    decreases |steps|, 0
  {
    steps == [] || (
      var (init, a) := (steps[..|steps| - 1], steps[|steps| - 1]);
      Runs(r, s, init) && Enabled(r, Exec(r, s, init), a))
  }

  function Exec(r: Rules, s: State, steps: seq<Step>): State
    requires Runs(r, s, steps)
    decreases |steps|, 1
  {
    if steps == [] then s else Next(r, Exec(r, s, steps[..|steps| - 1]), steps[|steps| - 1])
  }

  lemma {:induction false} RunKeepsInv(r: Rules, now: real, steps: seq<Step>, x: real)
    requires r.p >= 1 && r.c >= 1 && Runs(r, Start(now), steps)
    ensures Inv(r, Exec(r, Start(now), steps), x)
    decreases |steps|
  {
    if steps != [] {
      RunKeepsInv(r, now, steps[..|steps| - 1], x);
      KeepsInv(r, Exec(r, Start(now), steps[..|steps| - 1]), steps[|steps| - 1], x);
    }
  }

  /**
    With at most c checks in flight no sixty-second window ever holds more than p + c - 1 admissions
    when checks are prompt, and never more than p + 2c - 2 however long they stall.
   */
  lemma OverlapBound(r: Rules, now: real, steps: seq<Step>, x: real)
    requires r.p >= 1 && r.c >= 1 && Runs(r, Start(now), steps)
    ensures InOpen(Exec(r, Start(now), steps).log, x) <= Bound(r)
  {
    RunKeepsInv(r, now, steps, x);
  }

  // ---- Exactly when the limit is exceeded -----------------------------------------------------

  /** A read that admits a check although its window has already been granted `p` times. */
  predicate Crowded(r: Rules, s: State, a: Step, x: real) {
    a.Read? && Enabled(r, s, a) && |s.scores| < r.p && In(x, s.flying[a.k].at) && Granted(s, x) >= r.p
  }

  predicate CrowdedWithin(r: Rules, s: State, steps: seq<Step>, x: real)
    requires Runs(r, s, steps)
    decreases |steps|
  {
    steps != [] && (
      var (init, a) := (steps[..|steps| - 1], steps[|steps| - 1]);
      CrowdedWithin(r, s, init, x) || Crowded(r, Exec(r, s, init), a, x))
  }

  /** Only an admitting read grants anything, and it grants one. */
  lemma GrantStep(r: Rules, s: State, a: Step, x: real)
    requires Enabled(r, s, a)
    ensures Granted(Next(r, s, a), x)
         == Granted(s, x) + if a.Read? && |s.scores| < r.p && In(x, s.flying[a.k].at) then 1 else 0
  {
    match a
    case Begin(now) => CountedNext(s.flying, Check(now, Begun), PassedIn(x));
    case Trim(k) => CountedUpdate(s.flying, k, s.flying[k].(phase := Trimmed), PassedIn(x));
    case Read(k) =>
      CountedUpdate(s.flying, k, s.flying[k].(phase := Passed), PassedIn(x));
      CountedWithout(s.flying, k, PassedIn(x));
    case Add(k) =>
      CountedWithout(s.flying, k, PassedIn(x));
      InOpenNext(s.log, s.flying[k].at, x);
  }

  lemma {:induction false} GrantedIff(r: Rules, now: real, steps: seq<Step>, x: real)
    requires Runs(r, Start(now), steps)
    ensures Granted(Exec(r, Start(now), steps), x) > r.p <==> CrowdedWithin(r, Start(now), steps, x)
    decreases |steps|
  {
    if steps != [] {
      var (init, a) := (steps[..|steps| - 1], steps[|steps| - 1]);
      GrantedIff(r, now, init, x);
      GrantStep(r, Exec(r, Start(now), init), a, x);
    }
  }

  /**
    In a run whose checks have all finished a window holds more than p admissions exactly when some
    check in it was admitted by a count taken after p admissions of the window had been granted.
   */
  lemma ExceedsIff(r: Rules, now: real, steps: seq<Step>, x: real)
    requires Runs(r, Start(now), steps) && Exec(r, Start(now), steps).flying == []
    ensures InOpen(Exec(r, Start(now), steps).log, x) > r.p <==> CrowdedWithin(r, Start(now), steps, x)
  {
    GrantedIff(r, now, steps, x);
  }

  lemma {:induction false} SomePassed(fl: seq<Check>, x: real)
    requires Counted(fl, PassedIn(x)) > 0
    ensures exists j :: 0 <= j < |fl| && fl[j].phase == Passed && In(x, fl[j].at)
  {
    if fl != [] && !PassedIn(x)(fl[|fl| - 1]) { SomePassed(fl[..|fl| - 1], x); }
  }

  lemma {:induction false} OneUnread(fl: seq<Check>, k: nat, x: real)
    requires k < |fl| && fl[k].phase != Passed && In(x, fl[k].at)
    ensures Counted(fl, UnreadIn(x)) > 0
  {
    if k < |fl| - 1 { OneUnread(fl[..|fl| - 1], k, x); }
  }

  /**
    Why a count can come too late: as many others of the window as the set has places left were
    admitted by earlier reads and have yet to be added, or a check a window later has trimmed it.
    Among prompt checks only the first can be, so there a limit is exceeded only where two
    admitting reads precede the first one's add.
   */
  lemma WhyCrowded(r: Rules, now: real, steps: seq<Step>, a: Step, x: real)
    requires r.p >= 1 && r.c >= 1 && Runs(r, Start(now), steps)
    requires a.Read? && Enabled(r, Exec(r, Start(now), steps), a)
    requires var s := Exec(r, Start(now), steps); |s.scores| < r.p && In(x, s.flying[a.k].at)
    ensures var s := Exec(r, Start(now), steps);
            && (r.prompt ==> s.cut <= x)
            && (s.cut <= x ==>
                 (Crowded(r, s, a, x) <==> InOpen(s.scores, x) + Counted(s.flying, PassedIn(x)) >= r.p))
            && (Crowded(r, s, a, x) && s.cut <= x ==>
                 exists j :: 0 <= j < |s.flying| && s.flying[j].phase == Passed && In(x, s.flying[j].at))
  {
    var s := Exec(r, Start(now), steps);
    RunKeepsInv(r, now, steps, x);
    OneUnread(s.flying, a.k, x);
    InOpenSize(s.scores, x);
    if Counted(s.flying, PassedIn(x)) > 0 { SomePassed(s.flying, x); }
  }

  /** A read that admits a check although the window's members of the set, with those admitted and not yet added, are `p`. */
  predicate Late(r: Rules, s: State, a: Step, x: real) {
    && a.Read? && Enabled(r, s, a) && |s.scores| < r.p && In(x, s.flying[a.k].at)
    && InOpen(s.scores, x) + Counted(s.flying, PassedIn(x)) >= r.p
  }

  predicate LateWithin(r: Rules, s: State, steps: seq<Step>, x: real)
    requires Runs(r, s, steps)
    decreases |steps|
  {
    steps != [] && (
      var (init, a) := (steps[..|steps| - 1], steps[|steps| - 1]);
      LateWithin(r, s, init, x) || Late(r, Exec(r, s, init), a, x))
  }

  lemma {:induction false} LateIsCrowded(r: Rules, now: real, steps: seq<Step>, x: real)
    requires r.p >= 1 && r.c >= 1 && r.prompt && Runs(r, Start(now), steps)
    ensures LateWithin(r, Start(now), steps, x) <==> CrowdedWithin(r, Start(now), steps, x)
    decreases |steps|
  {
    if steps != [] {
      var (init, a) := (steps[..|steps| - 1], steps[|steps| - 1]);
      LateIsCrowded(r, now, init, x);
      var s := Exec(r, Start(now), init);
      if a.Read? && |s.scores| < r.p && In(x, s.flying[a.k].at) { WhyCrowded(r, now, init, a, x); }
    }
  }

  /** Among prompt checks a finished run exceeds the limit exactly when some read was late in this sense. */
  lemma PromptExceedsIff(r: Rules, now: real, steps: seq<Step>, x: real)
    requires r.p >= 1 && r.c >= 1 && r.prompt && Runs(r, Start(now), steps) && Exec(r, Start(now), steps).flying == []
    ensures InOpen(Exec(r, Start(now), steps).log, x) > r.p <==> LateWithin(r, Start(now), steps, x)
  {
    ExceedsIff(r, now, steps, x);
    LateIsCrowded(r, now, steps, x);
  }

  // ---- The bounds are reached -----------------------------------------------------------------

  /** The run `steps` leads from `s` to `s'`. */
  predicate Leads(r: Rules, s: State, steps: seq<Step>, s': State) {
    Runs(r, s, steps) && Exec(r, s, steps) == s'
  }

  lemma RunsOn(r: Rules, s0: State, steps: seq<Step>, s: State, a: Step, s': State)
    requires Leads(r, s0, steps, s) && Enabled(r, s, a) && Next(r, s, a) == s'
    ensures Leads(r, s0, steps + [a], s')
  {
    assert (steps + [a])[..|steps|] == steps;
  }

  function Times(t: real, n: nat): (r: seq<real>)
    ensures |r| == n
  {
    if n == 0 then [] else Times(t, n - 1) + [t]
  }

  function Checks(f: Check, n: nat): seq<Check> { seq(n, i => f) }

  lemma {:induction false} TimesIn(t: real, n: nat, x: real)
    requires In(x, t)
    ensures InOpen(Times(t, n), x) == n
  {
    if n > 0 {
      TimesIn(t, n - 1, x);
      InOpenNext(Times(t, n - 1), t, x);
      assert Times(t, n) == Times(t, n - 1) + [t];
    }
  }

  lemma {:induction false} TimesTrimmed(t: real, n: nat, cutoff: real)
    requires 0.0 <= t
    ensures RateLimits.Trimmed(Times(t, n), cutoff) == if t <= cutoff then [] else Times(t, n)
  {
    if n > 0 {
      TimesTrimmed(t, n - 1, cutoff);
      assert Times(t, n)[..n - 1] == Times(t, n - 1);
    }
  }

  lemma TimesNext(t: real, n: nat, h: seq<real>)
    requires n >= 1
    ensures (h + Times(t, n - 1)) + [t] == h + Times(t, n)
  {}

  /** With nobody in flight, `m` checks begin at time `t`. */
  lemma {:induction false} AllBegin(r: Rules, s0: State, base: seq<Step>, s: State, t: real, m: nat) returns (steps: seq<Step>)
    requires Leads(r, s0, base, s) && s.flying == [] && s.clock <= t && m <= r.c
    ensures Leads(r, s0, steps, s.(flying := Checks(Check(t, Begun), m), clock := if m == 0 then s.clock else t))
  {
    if m == 0 {
      steps := base;
    } else {
      var init := AllBegin(r, s0, base, s, t, m - 1);
      var done := s.(flying := Checks(Check(t, Begun), m - 1), clock := if m == 1 then s.clock else t);
      assert Checks(Check(t, Begun), m - 1) + [Check(t, Begun)] == Checks(Check(t, Begun), m);
      RunsOn(r, s0, init, done, Begin(t), s.(flying := Checks(Check(t, Begun), m), clock := t));
      steps := init + [Begin(t)];
    }
  }

  /** The first `n` of `m` checks at one phase, the others at another. */
  function Split(t: real, done: Phase, todo: Phase, n: nat, m: nat): seq<Check>
    requires n <= m
  {
    Checks(Check(t, done), n) + Checks(Check(t, todo), m - n)
  }

  lemma SplitEnds(t: real, done: Phase, todo: Phase, m: nat)
    ensures Split(t, done, todo, 0, m) == Checks(Check(t, todo), m) && Split(t, done, todo, m, m) == Checks(Check(t, done), m)
  {}

  lemma SplitStep(t: real, done: Phase, todo: Phase, n: nat, m: nat, tail: seq<Check>)
    requires n < m
    ensures var fl := Split(t, done, todo, n, m) + tail;
            fl[n] == Check(t, todo) && fl[n := Check(t, done)] == Split(t, done, todo, n + 1, m) + tail
  {}

  lemma TrimOne(r: Rules, s: State, t: real, n: nat, m: nat, k: nat, tail: seq<Check>)
    requires n < m && 0.0 <= t && (r.prompt ==> tail == [])
    requires s.flying == Split(t, Trimmed, Begun, n, m) + tail && s.scores == Times(t, k) && s.cut >= t - WINDOW
    ensures Enabled(r, s, Trim(n)) && Next(r, s, Trim(n)) == s.(flying := Split(t, Trimmed, Begun, n + 1, m) + tail)
  {
    TimesTrimmed(t, k, t - WINDOW);
    SplitStep(t, Trimmed, Begun, n, m, tail);
    if r.prompt { assert forall j :: 0 <= j < |s.flying| ==> s.flying[j].at == t; }
  }

  /** The first `n` of `m` trim a set whose scores are all in their window; `tail` stays as it is. */
  lemma {:induction false} AllTrim(
    r: Rules, s0: State, base: seq<Step>, s: State, t: real, n: nat, m: nat, k: nat, tail: seq<Check>)
    returns (steps: seq<Step>)
    requires Leads(r, s0, base, s) && n <= m && 0.0 <= t && (r.prompt ==> tail == [])
    requires s.flying == Checks(Check(t, Begun), m) + tail && s.scores == Times(t, k) && s.cut >= t - WINDOW
    ensures Leads(r, s0, steps, s.(flying := Split(t, Trimmed, Begun, n, m) + tail))
  {
    if n == 0 {
      steps := base;
      SplitEnds(t, Trimmed, Begun, m);
    } else {
      var init := AllTrim(r, s0, base, s, t, n - 1, m, k, tail);
      var done := s.(flying := Split(t, Trimmed, Begun, n - 1, m) + tail);
      TrimOne(r, done, t, n - 1, m, k, tail);
      RunsOn(r, s0, init, done, Trim(n - 1), Next(r, done, Trim(n - 1)));
      steps := init + [Trim(n - 1)];
    }
  }

  /** The first `n` count before any of them adds, and there is room. */
  lemma {:induction false} AllRead(
    r: Rules, s0: State, base: seq<Step>, s: State, t: real, n: nat, m: nat, tail: seq<Check>)
    returns (steps: seq<Step>)
    requires Leads(r, s0, base, s) && n <= m && s.flying == Checks(Check(t, Trimmed), m) + tail && |s.scores| < r.p
    ensures Leads(r, s0, steps, s.(flying := Split(t, Passed, Trimmed, n, m) + tail))
  {
    if n == 0 {
      steps := base;
      SplitEnds(t, Passed, Trimmed, m);
    } else {
      var init := AllRead(r, s0, base, s, t, n - 1, m, tail);
      var done := s.(flying := Split(t, Passed, Trimmed, n - 1, m) + tail);
      SplitStep(t, Passed, Trimmed, n - 1, m, tail);
      RunsOn(r, s0, init, done, Read(n - 1), s.(flying := Split(t, Passed, Trimmed, n, m) + tail));
      steps := init + [Read(n - 1)];
    }
  }

  lemma AddOne(r: Rules, s: State, t: real, left: nat, tail: seq<Check>)
    requires s.flying == Checks(Check(t, Passed), left + 1) + tail
    ensures Enabled(r, s, Add(0))
    ensures Next(r, s, Add(0)) == State(s.scores + [t], s.log + [t], s.clock, s.cut, Checks(Check(t, Passed), left) + tail)
  {
    assert s.flying[0] == Check(t, Passed) && Without(s.flying, 0) == Checks(Check(t, Passed), left) + tail;
  }

  /** After `n` of `m` passed checks have added themselves. */
  function Added(s: State, t: real, n: nat, m: nat, tail: seq<Check>): State
    requires n <= m
  {
    State(s.scores + Times(t, n), s.log + Times(t, n), s.clock, s.cut, Checks(Check(t, Passed), m - n) + tail)
  }

  lemma AddNext(r: Rules, s: State, t: real, n: nat, m: nat, tail: seq<Check>)
    requires 1 <= n <= m
    ensures var done := Added(s, t, n - 1, m, tail);
            Enabled(r, done, Add(0)) && Next(r, done, Add(0)) == Added(s, t, n, m, tail)
  {
    AddOne(r, Added(s, t, n - 1, m, tail), t, m - n, tail);
    TimesNext(t, n, s.scores);
    TimesNext(t, n, s.log);
  }

  /** The first `n` of them add. */
  lemma {:induction false} AllAdd(
    r: Rules, s0: State, base: seq<Step>, s: State, t: real, n: nat, m: nat, tail: seq<Check>)
    returns (steps: seq<Step>)
    requires Leads(r, s0, base, s) && n <= m && s.flying == Checks(Check(t, Passed), m) + tail
    ensures Leads(r, s0, steps, Added(s, t, n, m, tail))
  {
    if n == 0 {
      steps := base;
      assert Times(t, 0) == [] && s.scores + [] == s.scores && s.log + [] == s.log;
      assert Added(s, t, 0, m, tail) == s;
    } else {
      var init := AllAdd(r, s0, base, s, t, n - 1, m, tail);
      AddNext(r, s, t, n, m, tail);
      RunsOn(r, s0, init, Added(s, t, n - 1, m, tail), Add(0), Added(s, t, n, m, tail));
      steps := init + [Add(0)];
    }
  }

  /** `m` begun checks of time `t` go through together: all have trimmed and counted before the first adds. */
  lemma GoThrough(r: Rules, s0: State, base: seq<Step>, s: State, t: real, m: nat, k: nat, tail: seq<Check>)
    returns (steps: seq<Step>)
    requires Leads(r, s0, base, s) && k < r.p && 0.0 <= t && (r.prompt ==> tail == [])
    requires s.flying == Checks(Check(t, Begun), m) + tail && s.scores == Times(t, k) && s.cut >= t - WINDOW
    ensures Leads(r, s0, steps, State(s.scores + Times(t, m), s.log + Times(t, m), s.clock, s.cut, tail))
  {
    var a := AllTrim(r, s0, base, s, t, m, m, k, tail);
    SplitEnds(t, Trimmed, Begun, m);
    var trimmed := s.(flying := Checks(Check(t, Trimmed), m) + tail);
    var b := AllRead(r, s0, a, trimmed, t, m, m, tail);
    SplitEnds(t, Passed, Trimmed, m);
    steps := AllAdd(r, s0, b, s.(flying := Checks(Check(t, Passed), m) + tail), t, m, m, tail);
    assert Checks(Check(t, Passed), 0) + tail == tail;
  }

  lemma Together(r: Rules, s0: State, base: seq<Step>, s: State, t: real, m: nat, k: nat) returns (steps: seq<Step>)
    requires Leads(r, s0, base, s) && 1 <= m <= r.c && k < r.p && 0.0 <= t
    requires s.flying == [] && s.scores == Times(t, k) && s.clock <= t && s.cut >= t - WINDOW
    ensures Leads(r, s0, steps, State(s.scores + Times(t, m), s.log + Times(t, m), t, s.cut, []))
  {
    var a := AllBegin(r, s0, base, s, t, m);
    assert Checks(Check(t, Begun), m) + [] == Checks(Check(t, Begun), m);
    steps := GoThrough(r, s0, a, s.(flying := Checks(Check(t, Begun), m), clock := t), t, m, k, []);
  }

  /** Everything admitted so far was admitted at time `t`. */
  function Full(t: real, n: nat): State { State(Times(t, n), Times(t, n), t, t - WINDOW, []) }

  /** `n` checks one after the other, all at time `t`. */
  lemma {:induction false} OneByOne(r: Rules, t: real, n: nat) returns (steps: seq<Step>)
    requires r.c >= 1 && n <= r.p && 0.0 <= t
    ensures Leads(r, Start(t), steps, Full(t, n))
  {
    if n == 0 {
      steps := [];
    } else {
      var init := OneByOne(r, t, n - 1);
      steps := Together(r, Start(t), init, Full(t, n - 1), t, 1, n - 1);
      TimesAdd(t, n - 1, 1);
    }
  }

  lemma {:induction false} TimesAdd(t: real, m: nat, n: nat)
    ensures Times(t, m) + Times(t, n) == Times(t, m + n)
  {
    if n > 0 {
      TimesAdd(t, m, n - 1);
      TimesNext(t, n, Times(t, m));
    }
  }

  /** `p - 1` checks one by one, then `c` of them together. */
  lemma FullWindow(r: Rules, t: real) returns (steps: seq<Step>)
    requires r.p >= 1 && r.c >= 1 && 0.0 <= t
    ensures Leads(r, Start(t), steps, Full(t, r.p + r.c - 1))
  {
    var base := OneByOne(r, t, r.p - 1);
    steps := Together(r, Start(t), base, Full(t, r.p - 1), t, r.c, r.p - 1);
    TimesAdd(t, r.p - 1, r.c);
  }

  /** For every limit and every number in flight, prompt checks can fill a window with p + c - 1. */
  lemma PromptBoundReached(p: nat, c: nat, t: real, x: real) returns (steps: seq<Step>)
    requires p >= 1 && c >= 1 && 0.0 <= t && In(x, t)
    ensures var r := Rules(p, c, true);
            Runs(r, Start(t), steps) && InOpen(Exec(r, Start(t), steps).log, x) == p + c - 1
  {
    steps := FullWindow(Rules(p, c, true), t);
    TimesIn(t, p + c - 1, x);
  }

  /** `m` checks stall as they begin; one more begins a window later and trims away all that was there. */
  lemma LateTrim(r: Rules, s0: State, base: seq<Step>, t: real, u: real, n: nat, m: nat) returns (steps: seq<Step>)
    requires !r.prompt && m < r.c && 0.0 <= t && u > t + WINDOW
    requires Leads(r, s0, base, Full(t, n).(flying := Checks(Check(t, Begun), m)))
    ensures Leads(r, s0, steps, State([], Times(t, n), u, u - WINDOW, Checks(Check(t, Begun), m) + [Check(u, Trimmed)]))
  {
    var s := Full(t, n).(flying := Checks(Check(t, Begun), m));
    var fl := Checks(Check(t, Begun), m) + [Check(u, Begun)];
    RunsOn(r, s0, base, s, Begin(u), s.(clock := u, flying := fl));
    assert fl[m] == Check(u, Begun) && fl[m := Check(u, Trimmed)] == Checks(Check(t, Begun), m) + [Check(u, Trimmed)];
    TimesTrimmed(t, n, u - WINDOW);
    RunsOn(r, s0, base + [Begin(u)], s.(clock := u, flying := fl), Trim(m),
           State([], Times(t, n), u, u - WINDOW, Checks(Check(t, Begun), m) + [Check(u, Trimmed)]));
    steps := base + [Begin(u)] + [Trim(m)];
  }

  lemma StaleRun(r: Rules, t: real) returns (steps: seq<Step>)
    requires r.p >= 1 && r.c >= 1 && !r.prompt && 0.0 <= t
    ensures var u := t + WINDOW + 1.0;
            Leads(r, Start(t), steps,
                  State(Times(t, r.c - 1), Times(t, r.p + 2 * r.c - 2), u, u - WINDOW, [Check(u, Trimmed)]))
  {
    var u := t + WINDOW + 1.0;
    var n := r.p + r.c - 1;
    var full := FullWindow(r, t);
    var stalled := AllBegin(r, Start(t), full, Full(t, n), t, r.c - 1);
    var late := LateTrim(r, Start(t), stalled, t, u, n, r.c - 1);
    var s := State([], Times(t, n), u, u - WINDOW, Checks(Check(t, Begun), r.c - 1) + [Check(u, Trimmed)]);
    steps := GoThrough(r, Start(t), late, s, t, r.c - 1, 0, [Check(u, Trimmed)]);
    assert [] + Times(t, r.c - 1) == Times(t, r.c - 1);
    TimesAdd(t, n, r.c - 1);
  }

  /** When checks may stall for a whole window, p + 2c - 2 is reached as well. */
  lemma StaleBoundReached(p: nat, c: nat, t: real, x: real) returns (steps: seq<Step>)
    requires p >= 1 && c >= 1 && 0.0 <= t && In(x, t)
    ensures var r := Rules(p, c, false);
            Runs(r, Start(t), steps) && InOpen(Exec(r, Start(t), steps).log, x) == p + 2 * c - 2
  {
    steps := StaleRun(Rules(p, c, false), t);
    TimesIn(t, p + 2 * c - 2, x);
  }
}
