/**
  What holds over whole runs of mediated calls, read off the trace.
 */
module MediationSafety {
  import opened Wrappers
  import opened RateLimits
  import opened Manifest
  import opened Mediation

  datatype Op = SignManifest(i: Inputs) | CallTool(req: Request) | Clear(r: Run)

  function Apply(h: Digest, s: State, op: Op): State {
    match op
    case SignManifest(i) => s.(signed := s.signed[Compile(i) := i])
    case CallTool(req) => Next(h, s, req).0
    case Clear(r) => Log(s, [Cleared(r)]).(flags := s.flags - {r})
  }

  function Exec(h: Digest, s: State, ops: seq<Op>): State
    decreases |ops|
  {
    if ops == [] then s else Exec(h, Apply(h, s, ops[0]), ops[1..])
  }

  const Start: State := State(map[], map[], map[], map[], [])

  // ---- What an executed call had to pass -----------------------------------------------------

  /**
    The manifest verifies and is current, parameters, plan and the day's budget of messages allow the
    call, a compiled grant covers the tool, and its tier was settled.
   */
  ghost predicate Authorised(h: Digest, signed: map<Body, Inputs>, req: Request) {
    var m := req.ctx.manifest;
    && Verify(h, signed.Keys, m)
    && req.ctx.pinned == m.digest
    && (req.world.stored.Some? ==> req.world.stored.value == m.digest)
    && req.world.paramsOk && req.world.commercial
    && (req.tool == "messages.send" && m.body.sendsPerDay.Some? ==> req.world.underBudget)
    && exists g :: g in Compile(signed[m.body]).tools && Permits(signed[m.body], g, req)
  }

  ghost predicate Permits(i: Inputs, g: Grant, req: Request) {
    && Covers(g.name, req.tool)
    && g.name in i.allowlist
    && (i.tenantAllow.Some? ==> g.name in i.tenantAllow.value)
    && (exists p :: p in i.grants && p.name == Some(g.name))
    && (SkipsTier(g.name) || req.tool in req.ctx.approved || req.world.tier < 2)
  }

  ghost predicate SignedOk(s: State) {
    forall b :: b in s.signed ==> b == Compile(s.signed[b])
  }

  predicate RespectsNarrowing(s: State, req: Request) {
    (req.ctx.untrusted || Flagged(s, req.ctx.run, req.world.now)) ==> req.tool in req.ctx.manifest.body.narrowingAllow
  }

  lemma ExecutesAuthorised(h: Digest, s: State, req: Request)
    requires SignedOk(s) && (Judge(h, s, req).Executes? || Judge(h, s, req).Raised?)
    ensures Authorised(h, s.signed, req) && RespectsNarrowing(s, req)
  {
    var m := req.ctx.manifest;
    var g := FindGrant(m.body.tools, req.tool).value;
    var i := s.signed[m.body];
    assert m.body == Compile(i);
    GrantIsInside(i, g);
    assert Permits(i, g, req);
  }

  /** The events of one run that matter to narrowing: the last mark not followed by a clear. */
  function LastMark(trace: seq<Event>, r: Run): Option<real> {
    if trace == [] then None
    else
      var e := trace[|trace| - 1];
      if e.Marked? && e.run == r then Some(e.at)
      else if e.Cleared? && e.run == r then None
      else LastMark(trace[..|trace| - 1], r)
  }

  /** Each execution was announced just before, was authorised, and respected narrowing. */
  ghost predicate ExecutionOk(h: Digest, s: State, k: nat)
    requires k < |s.trace| && s.trace[k].Executed?
  {
    var req := s.trace[k].req;
    && s.trace[k].run == req.ctx.run
    && k > 0 && s.trace[k - 1] == AuditIntent(req.ctx.run, req.tool)
    && Authorised(h, s.signed, req)
    && (forall t :: LastMark(s.trace[..k], req.ctx.run) == Some(t) && req.world.now < t + FLAG_TTL
          ==> req.tool in req.ctx.manifest.body.narrowingAllow)
    && (req.ctx.untrusted ==> req.tool in req.ctx.manifest.body.narrowingAllow)
  }

  ghost predicate AllExecutionsOk(h: Digest, s: State) {
    forall k :: 0 <= k < |s.trace| && s.trace[k].Executed? ==> ExecutionOk(h, s, k)
  }

  ghost predicate FlagsOk(s: State) {
    forall r :: LastMark(s.trace, r) == if r in s.flags then Some(s.flags[r] - FLAG_TTL) else None
  }

  function CountViolations(trace: seq<Event>, r: Run): nat {
    if trace == [] then 0
    else
      var e := trace[|trace| - 1];
      CountViolations(trace[..|trace| - 1], r) + if e.Violated? && e.run == r then 1 else 0
  }

  function CountRecoverable(trace: seq<Event>, r: Run): nat {
    if trace == [] then 0
    else
      var e := trace[|trace| - 1];
      CountRecoverable(trace[..|trace| - 1], r) + if e.Violated? && e.run == r && e.recoverable then 1 else 0
  }

  ghost predicate CountsOk(s: State) {
    forall r :: CountViolations(s.trace, r) == Violations(s, r)
             && CountRecoverable(s.trace, r) == if Violations(s, r) < MAX_VIOLATIONS then Violations(s, r) else MAX_VIOLATIONS - 1
  }

  ghost predicate Inv(h: Digest, s: State) {
    SignedOk(s) && AllExecutionsOk(h, s) && FlagsOk(s) && CountsOk(s)
  }

  // ---- One event at a time -------------------------------------------------------------------

  lemma Snoc(trace: seq<Event>, e: Event)
    ensures (trace + [e])[..|trace|] == trace && (trace + [e])[|trace|] == e
  {
  }

  lemma LogTwo(s: State, a: Event, b: Event)
    ensures Log(s, [a, b]) == Log(Log(s, [a]), [b])
  {
    assert s.trace + [a, b] == s.trace + [a] + [b];
  }

  /** Appending an event that is neither an execution, a mark, a clear nor a violation keeps everything. */
  lemma QuietEvent(h: Digest, s: State, e: Event)
    requires Inv(h, s) && (e.AuditDenied? || e.AuditIntent? || e.Alert? || e.PlanDenied?)
    ensures Inv(h, Log(s, [e]))
  {
    Snoc(s.trace, e);
    OldExecutions(h, s, Log(s, [e]));
  }

  /** Executions already in the trace stay good when trace and signatures grow. */
  lemma OldExecutions(h: Digest, s: State, s': State)
    requires AllExecutionsOk(h, s) && s.trace <= s'.trace && s.signed == s'.signed
    ensures forall k :: 0 <= k < |s.trace| && s'.trace[k].Executed? ==> ExecutionOk(h, s', k)
  {
    forall k | 0 <= k < |s.trace| && s'.trace[k].Executed? ensures ExecutionOk(h, s', k) {
      assert ExecutionOk(h, s, k);
      assert s.trace[..k] == s'.trace[..k];
    }
  }

  lemma CountSnoc(trace: seq<Event>, e: Event, r: Run)
    ensures CountViolations(trace + [e], r) == CountViolations(trace, r) + if e.Violated? && e.run == r then 1 else 0
    ensures CountRecoverable(trace + [e], r) == CountRecoverable(trace, r) + if e.Violated? && e.run == r && e.recoverable then 1 else 0
  {
    Snoc(trace, e);
  }

  lemma ViolationKeeps(h: Digest, s: State, r: Run)
    requires Inv(h, s)
    ensures var n := Violations(s, r) + 1;
            Inv(h, Log(s, [Violated(r, n < MAX_VIOLATIONS)]).(violations := s.violations[r := n]))
  {
    var n := Violations(s, r) + 1;
    var s' := Log(s, [Violated(r, n < MAX_VIOLATIONS)]).(violations := s.violations[r := n]);
    Snoc(s.trace, Violated(r, n < MAX_VIOLATIONS));
    OldExecutions(h, s, s');
    forall q ensures CountViolations(s'.trace, q) == Violations(s', q)
                     && CountRecoverable(s'.trace, q) == if Violations(s', q) < MAX_VIOLATIONS then Violations(s', q) else MAX_VIOLATIONS - 1
    {
      CountSnoc(s.trace, Violated(r, n < MAX_VIOLATIONS), q);
      assert CountViolations(s.trace, q) == Violations(s, q);
    }
  }

  lemma MarkKeeps(h: Digest, s: State, r: Run, at: real)
    requires Inv(h, s)
    ensures Inv(h, Log(s, [Marked(r, at)]).(flags := s.flags[r := at + FLAG_TTL]))
  {
    var s' := Log(s, [Marked(r, at)]).(flags := s.flags[r := at + FLAG_TTL]);
    Snoc(s.trace, Marked(r, at));
    OldExecutions(h, s, s');
    assert forall q :: Violations(s', q) == Violations(s, q);
  }

  lemma ClearKeeps(h: Digest, s: State, r: Run)
    requires Inv(h, s)
    ensures Inv(h, Log(s, [Cleared(r)]).(flags := s.flags - {r}))
  {
    Snoc(s.trace, Cleared(r));
    OldExecutions(h, s, Log(s, [Cleared(r)]).(flags := s.flags - {r}));
  }

  lemma SlotKeeps(h: Digest, v: Verdict, s: State, req: Request)
    requires Inv(h, s)
    ensures Inv(h, TakeSlot(v, s, req)) && TakeSlot(v, s, req).trace == s.trace && TakeSlot(v, s, req).flags == s.flags
    ensures TakeSlot(v, s, req).signed == s.signed
  {
    OldExecutions(h, s, TakeSlot(v, s, req));
  }

  lemma SignKeeps(h: Digest, s: State, i: Inputs)
    requires Inv(h, s)
    ensures Inv(h, s.(signed := s.signed[Compile(i) := i]))
  {
    var s' := s.(signed := s.signed[Compile(i) := i]);
    forall k | 0 <= k < |s'.trace| && s'.trace[k].Executed? ensures ExecutionOk(h, s', k) {
      assert ExecutionOk(h, s, k);
      SignedStays(h, s.signed, i, s.trace[k].req);
    }
  }

  /** Signing the same body again, from whatever inputs, does not take an authorisation away. */
  lemma SignedStays(h: Digest, signed: map<Body, Inputs>, i: Inputs, req: Request)
    requires Authorised(h, signed, req) && (forall b :: b in signed ==> b == Compile(signed[b]))
    ensures Authorised(h, signed[Compile(i) := i], req)
  {
    var b := req.ctx.manifest.body;
    var g :| g in Compile(signed[b]).tools && Permits(signed[b], g, req);
    if b == Compile(i) {
      assert g in Compile(i).tools;
      GrantIsInside(i, g);
      assert Permits(i, g, req);
    }
  }

  /** The body of a tool runs right after its intent entry. */
  lemma ExecutedKeeps(h: Digest, s: State, req: Request)
    requires Inv(h, s) && Authorised(h, s.signed, req) && RespectsNarrowing(s, req)
    requires s.trace != [] && s.trace[|s.trace| - 1] == AuditIntent(req.ctx.run, req.tool)
    ensures Inv(h, Log(s, [Executed(req.ctx.run, req)]))
  {
    var s' := Log(s, [Executed(req.ctx.run, req)]);
    Snoc(s.trace, Executed(req.ctx.run, req));
    OldExecutions(h, s, s');
    assert ExecutionOk(h, s', |s.trace|);
  }

  lemma ExecutionKeeps(h: Digest, s: State, req: Request)
    requires Inv(h, s) && Authorised(h, s.signed, req) && RespectsNarrowing(s, req)
    ensures Inv(h, Log(s, [AuditIntent(req.ctx.run, req.tool), Executed(req.ctx.run, req)]))
  {
    var (r, intent) := (req.ctx.run, AuditIntent(req.ctx.run, req.tool));
    QuietEvent(h, s, intent);
    ExecutedKeeps(h, Log(s, [intent]), req);
    LogTwo(s, intent, Executed(r, req));
  }

  // ---- One call at a time --------------------------------------------------------------------

  lemma TwoQuietEvents(h: Digest, s: State, a: Event, b: Event)
    requires Inv(h, s) && (a.AuditDenied? || a.AuditIntent?) && (b.Alert? || b.PlanDenied?)
    ensures Inv(h, Log(s, [a, b]))
  {
    QuietEvent(h, s, a);
    QuietEvent(h, Log(s, [a]), b);
    LogTwo(s, a, b);
  }

  lemma ViolateKeeps(h: Digest, s: State, req: Request)
    requires Inv(h, s)
    ensures Inv(h, Violate(s, req).0)
  {
    var (r, denied, alert) := (req.ctx.run, AuditDenied(req.ctx.run, req.tool), Alert(req.ctx.run));
    TwoQuietEvents(h, s, denied, alert);
    ViolationKeeps(h, Log(s, [denied, alert]), r);
    var violated := Violated(r, Violations(s, r) + 1 < MAX_VIOLATIONS);
    assert s.trace + [denied, alert] + [violated] == s.trace + [denied, alert, violated];
  }

  /** The mark that outside content leaves, if it does, keeps everything. */
  lemma MaybeMark(h: Digest, s: State, req: Request, marks: bool)
    requires Inv(h, s)
    ensures Inv(h, if marks then Log(s, [Marked(req.ctx.run, req.world.now)]).(flags := s.flags[req.ctx.run := req.world.now + FLAG_TTL]) else s)
  {
    if marks { MarkKeeps(h, s, req.ctx.run, req.world.now); }
  }

  lemma ExecuteIs(s: State, req: Request)
    ensures var s' := Log(s, [AuditIntent(req.ctx.run, req.tool), Executed(req.ctx.run, req)]);
            Execute(s, req) == if !req.world.raises && UntrustedResult(req)
              then Log(s', [Marked(req.ctx.run, req.world.now)]).(flags := s'.flags[req.ctx.run := req.world.now + FLAG_TTL]) else s'
  {}

  lemma ExecuteKeeps(h: Digest, s: State, req: Request)
    requires Inv(h, s) && Authorised(h, s.signed, req) && RespectsNarrowing(s, req)
    ensures Inv(h, Execute(s, req))
  {
    ExecutionKeeps(h, s, req);
    ExecuteIs(s, req);
    MaybeMark(h, Log(s, [AuditIntent(req.ctx.run, req.tool), Executed(req.ctx.run, req)]), req, !req.world.raises && UntrustedResult(req));
  }

  /** The body runs, raising or not. */
  predicate Runs(v: Verdict) { v.Raised? || v.Executes? }

  lemma RespondKeeps(h: Digest, v: Verdict, s: State, req: Request)
    requires Inv(h, s)
    requires Runs(v) ==> Authorised(h, s.signed, req) && RespectsNarrowing(s, req)
    ensures Inv(h, Respond(v, s, req).0)
  {
    var s1 := TakeSlot(v, s, req);
    SlotKeeps(h, v, s, req);
    if IsViolation(v) {
      ViolateKeeps(h, s, req);
    } else if v.NotInPlan? {
      TwoQuietEvents(h, s1, AuditDenied(req.ctx.run, req.tool), PlanDenied(req.ctx.run));
    } else if v.NotWired? {
      QuietEvent(h, s1, AuditIntent(req.ctx.run, req.tool));
    } else if Runs(v) {
      ExecuteKeeps(h, s1, req);
    }
  }

  lemma CallKeeps(h: Digest, s: State, req: Request)
    requires Inv(h, s)
    ensures Inv(h, Next(h, s, req).0)
  {
    if Runs(Judge(h, s, req)) { ExecutesAuthorised(h, s, req); }
    RespondKeeps(h, Judge(h, s, req), s, req);
  }

  lemma {:induction false} RunKeeps(h: Digest, s: State, ops: seq<Op>)
    requires Inv(h, s)
    ensures Inv(h, Exec(h, s, ops))
    decreases |ops|
  {
    if ops != [] {
      match ops[0] {
        case SignManifest(i) => SignKeeps(h, s, i);
        case CallTool(req) => CallKeeps(h, s, req);
        case Clear(r) => ClearKeeps(h, s, r);
      }
      RunKeeps(h, Apply(h, s, ops[0]), ops[1..]);
    }
  }

  // ---- Theorems ------------------------------------------------------------------------------

  /**
    Whatever was signed, called and cleared: every tool body that ran was preceded by its intent
    entry, under a manifest that verifies, by a grant inside archetype ∩ pack ∩ tenant, and with
    its tier below 2, approved, or waived by its name.
   */
  lemma EveryExecutionIsAuthorised(h: Digest, ops: seq<Op>, k: nat)
    requires k < |Exec(h, Start, ops).trace| && Exec(h, Start, ops).trace[k].Executed?
    ensures var s := Exec(h, Start, ops);
            var req := s.trace[k].req;
            k > 0 && s.trace[k - 1] == AuditIntent(req.ctx.run, req.tool) && Authorised(h, s.signed, req)
  {
    RunKeeps(h, Start, ops);
    assert ExecutionOk(h, Exec(h, Start, ops), k);
  }

  /**
    Once a run has ingested external content, and until it is cleared, only read-only tools of its
    manifest run, for the two days the flag lives.
   */
  lemma NarrowedUntilCleared(h: Digest, ops: seq<Op>, k: nat, t: real)
    requires k < |Exec(h, Start, ops).trace| && Exec(h, Start, ops).trace[k].Executed?
    requires var s := Exec(h, Start, ops);
             LastMark(s.trace[..k], s.trace[k].run) == Some(t) && s.trace[k].req.world.now < t + FLAG_TTL
    ensures var req := Exec(h, Start, ops).trace[k].req;
            req.tool in req.ctx.manifest.body.narrowingAllow && IsReadOnly(req.tool)
  {
    RunKeeps(h, Start, ops);
    var s := Exec(h, Start, ops);
    assert ExecutionOk(h, s, k);
    var b := s.trace[k].req.ctx.manifest.body;
    NarrowingIsReadOnly(Compile(s.signed[b]).tools, s.trace[k].req.tool);
  }

  /** A run is flagged exactly while its last mark, not cleared since, is less than two days old. */
  lemma FlaggedIff(h: Digest, s: State, r: Run, now: real)
    requires Inv(h, s)
    ensures Flagged(s, r, now) <==> exists t :: LastMark(s.trace, r) == Some(t) && now < t + 172_800.0
  {
    assert LastMark(s.trace, r) == if r in s.flags then Some(s.flags[r] - FLAG_TTL) else None;
    if r in s.flags { assert LastMark(s.trace, r) == Some(s.flags[r] - FLAG_TTL); }
  }

  lemma NarrowedIff(h: Digest, s: State, req: Request)
    requires !Judge(h, s, req).Integrity? && !Judge(h, s, req).Stale? && !Judge(h, s, req).NoGrant?
    ensures Judge(h, s, req).Narrowed? <==>
              (req.ctx.untrusted || Flagged(s, req.ctx.run, req.world.now)) && req.tool !in req.ctx.manifest.body.narrowingAllow
  {}

  /** Exactly when a call is narrowed: an uncleared mark less than two days old, and a tool not on the list. */
  lemma NarrowsExactly(h: Digest, ops: seq<Op>, req: Request)
    requires var v := Judge(h, Exec(h, Start, ops), req); !v.Integrity? && !v.Stale? && !v.NoGrant?
    ensures var s := Exec(h, Start, ops);
            Judge(h, s, req).Narrowed?
            <==> && req.tool !in req.ctx.manifest.body.narrowingAllow
                 && (req.ctx.untrusted || exists t :: LastMark(s.trace, req.ctx.run) == Some(t) && req.world.now < t + 172_800.0)
  {
    RunKeeps(h, Start, ops);
    var s := Exec(h, Start, ops);
    FlaggedIff(h, s, req.ctx.run, req.world.now);
    NarrowedIff(h, s, req);
  }

  /** At most two manifest violations of a run come back as recoverable; any later one aborts it. */
  lemma AtMostTwoRecoverable(h: Digest, ops: seq<Op>, r: Run)
    ensures CountRecoverable(Exec(h, Start, ops).trace, r) <= 2
    ensures CountViolations(Exec(h, Start, ops).trace, r) <= CountRecoverable(Exec(h, Start, ops).trace, r)
            || CountRecoverable(Exec(h, Start, ops).trace, r) == 2
  {
    RunKeeps(h, Start, ops);
  }

  /** In any run a call is answered with an abort exactly when it is a violation and two are on the record. */
  lemma AbortsFromTheThird(h: Digest, ops: seq<Op>, req: Request)
    ensures var s := Exec(h, Start, ops);
            Next(h, s, req).1.Aborted? <==> IsViolation(Judge(h, s, req)) && CountViolations(s.trace, req.ctx.run) >= 2
  {
    RunKeeps(h, Start, ops);
    var s := Exec(h, Start, ops);
    assert CountViolations(s.trace, req.ctx.run) == Violations(s, req.ctx.run);
  }
}
