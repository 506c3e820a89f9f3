/**
  What whole runs of mediated calls can add up to: how often a tool runs in any minute, and how
  many refusals of a run come back as recoverable.
 */
module MediationLimits {
  import opened Wrappers
  import opened RateLimits
  import opened Manifest
  import opened Mediation
  import opened MediationSafety

  // ---- Executions per minute ------------------------------------------------------------------

  function KeyOf(req: Request): RateKey { RateKey(req.ctx.instance, req.tool) }

  /** When a tool body ran under the key. */
  function Executions(trace: seq<Event>, k: RateKey): seq<real> {
    if trace == [] then []
    else
      var e := trace[|trace| - 1];
      Executions(trace[..|trace| - 1], k) + if e.Executed? && KeyOf(e.req) == k then [e.req.world.now] else []
  }

  /** A call under the key comes no earlier than the last one, and its manifest limits the tool to `p` or fewer. */
  predicate Throttled(op: Op, k: RateKey, p: nat, clock: real) {
    op.CallTool? && KeyOf(op.req) == k ==>
      && clock <= op.req.world.now
      && var g := FindGrant(op.req.ctx.manifest.body.tools, op.req.tool);
         g.Some? ==> g.value.perMin.Some? && g.value.perMin.value <= p
  }

  function ClockAfter(op: Op, k: RateKey, clock: real): real {
    if op.CallTool? && KeyOf(op.req) == k then op.req.world.now else clock
  }

  predicate AllThrottled(ops: seq<Op>, k: RateKey, p: nat, clock: real) {
    ops == [] || (Throttled(ops[0], k, p, clock) && AllThrottled(ops[1..], k, p, ClockAfter(ops[0], k, clock)))
  }

  lemma LogOne(s: State, e: Event, k: RateKey)
    ensures Executions(Log(s, [e]).trace, k)
         == Executions(s.trace, k) + if e.Executed? && KeyOf(e.req) == k then [e.req.world.now] else []
    ensures !e.Executed? ==> Executions(Log(s, [e]).trace, k) == Executions(s.trace, k)
  {
    Snoc(s.trace, e);
  }

  lemma LogQuiet(s: State, a: Event, b: Event, k: RateKey)
    requires !a.Executed? && !b.Executed?
    ensures Executions(Log(s, [a, b]).trace, k) == Executions(s.trace, k)
  {
    LogTwo(s, a, b);
    LogOne(s, a, k);
    LogOne(Log(s, [a]), b, k);
  }

  lemma ExecuteExecutes(s: State, req: Request, k: RateKey)
    ensures Executions(Execute(s, req).trace, k) == Executions(s.trace, k) + if KeyOf(req) == k then [req.world.now] else []
    ensures Execute(s, req).admitted == s.admitted
  {
    var (intent, executed) := (AuditIntent(req.ctx.run, req.tool), Executed(req.ctx.run, req));
    LogTwo(s, intent, executed);
    LogOne(s, intent, k);
    LogOne(Log(s, [intent]), executed, k);
    LogOne(Log(s, [intent, executed]), Marked(req.ctx.run, req.world.now), k);
  }

  lemma ViolationExecutesNothing(s: State, req: Request, k: RateKey)
    ensures Executions(Violate(s, req).0.trace, k) == Executions(s.trace, k)
  {
    var r := req.ctx.run;
    var (denied, alert, violated) := (AuditDenied(r, req.tool), Alert(r), Violated(r, Violations(s, r) + 1 < MAX_VIOLATIONS));
    LogQuiet(s, denied, alert, k);
    LogOne(Log(s, [denied, alert]), violated, k);
    assert s.trace + [denied, alert] + [violated] == s.trace + [denied, alert, violated];
  }

  lemma RefusalExecutesNothing(v: Verdict, s: State, req: Request, k: RateKey)
    requires !Runs(v)
    ensures Executions(Respond(v, s, req).0.trace, k) == Executions(s.trace, k)
  {
    var s1 := TakeSlot(v, s, req);
    if IsViolation(v) {
      ViolationExecutesNothing(s, req, k);
    } else if v.NotInPlan? {
      LogQuiet(s1, AuditDenied(req.ctx.run, req.tool), PlanDenied(req.ctx.run), k);
    } else if v.NotWired? {
      LogOne(s1, AuditIntent(req.ctx.run, req.tool), k);
    }
  }

  lemma ExecutionsAfter(v: Verdict, s: State, req: Request, k: RateKey)
    ensures Executions(Respond(v, s, req).0.trace, k)
         == Executions(s.trace, k) + if Runs(v) && KeyOf(req) == k then [req.world.now] else []
  {
    if Runs(v) {
      ExecuteExecutes(TakeSlot(v, s, req), req, k);
    } else {
      RefusalExecutesNothing(v, s, req, k);
    }
  }

  lemma SlotsAfter(v: Verdict, s: State, req: Request, k: RateKey)
    ensures Admitted(Respond(v, s, req).0, k) == Admitted(TakeSlot(v, s, req), k)
    ensures KeyOf(req) != k ==> Admitted(Respond(v, s, req).0, k) == Admitted(s, k)
  {}

  /** A call that gets as far as the rate check under a limit passes it. */
  lemma FreeSlot(h: Digest, s: State, req: Request, p: nat)
    requires Throttled(CallTool(req), KeyOf(req), p, req.world.now)
    ensures var v := Judge(h, s, req);
            IsViolation(v) || v.BadParams? || v.OverRate?
            || (FindGrant(req.ctx.manifest.body.tools, req.tool).Some?
                && After(Admitted(s, KeyOf(req)), req.world.now - WINDOW) < p)
  {}

  /** One call under the key: a slot was free if one was taken, and one was taken if the body ran. */
  lemma CallTakes(h: Digest, s: State, req: Request, p: nat)
    requires Throttled(CallTool(req), KeyOf(req), p, req.world.now)
    ensures var (v, before) := (Judge(h, s, req), Admitted(s, KeyOf(req)));
            var after := Admitted(Respond(v, s, req).0, KeyOf(req));
            || (after == before && !Runs(v))
            || (after == before + [req.world.now] && After(before, req.world.now - WINDOW) < p)
  {
    FreeSlot(h, s, req, p);
    SlotsAfter(Judge(h, s, req), s, req, KeyOf(req));
  }

  lemma InOpenSnoc(a: seq<real>, t: real, x: real)
    ensures InOpen(a + [t], x) == InOpen(a, x) + if x < t <= x + WINDOW then 1 else 0
  {
    assert (a + [t])[..|a|] == a;
  }

  ghost predicate SlotsOk(s: State, k: RateKey, p: nat, clock: real) {
    && OpenRule(Admitted(s, k), p) && NoneLater(Admitted(s, k), clock)
    && forall x :: InOpen(Executions(s.trace, k), x) <= InOpen(Admitted(s, k), x)
  }

  /** Slots and executions after a call: both lists grow by the call's time, or the executions do not. */
  lemma Grows(before: seq<real>, ran: seq<real>, after: seq<real>, ran': seq<real>, now: real, p: nat, clock: real)
    requires OpenRule(before, p) && NoneLater(before, clock) && clock <= now
    requires forall x :: InOpen(ran, x) <= InOpen(before, x)
    requires (after == before && ran' == ran) || (after == before + [now] && After(before, now - WINDOW) < p
              && (ran' == ran || ran' == ran + [now]))
    ensures OpenRule(after, p) && NoneLater(after, now) && forall x :: InOpen(ran', x) <= InOpen(after, x)
  {
    NoneLaterMonotone(before, clock, now);
    if after == before + [now] {
      SnocRule(before, now, p);
      NoneLaterSnoc(before, now);
      forall x ensures InOpen(ran', x) <= InOpen(after, x) {
        InOpenSnoc(before, now, x);
        InOpenSnoc(ran, now, x);
        assert InOpen(ran, x) <= InOpen(before, x);
      }
    }
  }

  lemma CallKeepsSlots(h: Digest, s: State, req: Request, k: RateKey, p: nat, clock: real)
    requires SlotsOk(s, k, p, clock) && Throttled(CallTool(req), k, p, clock)
    ensures SlotsOk(Next(h, s, req).0, k, p, ClockAfter(CallTool(req), k, clock))
  {
    var v := Judge(h, s, req);
    var s' := Respond(v, s, req).0;
    ExecutionsAfter(v, s, req, k);
    if KeyOf(req) == k {
      CallTakes(h, s, req, p);
      Grows(Admitted(s, k), Executions(s.trace, k), Admitted(s', k), Executions(s'.trace, k), req.world.now, p, clock);
    } else {
      SlotsAfter(v, s, req, k);
      assert Executions(s'.trace, k) == Executions(s.trace, k);
    }
  }

  lemma OpKeepsSlots(h: Digest, s: State, op: Op, k: RateKey, p: nat, clock: real)
    requires SlotsOk(s, k, p, clock) && Throttled(op, k, p, clock)
    ensures SlotsOk(Apply(h, s, op), k, p, ClockAfter(op, k, clock))
  {
    match op
    case SignManifest(_) =>
    case CallTool(req) => CallKeepsSlots(h, s, req, k, p, clock);
    case Clear(r) => LogOne(s, Cleared(r), k);
  }

  lemma {:induction false} RunKeepsSlots(h: Digest, s: State, ops: seq<Op>, k: RateKey, p: nat, clock: real)
    returns (end: real)
    requires SlotsOk(s, k, p, clock) && AllThrottled(ops, k, p, clock)
    ensures SlotsOk(Exec(h, s, ops), k, p, end)
    decreases |ops|
  {
    if ops == [] {
      end := clock;
    } else {
      OpKeepsSlots(h, s, ops[0], k, p, clock);
      end := RunKeepsSlots(h, Apply(h, s, ops[0]), ops[1..], k, p, ClockAfter(ops[0], k, clock));
    }
  }

  /**
    However many runs call a tool of one instance, with whatever answers: if no manifest they call
    it under allows more than `p` a minute, no sixty-second window has more than `p` slots taken,
    and no more than `p` executions.
   */
  lemma NeverMoreThanTheManifestAllows(h: Digest, ops: seq<Op>, k: RateKey, p: nat, clock: real, x: real)
    requires AllThrottled(ops, k, p, clock)
    ensures var s := Exec(h, Start, ops);
            InOpen(Executions(s.trace, k), x) <= InOpen(Admitted(s, k), x) <= p
  {
    assert SlotsOk(Start, k, p, clock);
    var end := RunKeepsSlots(h, Start, ops, k, p, clock);
    OpenWindowBound(Admitted(Exec(h, Start, ops), k), p, x);
  }

  // ---- Recoverable refusals of one run ---------------------------------------------------------

  predicate IsCallOf(op: Op, r: Run) { op.CallTool? && op.req.ctx.run == r }

  predicate Recoverable(h: Digest, s: State, op: Op, r: Run) {
    IsCallOf(op, r) && Next(h, s, op.req).1 == Denied(ManifestViolation, true)
  }

  predicate Violating(h: Digest, s: State, op: Op, r: Run) { IsCallOf(op, r) && IsViolation(Judge(h, s, op.req)) }

  predicate PlanRefused(h: Digest, s: State, op: Op, r: Run) { IsCallOf(op, r) && Judge(h, s, op.req).NotInPlan? }

  /** Calls of run `r` answered with a recoverable `permission_denied_manifest`. */
  function RecoverableAnswers(h: Digest, s: State, ops: seq<Op>, r: Run): nat
    decreases |ops|
  {
    if ops == [] then 0
    else (if Recoverable(h, s, ops[0], r) then 1 else 0) + RecoverableAnswers(h, Apply(h, s, ops[0]), ops[1..], r)
  }

  /** Calls of run `r` that go outside their manifest. */
  function ViolatingCalls(h: Digest, s: State, ops: seq<Op>, r: Run): nat
    decreases |ops|
  {
    if ops == [] then 0
    else (if Violating(h, s, ops[0], r) then 1 else 0) + ViolatingCalls(h, Apply(h, s, ops[0]), ops[1..], r)
  }

  /** Calls of run `r` inside their manifest that the plan does not include. */
  function PlanRefusedCalls(h: Digest, s: State, ops: seq<Op>, r: Run): nat
    decreases |ops|
  {
    if ops == [] then 0
    else (if PlanRefused(h, s, ops[0], r) then 1 else 0) + PlanRefusedCalls(h, Apply(h, s, ops[0]), ops[1..], r)
  }

  lemma ViolationsAfter(v: Verdict, s: State, req: Request, r: Run)
    ensures Violations(Respond(v, s, req).0, r) == Violations(s, r) + if req.ctx.run == r && IsViolation(v) then 1 else 0
  {}

  /** A recoverable refusal is a violation before the third of its run, or a plan refusal. */
  lemma AnswerIs(v: Verdict, s: State, req: Request)
    ensures Respond(v, s, req).1 == Denied(ManifestViolation, true)
       <==> (IsViolation(v) && Violations(s, req.ctx.run) < 2) || v.NotInPlan?
  {}

  lemma OneAnswer(h: Digest, s: State, op: Op, r: Run)
    ensures Violations(Apply(h, s, op), r) == Violations(s, r) + if Violating(h, s, op, r) then 1 else 0
    ensures (if Recoverable(h, s, op, r) then 1 else 0) + Min(Violations(s, r), 2)
         == Min(Violations(Apply(h, s, op), r), 2) + if PlanRefused(h, s, op, r) then 1 else 0
  {
    if op.CallTool? {
      ViolationsAfter(Judge(h, s, op.req), s, op.req, r);
      AnswerIs(Judge(h, s, op.req), s, op.req);
    }
  }

  lemma Unfolded(h: Digest, s: State, ops: seq<Op>, r: Run)
    requires ops != []
    ensures var (s', op, rest) := (Apply(h, s, ops[0]), ops[0], ops[1..]);
            && RecoverableAnswers(h, s, ops, r) == (if Recoverable(h, s, op, r) then 1 else 0) + RecoverableAnswers(h, s', rest, r)
            && ViolatingCalls(h, s, ops, r) == (if Violating(h, s, op, r) then 1 else 0) + ViolatingCalls(h, s', rest, r)
            && PlanRefusedCalls(h, s, ops, r) == (if PlanRefused(h, s, op, r) then 1 else 0) + PlanRefusedCalls(h, s', rest, r)
  {}

  lemma {:induction false} AnswersFrom(h: Digest, s: State, ops: seq<Op>, r: Run)
    ensures RecoverableAnswers(h, s, ops, r) + Min(Violations(s, r), 2)
         == Min(Violations(s, r) + ViolatingCalls(h, s, ops, r), 2) + PlanRefusedCalls(h, s, ops, r)
    decreases |ops|
  {
    if ops != [] {
      Unfolded(h, s, ops, r);
      OneAnswer(h, s, ops[0], r);
      AnswersFrom(h, Apply(h, s, ops[0]), ops[1..], r);
    }
  }

  /**
    A run's recoverable refusals are its first two violations and every one of its plan refusals;
    so "at most two" holds exactly of the runs in which the two together are no more.
   */
  lemma AtMostTwoIff(h: Digest, ops: seq<Op>, r: Run)
    ensures var (all, out, plan) := (RecoverableAnswers(h, Start, ops, r), ViolatingCalls(h, Start, ops, r),
                                     PlanRefusedCalls(h, Start, ops, r));
            all == Min(out, 2) + plan && (all <= 2 <==> Min(out, 2) + plan <= 2)
  {
    AnswersFrom(h, Start, ops, r);
  }

  /** A call refused by the plan is refused so again, and each time as recoverable. */
  lemma {:induction false} PlanRefusalsRepeat(h: Digest, s: State, req: Request, n: nat)
    requires Judge(h, s, req).NotInPlan? && FindGrant(req.ctx.manifest.body.tools, req.tool).value.perMin.None?
    ensures RecoverableAnswers(h, s, seq(n, _ => CallTool(req)), req.ctx.run) == n
    decreases n
  {
    if n > 0 {
      var ops := seq(n, _ => CallTool(req));
      assert ops[1..] == seq(n - 1, _ => CallTool(req));
      PlanRefusalsRepeat(h, Next(h, s, req).0, req, n - 1);
    }
  }

  const Pack: Inputs := Inputs("i", "o", "t", ["x"], [PackGrant(Some("x"), None, None)], None, None)

  lemma PackBody()
    ensures Compile(Pack) == Body("i", "o", "t", [Grant("x", false, true, None, None)], None, [])
  {
    assert Pack.grants[..0] == [] && Tools(Pack, []) == [];
    assert Tools(Pack, Pack.grants) == [Grant("x", false, true, None, None)];
    assert [Grant("x", false, true, None, None)][..0] == [] && ReadOnlyNames([]) == [];
  }

  function UnpaidCall(h: Digest): Request {
    var m := Sign(h, Compile(Pack));
    Request(Context(0, "i", m, m.digest, false, {}), "x", World(0.0, None, true, true, 0, false, true, false, false))
  }

  lemma UnpaidIsRefused(h: Digest)
    requires BodyHash(h, Compile(Pack)) != ""
    ensures Judge(h, Apply(h, Start, SignManifest(Pack)), UnpaidCall(h)).NotInPlan?
    ensures FindGrant(Compile(Pack).tools, "x") == Some(Grant("x", false, true, None, None))
  {
    PackBody();
    FindsTheFirst(Compile(Pack).tools, "x", 0);
  }

  /** Such a run: a tool the manifest grants and the plan does not include, called `n` times. */
  lemma AnyNumberOfPlanRefusals(h: Digest, n: nat)
    requires BodyHash(h, Compile(Pack)) != ""
    ensures RecoverableAnswers(h, Start, [SignManifest(Pack)] + seq(n, _ => CallTool(UnpaidCall(h))), 0) == n
  {
    UnpaidIsRefused(h);
    var calls := seq(n, _ => CallTool(UnpaidCall(h)));
    assert ([SignManifest(Pack)] + calls)[1..] == calls;
    PlanRefusalsRepeat(h, Apply(h, Start, SignManifest(Pack)), UnpaidCall(h), n);
  }
}
