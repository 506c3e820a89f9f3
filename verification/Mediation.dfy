/**
  The mediation proxy: one tool call through the ordered check chain, and what holds over whole
  runs of calls.  Calls of one run follow each other; different runs interleave call by call.
 */
module Mediation {
  import opened Wrappers
  import opened RateLimits
  import opened Manifest

  type Run = nat
  type Instance = string

  const MAX_VIOLATIONS: nat := 3
  const FLAG_TTL: real := 172800.0
  const SEND: Tool := "messages.send"
  const UNTRUSTED_TOOLS: seq<Tool> := ["web_fetch", "file_ingest", "forwarded_content", "web.fetch"]

  datatype RateKey = RateKey(instance: Instance, tool: Tool)

  datatype Context = Context(
    run: Run,
    instance: Instance,
    manifest: Signed,
    pinned: string,         // the hash stamped on the run
    untrusted: bool,
    approved: set<Tool>)

  /** Everything the call learns from outside: clock, stored row, other services, the tool itself. */
  datatype World = World(
    now: real,
    stored: Option<string>,   // hash of the instance's current manifest
    paramsOk: bool,
    underBudget: bool,
    tier: int,
    commercial: bool,         // plan and classification allow the tool
    wired: bool,
    raises: bool,
    external: bool)           // the output is marked external_untrusted

  datatype Request = Request(ctx: Context, tool: Tool, world: World)

  datatype Code = ManifestViolation | SchemaViolation | RateLimited | BudgetExceeded | Unavailable

  datatype Outcome =
    | Denied(code: Code, recoverable: bool)
    | Pending(tier: int)
    | Done
    | Aborted

  datatype Event =
    | AuditDenied(run: Run, tool: Tool)
    | AuditIntent(run: Run, tool: Tool)
    | Alert(run: Run)
    | Executed(run: Run, req: Request)
    | Marked(run: Run, at: real)
    | Cleared(run: Run)
    | Violated(run: Run, recoverable: bool)
    | PlanDenied(run: Run)

  datatype State = State(
    signed: map<Body, Inputs>,                 // what the platform key has signed, and from what
    admitted: map<RateKey, seq<real>>,         // admissions per rate window
    violations: map<Run, nat>,
    flags: map<Run, real>,                     // untrusted flag and when it expires
    trace: seq<Event>)

  /** Where the chain stops. */
  datatype Verdict =
    | Integrity | Stale | NoGrant | Narrowed
    | BadParams | OverRate | OverBudget | NeedsApproval | NotInPlan | NotWired | Raised | Executes

  function Violations(s: State, r: Run): nat {
    if r in s.violations then s.violations[r] else 0
  }

  function Admitted(s: State, k: RateKey): seq<real> {
    if k in s.admitted then s.admitted[k] else []
  }

  predicate Flagged(s: State, r: Run, now: real) {
    r in s.flags && now < s.flags[r]
  }

  predicate UntrustedResult(req: Request) {
    req.tool in UNTRUSTED_TOOLS || req.world.external
  }

  predicate UnderRate(s: State, req: Request, g: Grant) {
    g.perMin.None? || After(Admitted(s, RateKey(req.ctx.instance, req.tool)), req.world.now - WINDOW) < g.perMin.value
  }

  /** The ordered checks; the first that fails decides. */
  function Judge(h: Digest, s: State, req: Request): Verdict {
    var (ctx, w) := (req.ctx, req.world);
    if ctx.pinned != BodyHash(h, ctx.manifest.body) || !Verify(h, s.signed.Keys, ctx.manifest) then Integrity
    else if w.stored.Some? && w.stored.value != ctx.pinned then Stale
    else
      var found := FindGrant(ctx.manifest.body.tools, req.tool);
      if found.None? then NoGrant
      else if (ctx.untrusted || Flagged(s, ctx.run, w.now)) && req.tool !in ctx.manifest.body.narrowingAllow then Narrowed
      else if !w.paramsOk then BadParams
      else if !UnderRate(s, req, found.value) then OverRate
      else if ctx.manifest.body.sendsPerDay.Some? && req.tool == SEND && !w.underBudget then OverBudget
      else if found.value.tierEval && req.tool !in ctx.approved && w.tier >= 2 then NeedsApproval
      else if !w.commercial then NotInPlan
      else if !w.wired then NotWired
      else if w.raises then Raised
      else Executes
  }

  predicate IsViolation(v: Verdict) {
    v.Integrity? || v.Stale? || v.NoGrant? || v.Narrowed?
  }

  /** The rate slot is taken as soon as the rate check passes, whatever follows. */
  function TakeSlot(v: Verdict, s: State, req: Request): State {
    var found := FindGrant(req.ctx.manifest.body.tools, req.tool);
    if IsViolation(v) || v.BadParams? || v.OverRate? || found.None? || found.value.perMin.None? then s
    else
      var k := RateKey(req.ctx.instance, req.tool);
      s.(admitted := s.admitted[k := Admitted(s, k) + [req.world.now]])
  }

  function Log(s: State, es: seq<Event>): State {
    s.(trace := s.trace + es)
  }

  function Violate(s: State, req: Request): (State, Outcome) {
    var r := req.ctx.run;
    var count := Violations(s, r) + 1;
    (Log(s, [AuditDenied(r, req.tool), Alert(r), Violated(r, count < MAX_VIOLATIONS)]).(violations := s.violations[r := count]),
     if count >= MAX_VIOLATIONS then Aborted else Denied(ManifestViolation, true))
  }

  function Execute(s: State, req: Request): State {
    var r := req.ctx.run;
    var s' := Log(s, [AuditIntent(r, req.tool), Executed(r, req)]);
    if !req.world.raises && UntrustedResult(req)
    then Log(s', [Marked(r, req.world.now)]).(flags := s.flags[r := req.world.now + FLAG_TTL])
    else s'
  }

  /** What the verdict leads to. */
  function Respond(v: Verdict, s: State, req: Request): (State, Outcome) {
    var (r, s1) := (req.ctx.run, TakeSlot(v, s, req));
    if IsViolation(v) then Violate(s, req)
    else match v
      case BadParams => (s, Denied(SchemaViolation, true))
      case OverRate => (s, Denied(RateLimited, true))
      case OverBudget => (s1, Denied(BudgetExceeded, false))
      case NeedsApproval => (s1, Pending(req.world.tier))
      case NotInPlan => (Log(s1, [AuditDenied(r, req.tool), PlanDenied(r)]), Denied(ManifestViolation, true))
      case NotWired => (Log(s1, [AuditIntent(r, req.tool)]), Denied(Unavailable, true))
      case Raised => (Execute(s1, req), Denied(Unavailable, true))
      case _ => (Execute(s1, req), Done)
  }

  /** One whole call. */
  function Next(h: Digest, s: State, req: Request): (State, Outcome) {
    Respond(Judge(h, s, req), s, req)
  }

  class Proxy {
    const h: Digest
    var signed: map<Body, Inputs>
    var admitted: map<RateKey, seq<real>>
    var violations: map<Run, nat>
    var flags: map<Run, real>
    var trace: seq<Event>

    function View(): State
      reads this
    {
      State(signed, admitted, violations, flags, trace)
    }

    constructor (h: Digest)
      ensures View() == State(map[], map[], map[], map[], []) && this.h == h
    {
      this.h := h;
      signed, admitted, violations, flags, trace := map[], map[], map[], map[], [];
    }

    /** `compile_and_sign`. */
    method CompileAndSign(i: Inputs) returns (m: Signed)
      modifies this`signed
      ensures m == Sign(h, Compile(i)) && signed == old(signed)[Compile(i) := i]
    {
      var body := CompileManifest(i);
      signed := signed[body := i];
      m := Sign(h, body);
    }

    /** `_manifest_denied`: audit, alert, count; the third violation of a run aborts it. */
    method ManifestDenied(req: Request) returns (o: Outcome)
      modifies this
      ensures (View(), o) == Violate(old(View()), req) && signed == old(signed)
    {
      var r := req.ctx.run;
      trace := trace + [AuditDenied(r, req.tool)];
      trace := trace + [Alert(r)];
      var count := Violations(View(), r) + 1;
      violations := violations[r := count];
      trace := trace + [Violated(r, count < MAX_VIOLATIONS)];
      assert trace == old(trace) + [AuditDenied(r, req.tool), Alert(r), Violated(r, count < MAX_VIOLATIONS)];
      o := if count >= MAX_VIOLATIONS then Aborted else Denied(ManifestViolation, true);
    }

    /** `check_rate` on this tool's window: a refused call takes no slot. */
    method TakeRate(k: RateKey, perMin: Option<int>, now: real) returns (ok: bool)
      modifies this`admitted
      ensures ok == (perMin.None? || After(Admitted(old(View()), k), now - WINDOW) < perMin.value)
      ensures admitted == if ok && perMin.Some? then old(admitted)[k := Admitted(old(View()), k) + [now]] else old(admitted)
    {
      if perMin.None? {
        return true;
      }
      ok := After(Admitted(View(), k), now - WINDOW) < perMin.value;
      if ok {
        admitted := admitted[k := Admitted(View(), k) + [now]];
      }
    }

    /** `call`: the check chain in the source's order. */
    method Call(req: Request) returns (o: Outcome)
      modifies this
      ensures (View(), o) == Next(h, old(View()), req)
    {
      var ctx, w, r := req.ctx, req.world, req.ctx.run;
      var body := ctx.manifest.body;
      if ctx.pinned != BodyHash(h, body) || !Verify(h, signed.Keys, ctx.manifest) {
        o := ManifestDenied(req);
        return;
      }
      if w.stored.Some? && w.stored.value != ctx.pinned {
        o := ManifestDenied(req);
        return;
      }
      var found := FindGrant(body.tools, req.tool);
      if found.None? {
        o := ManifestDenied(req);
        return;
      }
      if (ctx.untrusted || Flagged(View(), r, w.now)) && req.tool !in body.narrowingAllow {
        o := ManifestDenied(req);
        return;
      }
      o := Limited(req, found.value);
    }

    /** Within the manifest: parameters, rate, budget and tier. */
    method Limited(req: Request, grant: Grant) returns (o: Outcome)
      requires !IsViolation(Judge(h, View(), req)) && FindGrant(req.ctx.manifest.body.tools, req.tool) == Some(grant)
      modifies this
      ensures (View(), o) == Next(h, old(View()), req)
    {
      var ctx, w, body := req.ctx, req.world, req.ctx.manifest.body;
      if !w.paramsOk {
        return Denied(SchemaViolation, true);
      }
      var under := TakeRate(RateKey(ctx.instance, req.tool), grant.perMin, w.now);
      if !under {
        return Denied(RateLimited, true);
      }
      if body.sendsPerDay.Some? && req.tool == SEND && !w.underBudget {
        return Denied(BudgetExceeded, false);
      }
      if grant.tierEval && req.tool !in ctx.approved && w.tier >= 2 {
        return Pending(w.tier);
      }
      o := Effect(req);
    }

    /** The last gate, the intent entry, the tool, and the untrusted mark. */
    method Effect(req: Request) returns (o: Outcome)
      modifies this
      ensures signed == old(signed) && admitted == old(admitted)
      ensures !req.world.commercial ==>
                View() == Log(old(View()), [AuditDenied(req.ctx.run, req.tool), PlanDenied(req.ctx.run)])
                && o == Denied(ManifestViolation, true)
      ensures req.world.commercial && !req.world.wired ==>
                View() == Log(old(View()), [AuditIntent(req.ctx.run, req.tool)]) && o == Denied(Unavailable, true)
      ensures req.world.commercial && req.world.wired ==>
                View() == Execute(old(View()), req) && o == if req.world.raises then Denied(Unavailable, true) else Done
    {
      var r := req.ctx.run;
      if !req.world.commercial {
        trace := trace + [AuditDenied(r, req.tool), PlanDenied(r)];
        return Denied(ManifestViolation, true);
      }
      trace := trace + [AuditIntent(r, req.tool)];
      if !req.world.wired {
        return Denied(Unavailable, true);
      }
      trace := trace + [Executed(r, req)];
      assert trace == old(trace) + [AuditIntent(r, req.tool), Executed(r, req)];
      if req.world.raises {
        return Denied(Unavailable, true);
      }
      if UntrustedResult(req) {
        flags := flags[r := req.world.now + FLAG_TTL];
        trace := trace + [Marked(r, req.world.now)];
      }
      o := Done;
    }

    /** `clear_untrusted` at a human boundary. */
    method ClearUntrusted(r: Run)
      modifies this`flags, this`trace
      ensures View() == Log(old(View()), [Cleared(r)]).(flags := old(flags) - {r})
    {
      flags := flags - {r};
      trace := trace + [Cleared(r)];
    }
  }
}
