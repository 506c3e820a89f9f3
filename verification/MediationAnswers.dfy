/**
  What a call is answered, in any run, said of the request, the grants and the trace themselves: the
  first condition that fails decides, and a call that meets them all runs the tool.
 */
module MediationAnswers {
  import opened Wrappers
  import opened RateLimits
  import opened Manifest
  import opened Mediation
  import opened MediationSafety

  // ---- Names ----------------------------------------------------------------------------------

  ghost predicate Ends(s: string, suffix: string) { exists p :: s == p + suffix }

  /** Reading and searching, and the two tools that only compute, run without approval. */
  ghost predicate NeedsNoTier(name: Tool) {
    Ends(name, ".read") || Ends(name, ".search") || name == "pricing.compute" || name == "landing_page.generate"
  }

  /** The tool itself, or its family: `x.*` for everything that begins with `x.` */
  ghost predicate Names(name: Tool, tool: Tool) {
    name == tool || exists x, rest :: name == x + ".*" && tool == x + ("." + rest)
  }

  lemma EndsIff(s: string, suffix: string)
    ensures EndsWith(s, suffix) <==> Ends(s, suffix)
  {
    if EndsWith(s, suffix) { assert s == s[..|s| - |suffix|] + suffix; }
  }

  lemma NeedsNoTierIff(name: Tool)
    ensures SkipsTier(name) <==> NeedsNoTier(name)
  {
    EndsIff(name, ".read");
    EndsIff(name, ".search");
  }

  lemma NamesIff(name: Tool, tool: Tool)
    ensures Covers(name, tool) <==> Names(name, tool)
  {
    EndsIff(name, ".*");
    if Ends(name, ".*") {
      var x :| name == x + ".*";
      assert name[..|name| - 1] == x + ".";
      if StartsWith(tool, x + ".") { assert tool == x + ("." + tool[|x| + 1..]); }
    }
    if x, rest :| name == x + ".*" && tool == x + ("." + rest) {
      assert name[..|name| - 1] == x + "." && tool == (x + ".") + rest;
    }
  }

  ghost predicate FirstGrant(tools: seq<Grant>, tool: Tool, n: nat) {
    n < |tools| && Names(tools[n].name, tool) && forall i :: 0 <= i < n ==> !Names(tools[i].name, tool)
  }

  lemma Finds(tools: seq<Grant>, tool: Tool, n: nat)
    requires FirstGrant(tools, tool, n)
    ensures FindGrant(tools, tool) == Some(tools[n])
  {
    forall i | 0 <= i <= n ensures Covers(tools[i].name, tool) <==> i == n { NamesIff(tools[i].name, tool); }
    FindsTheFirst(tools, tool, n);
  }

  lemma FindsNone(tools: seq<Grant>, tool: Tool)
    ensures FindGrant(tools, tool).None? <==> forall i :: 0 <= i < |tools| ==> !Names(tools[i].name, tool)
  {
    forall i | 0 <= i < |tools| ensures Covers(tools[i].name, tool) <==> Names(tools[i].name, tool) { NamesIff(tools[i].name, tool); }
    if FindGrant(tools, tool).Some? {
      var i :| 0 <= i < |tools| && tools[i] == FindGrant(tools, tool).value;
    }
  }

  // ---- Compilation ----------------------------------------------------------------------------

  predicate Inside(i: Inputs, name: Tool) {
    name != "" && name in i.allowlist && (i.tenantAllow.Some? ==> name in i.tenantAllow.value)
  }

  ghost predicate Gated(g: Grant) { (g.readOnly <==> NeedsNoTier(g.name)) && (g.tierEval <==> !NeedsNoTier(g.name)) }

  predicate Declares(p: PackGrant, g: Grant) {
    p.name == Some(g.name) && p.perMin == g.perMin && p.constraints == g.constraints
  }

  /**
    A compiled manifest holds exactly the pack's named grants that the archetype lists and the tenant
    leaves, each with the pack's limit and constraints, and gated by its tier unless its name needs none.
   */
  lemma CompilesExactly(i: Inputs, g: Grant)
    ensures g in Compile(i).tools <==> Inside(i, g.name) && Gated(g) && exists p :: p in i.grants && Declares(p, g)
  {
    CompileIntersects(i, i.grants, g);
    NeedsNoTierIff(g.name);
    if p :| Inside(i, g.name) && Gated(g) && p in i.grants && Declares(p, g) {
      var n :| 0 <= n < |i.grants| && i.grants[n] == p;
    }
    if n :| 0 <= n < |i.grants| && Manifest.Granted(i, i.grants[n]) && g == Compiled(i.grants[n]) {
      assert i.grants[n] in i.grants;
    }
  }

  /** The rest of the body is handed through, the day's budget of messages with it. */
  lemma HandsThrough(i: Inputs)
    ensures var b := Compile(i);
            b.instance == i.instance && b.org == i.org && b.compiledAt == i.compiledAt && b.sendsPerDay == i.sendsPerDay
  {}

  /** In the pack's order. */
  lemma {:induction false} CompilesInOrder(i: Inputs, a: seq<PackGrant>, b: seq<PackGrant>)
    ensures Tools(i, a + b) == Tools(i, a) + Tools(i, b)
  {
    if b == [] {
      assert a + b == a;
    } else {
      var n := |b| - 1;
      CompilesInOrder(i, a, b[..n]);
      assert (a + b)[..|a + b| - 1] == a + b[..n];
    }
  }

  /** What is left after outside content: the compiled names that only read or search. */
  lemma NarrowsTo(i: Inputs, t: Tool)
    ensures t in Compile(i).narrowingAllow <==>
              (Ends(t, ".read") || Ends(t, ".search")) && exists g :: g in Compile(i).tools && g.name == t
  {
    NarrowingIsReadOnly(Compile(i).tools, t);
    EndsIff(t, ".read");
    EndsIff(t, ".search");
  }

  // ---- The manifest ---------------------------------------------------------------------------

  /** The run's manifest is the one pinned, unaltered, signed by the platform and still the instance's own. */
  predicate Sound(h: Digest, s: State, req: Request) {
    var (ctx, m) := (req.ctx, req.ctx.manifest);
    && ctx.pinned == m.digest == h(Text(m.body)) && m.digest != ""
    && m.signature == By(m.body) && m.body in s.signed
    && (req.world.stored.Some? ==> req.world.stored.value == ctx.pinned)
  }

  /** The run has outside content behind it, in this call or in the last two days, and the tool is not on the list. */
  ghost predicate Outside(s: State, req: Request) {
    && (req.ctx.untrusted || exists t :: LastMark(s.trace, req.ctx.run) == Some(t) && req.world.now < t + 172_800.0)
    && req.tool !in req.ctx.manifest.body.narrowingAllow
  }

  lemma VerdictOnManifest(h: Digest, s: State, req: Request)
    requires Inv(h, s)
    ensures IsViolation(Judge(h, s, req)) <==>
              !Sound(h, s, req) || FindGrant(req.ctx.manifest.body.tools, req.tool).None? || Outside(s, req)
  {
    FlaggedIff(h, s, req.ctx.run, req.world.now);
  }

  /**
    In any run: a call outside its manifest (not sound, not granted, or not to be used after outside
    content) is denied as a violation and audited, the third one of its run aborts it, and no tool runs.
   */
  lemma OutsideTheManifest(h: Digest, ops: seq<Op>, req: Request)
    requires var s := Exec(h, Start, ops);
             || !Sound(h, s, req) || Outside(s, req)
             || forall i :: 0 <= i < |req.ctx.manifest.body.tools| ==> !Names(req.ctx.manifest.body.tools[i].name, req.tool)
    ensures var s := Exec(h, Start, ops);
            var (s', answer) := Next(h, s, req);
            var before := CountViolations(s.trace, req.ctx.run);
            && answer == (if before < 2 then Denied(ManifestViolation, true) else Aborted)
            && s' == s.(trace := s.trace + [AuditDenied(req.ctx.run, req.tool), Alert(req.ctx.run), Violated(req.ctx.run, before < 2)],
                        violations := s.violations[req.ctx.run := before + 1])
  {
    RunKeeps(h, Start, ops);
    var s := Exec(h, Start, ops);
    FindsNone(req.ctx.manifest.body.tools, req.tool);
    VerdictOnManifest(h, s, req);
    assert CountViolations(s.trace, req.ctx.run) == Violations(s, req.ctx.run);
  }

  // ---- Inside it ------------------------------------------------------------------------------

  /** The last minute still has a free place for the tool. */
  predicate HasPlace(s: State, req: Request, g: Grant) {
    g.perMin.None? || After(Admitted(s, RateKey(req.ctx.instance, req.tool)), req.world.now - 60.0) < g.perMin.value
  }

  predicate OverDaily(req: Request) {
    req.tool == "messages.send" && req.ctx.manifest.body.sendsPerDay.Some? && !req.world.underBudget
  }

  ghost predicate MustAsk(req: Request, g: Grant) {
    !NeedsNoTier(g.name) && req.tool !in req.ctx.approved && req.world.tier >= 2
  }

  /** What a call inside its manifest is answered: the first condition that fails has its own answer. */
  ghost function AnswerInside(s: State, req: Request, g: Grant): Outcome {
    if !req.world.paramsOk then Denied(SchemaViolation, true)
    else if !HasPlace(s, req, g) then Denied(RateLimited, true)
    else if OverDaily(req) then Denied(BudgetExceeded, false)
    else if MustAsk(req, g) then Pending(req.world.tier)
    else if !req.world.commercial then Denied(ManifestViolation, true)
    else if !req.world.wired || req.world.raises then Denied(Unavailable, true)
    else Done
  }

  /** The tool runs: everything allows it, and there is one of that name. */
  ghost predicate ToolRuns(s: State, req: Request, g: Grant) {
    && req.world.paramsOk && HasPlace(s, req, g) && !OverDaily(req) && !MustAsk(req, g)
    && req.world.commercial && req.world.wired
  }

  /** Its output is outside content. */
  predicate BringsOutside(req: Request) {
    && !req.world.raises
    && (req.tool in {"web_fetch", "file_ingest", "forwarded_content", "web.fetch"} || req.world.external)
  }

  /** What is recorded of a call inside its manifest. */
  ghost function RecordInside(s: State, req: Request, g: Grant): seq<Event> {
    var (r, ok) := (req.ctx.run, req.world.paramsOk && HasPlace(s, req, g) && !OverDaily(req) && !MustAsk(req, g));
    if !ok then []
    else if !req.world.commercial then [AuditDenied(r, req.tool), PlanDenied(r)]
    else if !req.world.wired then [AuditIntent(r, req.tool)]
    else [AuditIntent(r, req.tool), Executed(r, req)] + if BringsOutside(req) then [Marked(r, req.world.now)] else []
  }

  lemma TierOfGrant(h: Digest, s: State, req: Request, n: nat)
    requires Inv(h, s) && Sound(h, s, req) && FirstGrant(req.ctx.manifest.body.tools, req.tool, n)
    ensures var g := req.ctx.manifest.body.tools[n]; g.tierEval <==> !NeedsNoTier(g.name)
  {
    var g := req.ctx.manifest.body.tools[n];
    assert req.ctx.manifest.body == Compile(s.signed[req.ctx.manifest.body]);
    GrantIsInside(s.signed[req.ctx.manifest.body], g);
    NeedsNoTierIff(g.name);
  }

  lemma VerdictInside(h: Digest, s: State, req: Request, n: nat)
    requires Inv(h, s) && Sound(h, s, req) && !Outside(s, req) && FirstGrant(req.ctx.manifest.body.tools, req.tool, n)
    ensures var (g, v) := (req.ctx.manifest.body.tools[n], Judge(h, s, req));
            && !IsViolation(v)
            && (v.BadParams? <==> !req.world.paramsOk)
            && (v.OverRate? <==> req.world.paramsOk && !HasPlace(s, req, g))
            && (v.OverBudget? <==> req.world.paramsOk && HasPlace(s, req, g) && OverDaily(req))
            && (v.NeedsApproval? <==> req.world.paramsOk && HasPlace(s, req, g) && !OverDaily(req) && MustAsk(req, g))
            && (v.Raised? || v.Executes? <==> ToolRuns(s, req, g))
            && (v.Raised? ==> req.world.raises) && (v.Executes? ==> !req.world.raises)
            && (v.NotInPlan? ==> !req.world.commercial) && (v.NotWired? ==> req.world.commercial && !req.world.wired)
  {
    Finds(req.ctx.manifest.body.tools, req.tool, n);
    VerdictOnManifest(h, s, req);
    TierOfGrant(h, s, req, n);
  }

  /** Answers and records by the verdict alone. */
  lemma Answered(v: Verdict, s: State, req: Request)
    requires !IsViolation(v)
    ensures var r := req.ctx.run;
            var (s', answer) := Respond(v, s, req);
            match v
            case BadParams => answer == Denied(SchemaViolation, true) && s'.trace == s.trace
            case OverRate => answer == Denied(RateLimited, true) && s'.trace == s.trace
            case OverBudget => answer == Denied(BudgetExceeded, false) && s'.trace == s.trace
            case NeedsApproval => answer == Pending(req.world.tier) && s'.trace == s.trace
            case NotInPlan => answer == Denied(ManifestViolation, true) && s'.trace == s.trace + [AuditDenied(r, req.tool), PlanDenied(r)]
            case NotWired => answer == Denied(Unavailable, true) && s'.trace == s.trace + [AuditIntent(r, req.tool)]
            case _ =>
              && answer == (if v.Raised? then Denied(Unavailable, true) else Done)
              && s'.trace == s.trace + ([AuditIntent(r, req.tool), Executed(r, req)] + if BringsOutside(req) then [Marked(r, req.world.now)] else [])
  {
    var two := [AuditIntent(req.ctx.run, req.tool), Executed(req.ctx.run, req)];
    assert s.trace + two + [Marked(req.ctx.run, req.world.now)] == s.trace + (two + [Marked(req.ctx.run, req.world.now)]);
    assert two + [] == two;
    assert s.trace + [] == s.trace;
  }

  lemma ExecuteMarks(s: State, req: Request)
    ensures var (s', r) := (Execute(s, req), req.ctx.run);
            && s'.signed == s.signed && s'.violations == s.violations && s'.admitted == s.admitted
            && s'.flags == if BringsOutside(req) then s.flags[r := req.world.now + 172_800.0] else s.flags
  {}

  lemma SlotOnly(v: Verdict, s: State, req: Request)
    ensures TakeSlot(v, s, req) == s.(admitted := TakeSlot(v, s, req).admitted)
    ensures v.BadParams? || v.OverRate? ==> TakeSlot(v, s, req) == s
  {}

  /** Slots and flags by the verdict alone. */
  lemma Kept(v: Verdict, s: State, req: Request)
    requires !IsViolation(v)
    ensures var (s', r) := (Respond(v, s, req).0, req.ctx.run);
            && s'.signed == s.signed && s'.violations == s.violations && s'.admitted == TakeSlot(v, s, req).admitted
            && s'.flags == if (v.Raised? || v.Executes?) && BringsOutside(req) then s.flags[r := req.world.now + 172_800.0] else s.flags
  {
    var s1 := TakeSlot(v, s, req);
    SlotOnly(v, s, req);
    if v.Raised? || v.Executes? {
      ExecuteMarks(s1, req);
      assert Respond(v, s, req).0 == Execute(s1, req);
    }
  }

  /**
    And nothing else changes but a place taken, by every call that finds one, and the mark that
    outside content leaves on the run for two days.
   */
  lemma InsideChanges(h: Digest, ops: seq<Op>, req: Request, n: nat)
    requires var s := Exec(h, Start, ops);
             Sound(h, s, req) && !Outside(s, req) && FirstGrant(req.ctx.manifest.body.tools, req.tool, n)
    ensures var (s, k, g) := (Exec(h, Start, ops), RateKey(req.ctx.instance, req.tool), req.ctx.manifest.body.tools[n]);
            var s' := Next(h, s, req).0;
            && s'.signed == s.signed && s'.violations == s.violations
            && s'.admitted == (if req.world.paramsOk && HasPlace(s, req, g) && g.perMin.Some?
                               then s.admitted[k := Admitted(s, k) + [req.world.now]] else s.admitted)
            && s'.flags == (if ToolRuns(s, req, g) && BringsOutside(req)
                            then s.flags[req.ctx.run := req.world.now + 172_800.0] else s.flags)
  {
    RunKeeps(h, Start, ops);
    var s := Exec(h, Start, ops);
    Finds(req.ctx.manifest.body.tools, req.tool, n);
    VerdictInside(h, s, req, n);
    Kept(Judge(h, s, req), s, req);
  }

  /**
    In any run: a call inside its manifest has the answer of the first condition that fails, its
    parameters, the last minute, the day's messages, its tier, the plan, the tool itself; and the
    tool runs, right after its intent entry, exactly when none before it fails.
   */
  lemma InsideTheManifest(h: Digest, ops: seq<Op>, req: Request, n: nat)
    requires var s := Exec(h, Start, ops);
             Sound(h, s, req) && !Outside(s, req) && FirstGrant(req.ctx.manifest.body.tools, req.tool, n)
    ensures var s := Exec(h, Start, ops);
            var g := req.ctx.manifest.body.tools[n];
            && Next(h, s, req).1 == AnswerInside(s, req, g)
            && Next(h, s, req).0.trace == s.trace + RecordInside(s, req, g)
            && (ToolRuns(s, req, g) <==> Executed(req.ctx.run, req) in RecordInside(s, req, g))
  {
    RunKeeps(h, Start, ops);
    var s := Exec(h, Start, ops);
    VerdictInside(h, s, req, n);
    Answered(Judge(h, s, req), s, req);
  }
}
