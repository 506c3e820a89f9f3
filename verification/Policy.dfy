/**
  The approval policy engine: contributors from platform, pack and tenant rules, incident
  tightening and the owner's autonomy setting; the highest tier decides.
 */
module Policy {
  import opened Wrappers
  import Json

  type Action = string
  type Org = string

  datatype Contributor = Contributor(
    tier: int,
    key: string,
    chain: seq<string>,
    timeout: Option<int>,
    onTimeout: string,
    confirm: Option<string>)

  datatype Decision = Decision(
    tier: int,
    matched: seq<string>,
    chain: seq<string>,
    timeout: Option<int>,
    onTimeout: string,
    confirm: Option<string>)

  datatype Scope = Core | Pack(pack: string) | Tenant(org: Org)

  datatype Rule = Rule(
    id: string,
    scope: Scope,
    action: Action,
    tier: int,
    guard: Option<string>,
    chain: seq<string>,
    timeout: Option<int>,
    onTimeout: string,
    confirm: Option<string>)

  /** A guard holds, does not hold, or cannot be compiled or evaluated. */
  datatype Guard = Holds | DoesNotHold | Fails

  datatype World = World(
    rules: seq<Rule>,                       // the policy table in the order the query returns it
    installed: set<string>,                 // packs active for the organisation
    incidents: map<Action, int>,            // highest unexpired tightening per action
    cel: string -> Guard)

  const CORE_TIER4: seq<Action> :=
    ["payment.charge", "payment.refund", "payout.create", "supplier.order_commit", "gbp.update", "ads.publish"]
  const DEFAULT_UNKNOWN_TIER: int := 2
  const NEVER_AUTONOMOUS_TIER: int := 4
  const AUTONOMY_REVIEW_TIER: int := 2

  // ---- Contributors --------------------------------------------------------------------------

  const SPACES: string := " \t\n\r"

  function Stripped(s: string): string
    decreases |s|
  {
    if s != "" && s[0] in SPACES then Stripped(s[1..])
    else if s != "" && s[|s| - 1] in SPACES then Stripped(s[..|s| - 1])
    else s
  }

  /** A rule without a guard matches, and so does one whose guard fails: it can only tighten. */
  predicate Matches(w: World, guard: Option<string>) {
    guard.None? || Stripped(guard.value) in ["", "true"] || !w.cel(guard.value).DoesNotHold?
  }

  predicate InScope(w: World, org: Org, r: Rule) {
    match r.scope
    case Core => true
    case Pack(p) => p in w.installed
    case Tenant(o) => o == org
  }

  predicate Applies(w: World, org: Org, action: Action, r: Rule) {
    r.action == action && InScope(w, org, r) && Matches(w, r.guard)
  }

  function FromRule(r: Rule): Contributor {
    Contributor(r.tier, r.id, r.chain, r.timeout, r.onTimeout, r.confirm)
  }

  const CoreTier4: Contributor := Contributor(NEVER_AUTONOMOUS_TIER, "core:tier4", [], None, "cancel", None)

  function Incident(tier: int): Contributor {
    Contributor(tier, "incident", [], None, "hold", None)
  }

  function Autonomy(tier: int): Contributor {
    Contributor(tier, "autonomy", [], None, "hold", None)
  }

  function FromRules(w: World, org: Org, action: Action, rules: seq<Rule>): seq<Contributor> {
    if rules == [] then []
    else
      FromRules(w, org, action, rules[..|rules| - 1])
      + if Applies(w, org, action, rules[|rules| - 1]) then [FromRule(rules[|rules| - 1])] else []
  }

  function Contributors(w: World, org: Org, action: Action): seq<Contributor> {
    (if action in CORE_TIER4 then [CoreTier4] else [])
    + FromRules(w, org, action, w.rules)
    + (if action in w.incidents then [Incident(w.incidents[action])] else [])
  }

  function Pool(w: World, org: Org, actions: seq<Action>): seq<Contributor> {
    if actions == [] then [] else Pool(w, org, actions[..|actions| - 1]) + Contributors(w, org, actions[|actions| - 1])
  }

  function Keys(cs: seq<Contributor>): seq<string> {
    seq(|cs|, i requires 0 <= i < |cs| => cs[i].key)
  }

  /** `_contributors`: one pass over the rules; the matched ids are the contributors' keys. */
  method CollectContributors(w: World, org: Org, action: Action) returns (cs: seq<Contributor>, matched: seq<string>)
    ensures cs == Contributors(w, org, action) && matched == Keys(cs)
  {
    cs, matched := [], [];
    if action in CORE_TIER4 {
      cs, matched := [CoreTier4], ["core:tier4"];
    }
    ghost var head := cs;
    for i := 0 to |w.rules|
      invariant cs == head + FromRules(w, org, action, w.rules[..i]) && matched == Keys(cs)
    {
      assert w.rules[..i + 1][..i] == w.rules[..i];
      var r := w.rules[i];
      if Applies(w, org, action, r) {
        cs := cs + [FromRule(r)];
        matched := matched + [r.id];
      }
    }
    assert w.rules[..|w.rules|] == w.rules;
    if action in w.incidents {
      cs := cs + [Incident(w.incidents[action])];
      matched := matched + ["incident"];
    }
  }

  // ---- Deciding ------------------------------------------------------------------------------

  /** Higher tier first, then the greater key. */
  predicate Outranks(a: Contributor, b: Contributor) {
    a.tier > b.tier || (a.tier == b.tier && Json.Below(b.key, a.key))
  }

  /** `max` keeps the first of equals. */
  function Winner(cs: seq<Contributor>): (w: Contributor)
    requires cs != []
    ensures w in cs
  {
    if |cs| == 1 then cs[0]
    else
      var best := Winner(cs[..|cs| - 1]);
      if Outranks(cs[|cs| - 1], best) then cs[|cs| - 1] else best
  }

  function Insert(k: string, sorted: seq<string>): seq<string> {
    if sorted == [] || !Json.Below(sorted[0], k) then [k] + sorted else [sorted[0]] + Insert(k, sorted[1..])
  }

  function Sorted(ks: seq<string>): seq<string> {
    if ks == [] then [] else Insert(ks[0], Sorted(ks[1..]))
  }

  function Decide(cs: seq<Contributor>, matched: seq<string>): Decision {
    if cs == [] then Decision(DEFAULT_UNKNOWN_TIER, [], [], None, "hold", None)
    else
      var w := Winner(cs);
      Decision(w.tier, Sorted(matched), w.chain, w.timeout, w.onTimeout, w.confirm)
  }

  // ---- A tool call ---------------------------------------------------------------------------

  datatype Params = Params(amount: Option<int>, largestInBody: Option<int>)

  /** What the owner set for one capability. */
  datatype Capability = Capability(auto: bool, threshold: Option<int>)

  datatype Owner = Owner(paused: bool, capabilities: map<string, Capability>, quiet: bool)

  function ToolActions(tool: string): seq<Action> {
    if tool == "messages.send" then ["action.message.send"]
    else if tool == "campaigns.execute" then ["action.campaign.execute"]
    else if tool == "catalog.write" then ["action.catalog.write"]
    else if tool == "landing_page.publish" then ["action.landing_page.publish"]
    else []
  }

  function MessageAmount(p: Params): Option<int> {
    if p.amount.Some? && p.amount.value != 0 then p.amount else p.largestInBody
  }

  function ActionAmount(tool: string, p: Params): Option<int> {
    if tool == "messages.send" then MessageAmount(p) else p.amount
  }

  function ResolveActions(tool: string, p: Params): (r: seq<Action>)
    ensures r != []
  {
    var actions := ToolActions(tool) + if tool == "messages.send" && MessageAmount(p).Some? then ["action.quote.send"] else [];
    if actions == [] then [tool] else actions
  }

  function CapabilityOf(a: Action): Option<string> {
    if a == "action.message.send" then Some("messaging")
    else if a == "action.quote.send" then Some("pricing")
    else if a == "action.campaign.execute" then Some("campaigns")
    else None
  }

  function CapabilitiesOf(actions: seq<Action>): set<string> {
    set i | 0 <= i < |actions| && CapabilityOf(actions[i]).Some? :: CapabilityOf(actions[i]).value
  }

  predicate NeedsReview(o: Owner, cap: string, amount: Option<int>) {
    cap !in o.capabilities || !o.capabilities[cap].auto
    || (o.capabilities[cap].threshold.Some? && o.capabilities[cap].threshold.value != 0
        && amount.Some? && amount.value >= o.capabilities[cap].threshold.value)
  }

  /** The review tier when paused, below auto, over a threshold, or quiet and outbound. */
  function Floor(o: Owner, tool: string, p: Params, reactive: bool): int {
    var caps := CapabilitiesOf(ResolveActions(tool, p));
    if o.paused then AUTONOMY_REVIEW_TIER
    else if exists c :: c in caps && NeedsReview(o, c, ActionAmount(tool, p)) then AUTONOMY_REVIEW_TIER
    else if caps * {"messaging", "campaigns"} != {} && !reactive && o.quiet then AUTONOMY_REVIEW_TIER
    else 0
  }

  /** `_autonomy_floor`: the capabilities in whatever order, up to the first that needs review. */
  method AutonomyFloor(o: Owner, tool: string, p: Params, reactive: bool) returns (f: int)
    ensures f == Floor(o, tool, p, reactive)
  {
    if o.paused { return AUTONOMY_REVIEW_TIER; }
    var caps := CapabilitiesOf(ResolveActions(tool, p));
    var amount := ActionAmount(tool, p);
    var todo := caps;
    while todo != {}
      invariant todo <= caps && forall c :: c in caps && NeedsReview(o, c, amount) ==> c in todo
    {
      var cap :| cap in todo;
      if cap !in o.capabilities || !o.capabilities[cap].auto { return AUTONOMY_REVIEW_TIER; }
      var threshold := o.capabilities[cap].threshold;
      if threshold.Some? && threshold.value != 0 && amount.Some? && amount.value >= threshold.value {
        return AUTONOMY_REVIEW_TIER;
      }
      todo := todo - {cap};
    }
    if caps * {"messaging", "campaigns"} != {} && !reactive && o.quiet { return AUTONOMY_REVIEW_TIER; }
    return 0;
  }

  function ToolPool(w: World, org: Org, o: Owner, tool: string, p: Params, reactive: bool): seq<Contributor> {
    var f := Floor(o, tool, p, reactive);
    Pool(w, org, ResolveActions(tool, p)) + if f > 0 then [Autonomy(f)] else []
  }

  function Evaluate(w: World, org: Org, o: Owner, tool: string, p: Params, reactive: bool): Decision {
    var pool := ToolPool(w, org, o, tool, p, reactive);
    Decide(pool, Keys(pool))
  }

  lemma KeysAppend(a: seq<Contributor>, b: seq<Contributor>)
    ensures Keys(a + b) == Keys(a) + Keys(b)
  {}

  /** The loop of `evaluate_tool`: the contributors of the whole action family, in one pool. */
  method PoolContributors(w: World, org: Org, actions: seq<Action>) returns (cs: seq<Contributor>, matched: seq<string>)
    ensures cs == Pool(w, org, actions) && matched == Keys(cs)
  {
    cs, matched := [], [];
    for i := 0 to |actions|
      invariant cs == Pool(w, org, actions[..i]) && matched == Keys(cs)
    {
      assert actions[..i + 1][..i] == actions[..i];
      var c, m := CollectContributors(w, org, actions[i]);
      KeysAppend(cs, c);
      cs := cs + c;
      matched := matched + m;
    }
    assert actions[..|actions|] == actions;
  }

  /** `evaluate_tool`: pool the whole action family, add the owner's floor, decide once. */
  method EvaluateTool(w: World, org: Org, o: Owner, tool: string, p: Params, reactive: bool) returns (d: Decision)
    ensures d == Evaluate(w, org, o, tool, p, reactive)
  {
    var cs, matched := PoolContributors(w, org, ResolveActions(tool, p));
    var f := AutonomyFloor(o, tool, p, reactive);
    if f > 0 {
      KeysAppend(cs, [Autonomy(f)]);
      cs := cs + [Autonomy(f)];
      matched := matched + ["autonomy"];
    }
    assert cs == ToolPool(w, org, o, tool, p, reactive) && matched == Keys(cs);
    d := Decide(cs, matched);
  }

  // ---- Tenant rules --------------------------------------------------------------------------

  function MaxTier(rules: seq<Rule>, action: Action): int {
    if rules == [] then 0
    else
      var (m, r) := (MaxTier(rules[..|rules| - 1], action), rules[|rules| - 1]);
      if r.action == action && !r.scope.Tenant? && r.tier > m then r.tier else m
  }

  /** `baseline_tier`: every platform and pack rule of the action, guards aside. */
  function Baseline(w: World, action: Action): int {
    var base := if action in CORE_TIER4 then NEVER_AUTONOMOUS_TIER else 0;
    var rules := MaxTier(w.rules, action);
    if base > rules then base else rules
  }

  predicate ValidTenantRule(w: World, r: Rule) {
    r.tier >= Baseline(w, r.action)
  }
}
