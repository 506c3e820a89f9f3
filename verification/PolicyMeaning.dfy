/**
  What a decision rests on, said of the table's rows, the call and the owner's settings themselves:
  whose rules govern a call, which of them their guards leave out, and what else counts.
 */
module PolicyMeaning {
  import opened Wrappers
  import opened Policy
  import opened PolicySafety
  import Json

  // ---- The call -------------------------------------------------------------------------------

  /** The price of a message: the structured amount unless it is missing or zero, else the largest one in its text. */
  function Price(p: Params): Option<int> {
    match p.amount
    case Some(n) => if n != 0 then Some(n) else p.largestInBody
    case None => p.largestInBody
  }

  /** The actions a tool call governs: those of its tool, a quote if it is a message with a price, else the tool itself. */
  predicate ActsAs(tool: string, p: Params, a: Action) {
    match tool
    case "messages.send" => a == "action.message.send" || (a == "action.quote.send" && Price(p).Some?)
    case "campaigns.execute" => a == "action.campaign.execute"
    case "catalog.write" => a == "action.catalog.write"
    case "landing_page.publish" => a == "action.landing_page.publish"
    case _ => a == tool
  }

  lemma ActionsAre(tool: string, p: Params, a: Action)
    ensures a in ResolveActions(tool, p) <==> ActsAs(tool, p, a)
  {}

  // ---- The rules ------------------------------------------------------------------------------

  /** A platform rule, a rule of a pack the organisation has installed, or its own. */
  predicate Governs(w: World, org: Org, r: Rule) {
    match r.scope
    case Core => true
    case Pack(p) => p in w.installed
    case Tenant(o) => o == org
  }

  predicate Blank(s: string) { forall i :: 0 <= i < |s| ==> s[i] in [' ', '\t', '\n', '\r'] }

  /** `text` between blanks. */
  ghost predicate Padded(s: string, text: string) {
    exists a, b :: Blank(a) && Blank(b) && s == a + (text + b)
  }

  /** The guard says no: it is there, is neither blank nor "true", and evaluates to false. */
  ghost predicate SaysNo(w: World, guard: Option<string>) {
    guard.Some? && !Padded(guard.value, "") && !Padded(guard.value, "true") && w.cel(guard.value) == DoesNotHold
  }

  /** No blank at either end. */
  predicate Tight(s: string) { s == "" || (s[0] !in SPACES && s[|s| - 1] !in SPACES) }

  lemma PadFront(c: char, s: string, text: string)
    requires c in SPACES && Padded(s, text)
    ensures Padded([c] + s, text)
  {
    var a, b :| Blank(a) && Blank(b) && s == a + (text + b);
    assert Blank([c] + a) && [c] + s == ([c] + a) + (text + b);
  }

  lemma PadBack(s: string, text: string, c: char)
    requires c in SPACES && Padded(s, text)
    ensures Padded(s + [c], text)
  {
    var a, b :| Blank(a) && Blank(b) && s == a + (text + b);
    assert Blank(b + [c]) && s + [c] == a + (text + (b + [c]));
  }

  lemma {:induction false} StrippedIs(s: string)
    ensures Tight(Stripped(s)) && Padded(s, Stripped(s))
    decreases |s|
  {
    if s != "" && s[0] in SPACES {
      StrippedIs(s[1..]);
      PadFront(s[0], s[1..], Stripped(s));
      assert s == [s[0]] + s[1..];
    } else if s != "" && s[|s| - 1] in SPACES {
      StrippedIs(s[..|s| - 1]);
      PadBack(s[..|s| - 1], Stripped(s), s[|s| - 1]);
      assert s == s[..|s| - 1] + [s[|s| - 1]];
    } else {
      assert Blank("") && s == "" + (s + "");
    }
  }

  lemma {:induction false} StrippedFront(a: string, s: string)
    requires Blank(a)
    ensures Stripped(a + s) == Stripped(s)
    decreases |a|
  {
    if a == "" {
      assert a + s == s;
    } else {
      assert (a + s)[0] == a[0] && (a + s)[1..] == a[1..] + s;
      StrippedFront(a[1..], s);
    }
  }

  lemma {:induction false} StrippedBack(s: string, b: string)
    requires Blank(b) && (s == "" || s[0] !in SPACES)
    ensures Stripped(s + b) == Stripped(s)
    decreases |b|
  {
    if s == "" {
      StrippedFront(b, "");
      assert s + b == b && b + "" == b;
    } else if b == "" {
      assert s + b == s;
    } else {
      var t := s + b;
      assert t[0] == s[0] && t[|t| - 1] == b[|b| - 1] && t[..|t| - 1] == s + b[..|b| - 1];
      StrippedBack(s, b[..|b| - 1]);
    }
  }

  /** A text without blanks at its ends is what is left of a guard exactly if the guard is that text between blanks. */
  lemma StrippedIff(s: string, text: string)
    requires Tight(text)
    ensures Stripped(s) == text <==> Padded(s, text)
  {
    StrippedIs(s);
    if a, b :| Blank(a) && Blank(b) && s == a + (text + b) {
      StrippedFront(a, text + b);
      StrippedBack(text, b);
    }
  }

  lemma MatchesIff(w: World, guard: Option<string>)
    ensures Matches(w, guard) <==> !SaysNo(w, guard)
  {
    if guard.Some? {
      StrippedIff(guard.value, "");
      StrippedIff(guard.value, "true");
    }
  }

  // ---- The owner ------------------------------------------------------------------------------

  /** The capability is not on automatic, or the amount reaches its threshold. */
  predicate HeldBack(o: Owner, cap: string, amount: Option<int>) {
    || cap !in o.capabilities || !o.capabilities[cap].auto
    || match (o.capabilities[cap].threshold, amount)
       case (Some(limit), Some(n)) => limit != 0 && n >= limit
       case _ => false
  }

  /** Paused; or held back for a message, a quote or a campaign; or a customer is to be contacted, unasked, in quiet hours. */
  predicate Reviewed(o: Owner, tool: string, p: Params, reactive: bool) {
    var amount := if tool == "messages.send" then Price(p) else p.amount;
    var (message, quote, campaign) :=
      (ActsAs(tool, p, "action.message.send"), ActsAs(tool, p, "action.quote.send"), ActsAs(tool, p, "action.campaign.execute"));
    || o.paused
    || (message && HeldBack(o, "messaging", amount))
    || (quote && HeldBack(o, "pricing", amount))
    || (campaign && HeldBack(o, "campaigns", amount))
    || ((message || campaign) && !reactive && o.quiet)
  }

  lemma CapabilitiesAre(tool: string, p: Params, cap: string)
    ensures cap in CapabilitiesOf(ResolveActions(tool, p)) <==>
            || (cap == "messaging" && ActsAs(tool, p, "action.message.send"))
            || (cap == "pricing" && ActsAs(tool, p, "action.quote.send"))
            || (cap == "campaigns" && ActsAs(tool, p, "action.campaign.execute"))
  {
    var actions := ResolveActions(tool, p);
    forall a ensures a in actions <==> exists i :: 0 <= i < |actions| && actions[i] == a {}
    ActionsAre(tool, p, "action.message.send");
    ActionsAre(tool, p, "action.quote.send");
    ActionsAre(tool, p, "action.campaign.execute");
  }

  /** The owner's floor is tier 2 exactly when the call is to be reviewed, and nothing otherwise. */
  lemma FloorIs(o: Owner, tool: string, p: Params, reactive: bool)
    ensures Floor(o, tool, p, reactive) == if Reviewed(o, tool, p, reactive) then 2 else 0
  {
    var caps := CapabilitiesOf(ResolveActions(tool, p));
    CapabilitiesAre(tool, p, "messaging");
    CapabilitiesAre(tool, p, "pricing");
    CapabilitiesAre(tool, p, "campaigns");
    forall c ensures c in caps ==> c in ["messaging", "pricing", "campaigns"] { CapabilitiesAre(tool, p, c); }
    var customer := caps * {"messaging", "campaigns"};
    assert customer != {} <==> "messaging" in caps || "campaigns" in caps by {
      if c :| c in customer {}
      if "messaging" in caps { assert "messaging" in customer; }
      if "campaigns" in caps { assert "campaigns" in customer; }
    }
  }

  // ---- The pool -------------------------------------------------------------------------------

  function AsContributor(r: Rule): Contributor {
    Contributor(r.tier, r.id, r.chain, r.timeout, r.onTimeout, r.confirm)
  }

  ghost predicate RuleCounts(w: World, org: Org, a: Action, r: Rule) {
    r in w.rules && r.action == a && Governs(w, org, r) && !SaysNo(w, r.guard)
  }

  const NeverAutonomous: set<Action> :=
    {"payment.charge", "payment.refund", "payout.create", "supplier.order_commit", "gbp.update", "ads.publish"}

  /** What counts for one action: its rules, the platform's own tier 4, and a tightening after an incident. */
  ghost predicate CountsFor(w: World, org: Org, a: Action, c: Contributor) {
    || (exists r :: RuleCounts(w, org, a, r) && c == AsContributor(r))
    || (a in NeverAutonomous && c == Contributor(4, "core:tier4", [], None, "cancel", None))
    || (a in w.incidents && c == Contributor(w.incidents[a], "incident", [], None, "hold", None))
  }

  /** Everything a decision on the call is taken from. */
  ghost predicate Counts(w: World, org: Org, o: Owner, tool: string, p: Params, reactive: bool, c: Contributor) {
    || (exists a :: ActsAs(tool, p, a) && CountsFor(w, org, a, c))
    || (Reviewed(o, tool, p, reactive) && c == Contributor(2, "autonomy", [], None, "hold", None))
  }

  lemma ContributesIff(w: World, org: Org, a: Action, c: Contributor)
    ensures Contributes(w, org, a, c) <==> CountsFor(w, org, a, c)
  {
    if r :| r in w.rules && Applies(w, org, a, r) && c == FromRule(r) {
      MatchesIff(w, r.guard);
      assert RuleCounts(w, org, a, r);
    }
    if r :| RuleCounts(w, org, a, r) && c == AsContributor(r) {
      MatchesIff(w, r.guard);
      assert Applies(w, org, a, r);
    }
  }

  lemma PoolCounts(w: World, org: Org, o: Owner, tool: string, p: Params, reactive: bool, c: Contributor)
    ensures c in ToolPool(w, org, o, tool, p, reactive) <==> Counts(w, org, o, tool, p, reactive, c)
  {
    FloorIs(o, tool, p, reactive);
    InPool(w, org, ResolveActions(tool, p), c);
    forall a ensures (a in ResolveActions(tool, p) && Contributes(w, org, a, c)) <==> (ActsAs(tool, p, a) && CountsFor(w, org, a, c)) {
      ActionsAre(tool, p, a);
      ContributesIff(w, org, a, c);
    }
  }

  // ---- The decision ---------------------------------------------------------------------------

  /** `c` decides among what counts: nothing has a higher tier, or the same tier and a greater key. */
  ghost predicate Decides(w: World, org: Org, o: Owner, tool: string, p: Params, reactive: bool, c: Contributor) {
    && Counts(w, org, o, tool, p, reactive, c)
    && forall d :: Counts(w, org, o, tool, p, reactive, d) ==>
         d.tier < c.tier || (d.tier == c.tier && (d.key == c.key || Json.Below(d.key, c.key)))
  }

  /** With nothing to go by a call needs approval; otherwise the highest of what counts decides. */
  lemma DecisionIs(w: World, org: Org, o: Owner, tool: string, p: Params, reactive: bool)
    ensures var d := Evaluate(w, org, o, tool, p, reactive);
            || ((forall c :: !Counts(w, org, o, tool, p, reactive, c)) && d == Decision(2, [], [], None, "hold", None))
            || (exists c :: Decides(w, org, o, tool, p, reactive, c)
                            && d == Decision(c.tier, d.matched, c.chain, c.timeout, c.onTimeout, c.confirm))
  {
    var pool := ToolPool(w, org, o, tool, p, reactive);
    forall c ensures c in pool <==> Counts(w, org, o, tool, p, reactive, c) { PoolCounts(w, org, o, tool, p, reactive, c); }
    if pool == [] {
      forall c ensures !Counts(w, org, o, tool, p, reactive, c) { assert c !in pool; }
    } else {
      WinnerOnTop(pool);
      assert Decides(w, org, o, tool, p, reactive, Winner(pool));
    }
  }

  /** And the keys of all that counts are recorded, in order. */
  lemma RecordIs(w: World, org: Org, o: Owner, tool: string, p: Params, reactive: bool)
    ensures var ks := Evaluate(w, org, o, tool, p, reactive).matched;
            Ascending(ks) && forall k :: k in ks <==> exists c :: Counts(w, org, o, tool, p, reactive, c) && c.key == k
  {
    var pool := ToolPool(w, org, o, tool, p, reactive);
    forall c ensures c in pool <==> Counts(w, org, o, tool, p, reactive, c) { PoolCounts(w, org, o, tool, p, reactive, c); }
    MatchedAre(pool);
  }

  lemma MatchedAre(pool: seq<Contributor>)
    ensures var ks := Decide(pool, Keys(pool)).matched; Ascending(ks) && forall k :: k in ks <==> exists c :: c in pool && c.key == k
  {
    SortedIsAscending(Keys(pool));
    SameMembers(Sorted(Keys(pool)), Keys(pool));
    forall k ensures k in Keys(pool) <==> exists c :: c in pool && c.key == k {
      if k in Keys(pool) {
        var i :| 0 <= i < |pool| && Keys(pool)[i] == k;
        assert pool[i] in pool;
      }
      if c :| c in pool && c.key == k {
        var i :| 0 <= i < |pool| && pool[i] == c;
        assert Keys(pool)[i] == k;
      }
    }
    if pool == [] { assert Keys(pool) == []; }
  }

  /** A rule that governs the call and that no guard leaves out holds it at its tier or above, and is recorded. */
  lemma RuleHoldsCall(w: World, org: Org, o: Owner, tool: string, p: Params, reactive: bool, r: Rule)
    requires r in w.rules && ActsAs(tool, p, r.action) && Governs(w, org, r)
    requires r.guard == None || w.cel(r.guard.value) != DoesNotHold
    ensures Evaluate(w, org, o, tool, p, reactive).tier >= r.tier
    ensures r.id in Evaluate(w, org, o, tool, p, reactive).matched
  {
    assert RuleCounts(w, org, r.action, r);
    assert Counts(w, org, o, tool, p, reactive, AsContributor(r));
    DecisionIs(w, org, o, tool, p, reactive);
    RecordIs(w, org, o, tool, p, reactive);
  }

  // ---- Isolation ------------------------------------------------------------------------------

  /** The rows that govern the organisation, in the table's order. */
  function Local(w: World, org: Org, rules: seq<Rule>): seq<Rule> {
    if rules == [] then []
    else Local(w, org, rules[..|rules| - 1]) + if Governs(w, org, rules[|rules| - 1]) then [rules[|rules| - 1]] else []
  }

  lemma {:induction false} FromLocal(w: World, org: Org, action: Action, rules: seq<Rule>)
    ensures FromRules(w, org, action, rules) == FromRules(w, org, action, Local(w, org, rules))
  {
    if rules != [] {
      var (init, r) := (rules[..|rules| - 1], rules[|rules| - 1]);
      FromLocal(w, org, action, init);
      if Governs(w, org, r) {
        assert (Local(w, org, init) + [r])[..|Local(w, org, init)|] == Local(w, org, init);
      } else {
        assert Local(w, org, init) + [] == Local(w, org, init);
        assert !Applies(w, org, action, r);
      }
    }
  }

  /** The same but for other organisations' rules and rules of packs the organisation has not installed. */
  ghost predicate SameForOrg(w: World, v: World, org: Org) {
    && Local(w, org, w.rules) == Local(v, org, v.rules)
    && v.installed == w.installed && v.incidents == w.incidents && v.cel == w.cel
  }

  lemma {:induction false} SameReading(w: World, v: World, org: Org, action: Action, rules: seq<Rule>)
    requires v.installed == w.installed && v.cel == w.cel
    ensures FromRules(w, org, action, rules) == FromRules(v, org, action, rules)
  {
    if rules != [] { SameReading(w, v, org, action, rules[..|rules| - 1]); }
  }

  lemma {:induction false} SamePool(w: World, v: World, org: Org, actions: seq<Action>)
    requires SameForOrg(w, v, org)
    ensures Pool(w, org, actions) == Pool(v, org, actions)
  {
    if actions != [] {
      var a := actions[|actions| - 1];
      SamePool(w, v, org, actions[..|actions| - 1]);
      FromLocal(w, org, a, w.rules);
      FromLocal(v, org, a, v.rules);
      SameReading(w, v, org, a, Local(w, org, w.rules));
    }
  }

  /** No tenant's rule, and no pack's that is not installed, has any part in another organisation's decisions. */
  lemma DecisionsAreIsolated(w: World, v: World, org: Org, o: Owner, tool: string, p: Params, reactive: bool)
    requires SameForOrg(w, v, org)
    ensures Evaluate(w, org, o, tool, p, reactive) == Evaluate(v, org, o, tool, p, reactive)
  {
    SamePool(w, v, org, ResolveActions(tool, p));
  }

  /** Tenants' rules have no part in what a tenant's rule is measured against. */
  lemma BaselineIgnoresTenants(w: World, v: World, r: Rule)
    requires forall q: Rule :: !q.scope.Tenant? ==> (q in w.rules <==> q in v.rules)
    ensures ValidTenantRule(w, r) <==> ValidTenantRule(v, r)
  {
    AcceptedIff(w, r);
    AcceptedIff(v, r);
    forall c ensures FromPlatform(w, r.action, c) <==> FromPlatform(v, r.action, c) {}
  }
}
