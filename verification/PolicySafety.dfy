/**
  The decision depends on which rules matched and not on their order, extra contributors can only
  tighten it, and the one exception (a first rule below the fallback tier) is exact.
 */
module PolicySafety {
  import opened Wrappers
  import opened Policy
  import Json

  // ---- The winner is the greatest contributor -------------------------------------------------

  lemma RankTransitive(a: Contributor, b: Contributor, c: Contributor)
    requires Outranks(a, b) && Outranks(b, c)
    ensures Outranks(a, c)
  {
    if a.tier == b.tier == c.tier { Json.BelowTransitive(c.key, b.key, a.key); }
  }

  lemma RankTotal(a: Contributor, b: Contributor)
    ensures Outranks(a, b) || Outranks(b, a) || (a.tier == b.tier && a.key == b.key)
  {
    Json.BelowTotal(a.key, b.key);
  }

  lemma RankAsymmetric(a: Contributor, b: Contributor)
    requires Outranks(a, b)
    ensures !Outranks(b, a)
  {
    if a.tier == b.tier { Json.BelowAsymmetric(b.key, a.key); }
  }

  predicate AtLeast(a: Contributor, b: Contributor) {
    Outranks(a, b) || (a.tier == b.tier && a.key == b.key)
  }

  lemma {:induction false} WinnerOnTop(cs: seq<Contributor>)
    requires cs != []
    ensures forall c :: c in cs ==> AtLeast(Winner(cs), c)
  {
    var last := cs[|cs| - 1];
    if |cs| > 1 {
      var best := Winner(cs[..|cs| - 1]);
      WinnerOnTop(cs[..|cs| - 1]);
      forall c | c in cs ensures AtLeast(Winner(cs), c) {
        if c in cs[..|cs| - 1] {
          if Outranks(last, best) && Outranks(best, c) { RankTransitive(last, best, c); }
        } else {
          RankTotal(last, best);
        }
      }
    }
  }

  /** Contributors equal on tier and key are the same contributor. */
  predicate Coherent(cs: seq<Contributor>) {
    forall a, b :: a in cs && b in cs && a.tier == b.tier && a.key == b.key ==> a == b
  }

  lemma SameMembers<T>(a: seq<T>, b: seq<T>)
    requires multiset(a) == multiset(b)
    ensures |a| == |b| && forall x :: x in a <==> x in b
  {
    assert |multiset(a)| == |multiset(b)|;
    forall x ensures x in a <==> x in b {
      assert x in a <==> x in multiset(a);
      assert x in b <==> x in multiset(b);
    }
  }

  lemma WithoutOne<T>(x: seq<T>, r: T, y: seq<T>)
    ensures multiset(x + ([r] + y)) - multiset{r} == multiset(x + y)
  {
    assert multiset(x + ([r] + y)) == multiset(x) + (multiset{r} + multiset(y));
    assert multiset(x + y) == multiset(x) + multiset(y);
  }

  /** Where the last element of `a` stands in its permutation `b`. */
  lemma TakeLast<T>(a: seq<T>, b: seq<T>) returns (x: seq<T>, y: seq<T>)
    requires a != [] && multiset(a) == multiset(b)
    ensures b == x + ([a[|a| - 1]] + y) && multiset(a[..|a| - 1]) == multiset(x + y)
  {
    var (init, last) := (a[..|a| - 1], a[|a| - 1]);
    SameMembers(a, b);
    assert last in a;
    var i :| 0 <= i < |b| && b[i] == last;
    x, y := b[..i], b[i + 1..];
    assert b == x + ([last] + y);
    assert a == init + ([last] + []) && init + [] == init;
    WithoutOne(init, last, []);
    WithoutOne(x, last, y);
  }

  lemma WinnerOfPermutation(a: seq<Contributor>, b: seq<Contributor>)
    requires a != [] && multiset(a) == multiset(b) && Coherent(a)
    ensures b != [] && Winner(a) == Winner(b)
  {
    SameMembers(a, b);
    WinnerOnTop(a);
    WinnerOnTop(b);
    var (x, y) := (Winner(a), Winner(b));
    assert AtLeast(x, y) && AtLeast(y, x);
    if Outranks(x, y) { RankAsymmetric(x, y); }
  }

  // ---- Sorting the matched ids ----------------------------------------------------------------

  predicate Ascending(ks: seq<string>) {
    |ks| <= 1 || (!Json.Below(ks[1], ks[0]) && Ascending(ks[1..]))
  }

  lemma {:induction false} InsertKeeps(k: string, ks: seq<string>)
    requires Ascending(ks)
    ensures Ascending(Insert(k, ks)) && multiset(Insert(k, ks)) == multiset(ks) + multiset{k}
  {
    if ks != [] && Json.Below(ks[0], k) {
      InsertKeeps(k, ks[1..]);
      assert ks == [ks[0]] + ks[1..];
      var rest := Insert(k, ks[1..]);
      assert Insert(k, ks)[1..] == rest;
      Json.BelowAsymmetric(ks[0], k);
      if |ks| > 1 { assert rest[0] == k || rest[0] == ks[1]; }
    } else {
      assert Insert(k, ks)[1..] == ks;
    }
  }

  lemma {:induction false} SortedIsAscending(ks: seq<string>)
    ensures Ascending(Sorted(ks)) && multiset(Sorted(ks)) == multiset(ks)
  {
    if ks != [] {
      SortedIsAscending(ks[1..]);
      InsertKeeps(ks[0], Sorted(ks[1..]));
      assert ks == [ks[0]] + ks[1..];
    }
  }

  lemma NotBelowTransitive(a: string, b: string, c: string)
    requires !Json.Below(b, a) && !Json.Below(c, b)
    ensures !Json.Below(c, a)
  {
    if Json.Below(c, a) {
      Json.BelowTotal(a, b);
      Json.BelowTotal(b, c);
      if Json.Below(a, b) { Json.BelowTransitive(c, a, b); }
    }
  }

  lemma {:induction false} HeadIsLeast(ks: seq<string>, k: string)
    requires Ascending(ks) && k in ks
    ensures !Json.Below(k, ks[0])
  {
    if k == ks[0] {
      if Json.Below(k, k) { Json.BelowAsymmetric(k, k); }
    } else {
      assert ks == [ks[0]] + ks[1..];
      HeadIsLeast(ks[1..], k);
      NotBelowTransitive(ks[0], ks[1], k);
    }
  }

  lemma TailsMatch<T>(a: seq<T>, b: seq<T>)
    requires a != [] && b != [] && a[0] == b[0] && multiset(a) == multiset(b)
    ensures multiset(a[1..]) == multiset(b[1..])
  {
    assert a == [] + ([a[0]] + a[1..]) && b == [] + ([b[0]] + b[1..]);
    assert [] + a[1..] == a[1..] && [] + b[1..] == b[1..];
    WithoutOne([], a[0], a[1..]);
    WithoutOne([], b[0], b[1..]);
  }

  lemma HeadsMatch(a: seq<string>, b: seq<string>)
    requires a != [] && b != [] && Ascending(a) && Ascending(b) && a[0] in b && b[0] in a
    ensures a[0] == b[0]
  {
    HeadIsLeast(a, b[0]);
    HeadIsLeast(b, a[0]);
    Json.BelowTotal(a[0], b[0]);
  }

  lemma {:induction false} AscendingUnique(a: seq<string>, b: seq<string>)
    requires Ascending(a) && Ascending(b) && multiset(a) == multiset(b)
    ensures a == b
  {
    SameMembers(a, b);
    if a != [] {
      HeadsMatch(a, b);
      TailsMatch(a, b);
      AscendingUnique(a[1..], b[1..]);
      assert a == [a[0]] + a[1..] && b == [b[0]] + b[1..];
    }
  }

  /** Any permutation of coherent contributors and of the matched ids gives the same decision. */
  lemma OrderIndependent(cs: seq<Contributor>, cs': seq<Contributor>, ms: seq<string>, ms': seq<string>)
    requires multiset(cs) == multiset(cs') && multiset(ms) == multiset(ms') && Coherent(cs)
    ensures Decide(cs, ms) == Decide(cs', ms')
  {
    SameMembers(cs, cs');
    if cs != [] {
      WinnerOfPermutation(cs, cs');
      SortedIsAscending(ms);
      SortedIsAscending(ms');
      AscendingUnique(Sorted(ms), Sorted(ms'));
    }
  }

  // ---- What is in a pool ----------------------------------------------------------------------

  lemma {:induction false} InFromRules(w: World, org: Org, action: Action, rules: seq<Rule>, c: Contributor)
    ensures c in FromRules(w, org, action, rules)
       <==> exists r :: r in rules && Applies(w, org, action, r) && c == FromRule(r)
  {
    if rules != [] {
      var init := rules[..|rules| - 1];
      InFromRules(w, org, action, init, c);
      assert rules == init + [rules[|rules| - 1]];
    }
  }

  predicate Contributes(w: World, org: Org, action: Action, c: Contributor) {
    || (action in CORE_TIER4 && c == CoreTier4)
    || (exists r :: r in w.rules && Applies(w, org, action, r) && c == FromRule(r))
    || (action in w.incidents && c == Incident(w.incidents[action]))
  }

  lemma {:induction false} InPool(w: World, org: Org, actions: seq<Action>, c: Contributor)
    ensures c in Pool(w, org, actions) <==> exists a :: a in actions && Contributes(w, org, a, c)
  {
    if actions != [] {
      var (init, a) := (actions[..|actions| - 1], actions[|actions| - 1]);
      InPool(w, org, init, c);
      assert actions == init + [a];
      InFromRules(w, org, a, w.rules, c);
      assert c in Contributors(w, org, a) <==> Contributes(w, org, a, c);
    }
  }

  const RESERVED: set<string> := {"core:tier4", "incident", "autonomy"}

  /** Rule ids are the table's primary key, and no UUID spells a reserved key. */
  predicate Keyed(w: World) {
    && (forall r :: r in w.rules ==> r.id !in RESERVED)
    && (forall r, q :: r in w.rules && q in w.rules && r.id == q.id ==> r == q)
  }

  predicate KnownKind(w: World, c: Contributor) {
    c == CoreTier4 || c == Incident(c.tier) || c == Autonomy(c.tier) || exists r :: r in w.rules && c == FromRule(r)
  }

  lemma PoolKind(w: World, org: Org, o: Owner, tool: string, p: Params, reactive: bool, c: Contributor)
    requires c in ToolPool(w, org, o, tool, p, reactive)
    ensures KnownKind(w, c)
  {
    InPool(w, org, ResolveActions(tool, p), c);
    if a :| a in ResolveActions(tool, p) && Contributes(w, org, a, c) {
      assert KnownKind(w, c);
    } else {
      assert c == Autonomy(c.tier);
    }
  }

  lemma PoolIsCoherent(w: World, org: Org, o: Owner, tool: string, p: Params, reactive: bool)
    requires Keyed(w)
    ensures Coherent(ToolPool(w, org, o, tool, p, reactive))
  {
    var pool := ToolPool(w, org, o, tool, p, reactive);
    forall a, b | a in pool && b in pool && a.tier == b.tier && a.key == b.key ensures a == b {
      PoolKind(w, org, o, tool, p, reactive, a);
      PoolKind(w, org, o, tool, p, reactive, b);
    }
  }

  // ---- The order of the policy table ----------------------------------------------------------

  ghost predicate SameButOrder(w: World, v: World) {
    multiset(w.rules) == multiset(v.rules) && w.installed == v.installed && w.incidents == v.incidents && w.cel == v.cel
  }

  lemma {:induction false} FromRulesAppend(w: World, org: Org, action: Action, a: seq<Rule>, b: seq<Rule>)
    ensures FromRules(w, org, action, a + b) == FromRules(w, org, action, a) + FromRules(w, org, action, b)
  {
    if b == [] {
      assert a + b == a;
    } else {
      var init := b[..|b| - 1];
      FromRulesAppend(w, org, action, a, init);
      assert (a + b)[..|a + b| - 1] == a + init;
    }
  }

  lemma OneRule(w: World, v: World, org: Org, action: Action, r: Rule)
    requires SameButOrder(w, v)
    ensures FromRules(v, org, action, [r]) == if Applies(w, org, action, r) then [FromRule(r)] else []
  {
    assert [r][..0] == [];
  }

  lemma {:induction false} FromRulesPermuted(
    w: World, v: World, org: Org, action: Action, a: seq<Rule>, b: seq<Rule>)
    requires SameButOrder(w, v) && multiset(a) == multiset(b)
    ensures multiset(FromRules(w, org, action, a)) == multiset(FromRules(v, org, action, b))
  {
    if a == [] {
      assert multiset(b) == multiset{};
    } else {
      var (init, r) := (a[..|a| - 1], a[|a| - 1]);
      var x, y := TakeLast(a, b);
      FromRulesPermuted(w, v, org, action, init, x + y);
      FromRulesAppend(v, org, action, x, y);
      FromRulesAppend(v, org, action, x, [r] + y);
      FromRulesAppend(v, org, action, [r], y);
      OneRule(w, v, org, action, r);
      assert FromRules(w, org, action, a) == FromRules(w, org, action, init) + FromRules(v, org, action, [r]);
    }
  }

  lemma {:induction false} PoolPermuted(w: World, v: World, org: Org, actions: seq<Action>)
    requires SameButOrder(w, v)
    ensures multiset(Pool(w, org, actions)) == multiset(Pool(v, org, actions))
  {
    if actions != [] {
      PoolPermuted(w, v, org, actions[..|actions| - 1]);
      FromRulesPermuted(w, v, org, actions[|actions| - 1], w.rules, v.rules);
    }
  }

  lemma {:induction false} KeysPermuted(a: seq<Contributor>, b: seq<Contributor>)
    requires multiset(a) == multiset(b)
    ensures multiset(Keys(a)) == multiset(Keys(b))
  {
    if a == [] {
      assert multiset(b) == multiset{};
      assert Keys(a) == Keys(b);
    } else {
      var (init, c) := (a[..|a| - 1], a[|a| - 1]);
      var x, y := TakeLast(a, b);
      KeysPermuted(init, x + y);
      KeysAppend(init, [c]);
      KeysAppend(x, y);
      KeysAppend(x, [c] + y);
      KeysAppend([c], y);
      assert a == init + [c];
    }
  }

  /** The order in which the policy table is read never changes a tool call's decision. */
  lemma TableOrderIsIrrelevant(w: World, v: World, org: Org, o: Owner, tool: string, p: Params, reactive: bool)
    requires Keyed(w) && SameButOrder(w, v)
    ensures Evaluate(w, org, o, tool, p, reactive) == Evaluate(v, org, o, tool, p, reactive)
  {
    PoolPermuted(w, v, org, ResolveActions(tool, p));
    PoolIsCoherent(w, org, o, tool, p, reactive);
    var (a, b) := (ToolPool(w, org, o, tool, p, reactive), ToolPool(v, org, o, tool, p, reactive));
    KeysPermuted(a, b);
    OrderIndependent(a, b, Keys(a), Keys(b));
  }

  // ---- More contributors tighten --------------------------------------------------------------

  lemma TierIsTheMaximum(cs: seq<Contributor>, ms: seq<string>)
    requires cs != []
    ensures forall c :: c in cs ==> c.tier <= Decide(cs, ms).tier
    ensures exists c :: c in cs && c.tier == Decide(cs, ms).tier
  {
    WinnerOnTop(cs);
    assert Winner(cs) in cs;
  }

  lemma MoreTightens(cs: seq<Contributor>, cs': seq<Contributor>, ms: seq<string>, ms': seq<string>)
    requires cs != [] && forall c :: c in cs ==> c in cs'
    ensures Decide(cs', ms').tier >= Decide(cs, ms).tier
  {
    assert cs[0] in cs;
    TierIsTheMaximum(cs, ms);
    TierIsTheMaximum(cs', ms');
  }

  function BareTier(w: World, org: Org, tool: string, p: Params): int {
    var pool := Pool(w, org, ResolveActions(tool, p));
    Decide(pool, Keys(pool)).tier
  }

  /** The owner's floor gives the larger of the two tiers, with no rule at all as well. */
  lemma FloorRaises(w: World, org: Org, o: Owner, tool: string, p: Params, reactive: bool)
    ensures var f := Floor(o, tool, p, reactive);
            Evaluate(w, org, o, tool, p, reactive).tier
              == if f == 0 then BareTier(w, org, tool, p) else Max(BareTier(w, org, tool, p), f)
  {
    var (pool, f) := (Pool(w, org, ResolveActions(tool, p)), Floor(o, tool, p, reactive));
    if f == 0 {
      assert pool + [] == pool;
    } else {
      var all := pool + [Autonomy(f)];
      assert Autonomy(f) in all;
      TierIsTheMaximum(all, Keys(all));
      if pool != [] { TierIsTheMaximum(pool, Keys(pool)); }
    }
  }

  lemma EmptyOrNot<T>(s: seq<T>)
    ensures s == [] || exists c :: c in s
  {
    if s != [] { assert s[0] in s; }
  }

  /** `v` is `w` with rule `r` inserted somewhere in the table. */
  ghost predicate AddsRule(w: World, r: Rule, v: World) {
    && (forall q :: q in v.rules <==> q in w.rules || q == r)
    && v.installed == w.installed && v.incidents == w.incidents && v.cel == w.cel
  }

  predicate AppliesToCall(w: World, org: Org, tool: string, p: Params, r: Rule) {
    r.action in ResolveActions(tool, p) && Applies(w, org, r.action, r)
  }

  lemma ContributesWithRule(w: World, r: Rule, v: World, org: Org, a: Action, c: Contributor)
    requires AddsRule(w, r, v)
    ensures Contributes(v, org, a, c)
       <==> Contributes(w, org, a, c) || (Applies(w, org, a, r) && c == FromRule(r))
  {
    forall q ensures Applies(v, org, a, q) == Applies(w, org, a, q) {}
    if q :| q in v.rules && Applies(v, org, a, q) && c == FromRule(q) {
      assert q in w.rules || q == r;
    }
    assert r in v.rules;
  }

  lemma PoolWithRule(w: World, r: Rule, v: World, org: Org, tool: string, p: Params, c: Contributor)
    requires AddsRule(w, r, v)
    ensures c in Pool(v, org, ResolveActions(tool, p))
       <==> c in Pool(w, org, ResolveActions(tool, p)) || (AppliesToCall(w, org, tool, p, r) && c == FromRule(r))
  {
    var actions := ResolveActions(tool, p);
    InPool(w, org, actions, c);
    InPool(v, org, actions, c);
    if a :| a in actions && Contributes(v, org, a, c) { ContributesWithRule(w, r, v, org, a, c); }
    if a :| a in actions && Contributes(w, org, a, c) { ContributesWithRule(w, r, v, org, a, c); }
    if AppliesToCall(w, org, tool, p, r) && c == FromRule(r) { ContributesWithRule(w, r, v, org, r.action, c); }
  }

  /**
    Adding a rule lowers a decision exactly when it is the call's first contributor, nothing else
    forces review, and its tier is below the fallback for "no rule at all".
   */
  lemma AddedRuleLowersIff(
    w: World, r: Rule, v: World, org: Org, o: Owner, tool: string, p: Params, reactive: bool)
    requires AddsRule(w, r, v)
    ensures Evaluate(v, org, o, tool, p, reactive).tier < Evaluate(w, org, o, tool, p, reactive).tier
       <==> (ToolPool(w, org, o, tool, p, reactive) == [] && AppliesToCall(w, org, tool, p, r)
             && r.tier < DEFAULT_UNKNOWN_TIER)
  {
    var (before, after) := (ToolPool(w, org, o, tool, p, reactive), ToolPool(v, org, o, tool, p, reactive));
    forall c ensures c in after <==> c in before || (AppliesToCall(w, org, tool, p, r) && c == FromRule(r)) {
      PoolWithRule(w, r, v, org, tool, p, c);
    }
    if before != [] {
      MoreTightens(before, after, Keys(before), Keys(after));
    } else if AppliesToCall(w, org, tool, p, r) {
      assert FromRule(r) in after;
      TierIsTheMaximum(after, Keys(after));
    }
    EmptyOrNot(after);
  }

  const Note: Rule := Rule("r", Core, "crm.note", 1, None, [], None, "hold", None)

  lemma NotePool(w: World, rules: seq<Rule>)
    requires w.rules == rules && w.incidents == map[] && |rules| <= 1
    requires rules != [] ==> rules[0].action == "crm.note" && rules[0].scope.Core?
    ensures var (o, p) := (Owner(false, map[], false), Params(None, None));
            ToolPool(w, "org", o, "crm.note", p, false)
              == if rules != [] && Matches(w, rules[0].guard) then [FromRule(rules[0])] else []
  {
    assert ResolveActions("crm.note", Params(None, None)) == ["crm.note"] && ["crm.note"][..0] == [];
    assert Pool(w, "org", []) == [];
    if rules != [] { assert rules[..0] == [] && FromRules(w, "org", "crm.note", []) == []; }
    assert Pool(w, "org", ["crm.note"]) == [] + Contributors(w, "org", "crm.note");
  }

  /** Such a case: an action without rules has tier 2; its first rule, of tier 1, lowers it to 1. */
  lemma AddedRuleExample()
    ensures var (w, v) := (World([], {}, map[], _ => Holds), World([Note], {}, map[], _ => Holds));
            var (o, p) := (Owner(false, map[], false), Params(None, None));
            && Evaluate(w, "org", o, "crm.note", p, false).tier == 2
            && Evaluate(v, "org", o, "crm.note", p, false).tier == 1
  {
    NotePool(World([], {}, map[], _ => Holds), []);
    NotePool(World([Note], {}, map[], _ => Holds), [Note]);
  }

  predicate BreaksGuards(w: World, v: World) {
    && v.rules == w.rules && v.installed == w.installed && v.incidents == w.incidents
    && forall r :: r in w.rules && r.guard.Some? ==>
         v.cel(r.guard.value) == w.cel(r.guard.value) || v.cel(r.guard.value).Fails?
  }

  lemma BrokenGuardsKeep(w: World, v: World, org: Org, actions: seq<Action>, c: Contributor)
    requires BreaksGuards(w, v) && c in Pool(w, org, actions)
    ensures c in Pool(v, org, actions)
  {
    InPool(w, org, actions, c);
    InPool(v, org, actions, c);
    var a :| a in actions && Contributes(w, org, a, c);
    assert Contributes(v, org, a, c);
  }

  /**
    A guard that stops working lowers a decision exactly when the call had no contributor at all,
    now has one, and every one it has is below the fallback for "no rule at all".
   */
  lemma BrokenGuardLowersIff(
    w: World, v: World, org: Org, o: Owner, tool: string, p: Params, reactive: bool)
    requires BreaksGuards(w, v)
    ensures var (before, after) := (ToolPool(w, org, o, tool, p, reactive), ToolPool(v, org, o, tool, p, reactive));
            (Evaluate(v, org, o, tool, p, reactive).tier < Evaluate(w, org, o, tool, p, reactive).tier
             <==> before == [] && after != [] && (forall c :: c in after ==> c.tier < DEFAULT_UNKNOWN_TIER))
  {
    var (before, after) := (ToolPool(w, org, o, tool, p, reactive), ToolPool(v, org, o, tool, p, reactive));
    var actions := ResolveActions(tool, p);
    if before != [] {
      forall c | c in before ensures c in after {
        if c in Pool(w, org, actions) { BrokenGuardsKeep(w, v, org, actions, c); }
      }
      MoreTightens(before, after, Keys(before), Keys(after));
    } else if after != [] {
      TierIsTheMaximum(after, Keys(after));
    }
  }

  const GuardedNote: Rule := Rule("r", Core, "crm.note", 1, Some("g"), [], None, "hold", None)

  function Only(rule: Rule, guard: Guard): World { World([rule], {}, map[], _ => guard) }

  lemma OnlyTier(guard: Guard)
    ensures Evaluate(Only(GuardedNote, guard), "org", Owner(false, map[], false), "crm.note", Params(None, None), false).tier
         == if guard.DoesNotHold? then 2 else 1
  {
    assert Stripped("g") == "g";
    NotePool(Only(GuardedNote, guard), [GuardedNote]);
  }

  /** Such a case: the one rule of an action has tier 1 and a guard that does not hold; broken, it lowers 2 to 1. */
  lemma BrokenGuardExample()
    ensures var (w, v) := (Only(GuardedNote, DoesNotHold), Only(GuardedNote, Fails));
            var (o, p) := (Owner(false, map[], false), Params(None, None));
            && BreaksGuards(w, v)
            && Evaluate(w, "org", o, "crm.note", p, false).tier == 2
            && Evaluate(v, "org", o, "crm.note", p, false).tier == 1
  {
    OnlyTier(DoesNotHold);
    OnlyTier(Fails);
  }

  // ---- Tenant rules ---------------------------------------------------------------------------

  lemma {:induction false} MaxTierBounds(rules: seq<Rule>, action: Action)
    ensures MaxTier(rules, action) >= 0
    ensures forall r :: r in rules && r.action == action && !r.scope.Tenant? ==> r.tier <= MaxTier(rules, action)
    ensures MaxTier(rules, action) > 0 ==>
              exists r :: r in rules && r.action == action && !r.scope.Tenant? && r.tier == MaxTier(rules, action)
  {
    if rules != [] {
      var init := rules[..|rules| - 1];
      MaxTierBounds(init, action);
      assert rules == init + [rules[|rules| - 1]];
    }
  }

  /** Every platform or pack contributor of an action, whatever its guard says. */
  predicate FromPlatform(w: World, action: Action, c: Contributor) {
    || (action in CORE_TIER4 && c == CoreTier4)
    || (exists r :: r in w.rules && r.action == action && !r.scope.Tenant? && c == FromRule(r))
  }

  /** A tenant rule is accepted exactly when no platform or pack contributor could outrank its tier. */
  lemma AcceptedIff(w: World, r: Rule)
    ensures ValidTenantRule(w, r)
       <==> r.tier >= 0 && forall c :: FromPlatform(w, r.action, c) ==> c.tier <= r.tier
  {
    MaxTierBounds(w.rules, r.action);
    if r.action in CORE_TIER4 { assert FromPlatform(w, r.action, CoreTier4); }
    if forall c :: FromPlatform(w, r.action, c) ==> c.tier <= r.tier {
      if MaxTier(w.rules, r.action) > 0 {
        var q :| q in w.rules && q.action == r.action && !q.scope.Tenant? && q.tier == MaxTier(w.rules, r.action);
        assert FromPlatform(w, r.action, FromRule(q));
      }
    }
  }

  /**
    An accepted tenant rule leaves every call that already had a contributor at least as tight, and
    puts the calls it applies to at or above their action's baseline.
   */
  lemma TenantRuleOnlyTightens(
    w: World, r: Rule, v: World, org: Org, o: Owner, tool: string, p: Params, reactive: bool)
    requires AddsRule(w, r, v) && r.scope.Tenant? && ValidTenantRule(w, r)
    ensures ToolPool(w, org, o, tool, p, reactive) != [] ==>
              Evaluate(v, org, o, tool, p, reactive).tier >= Evaluate(w, org, o, tool, p, reactive).tier
    ensures AppliesToCall(w, org, tool, p, r) ==>
              Evaluate(v, org, o, tool, p, reactive).tier >= r.tier >= Baseline(w, r.action)
  {
    AddedRuleLowersIff(w, r, v, org, o, tool, p, reactive);
    if AppliesToCall(w, org, tool, p, r) {
      PoolWithRule(w, r, v, org, tool, p, FromRule(r));
      var after := ToolPool(v, org, o, tool, p, reactive);
      assert FromRule(r) in after;
      TierIsTheMaximum(after, Keys(after));
    }
  }
}
