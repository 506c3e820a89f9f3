/**
  Soundness of the static analysis: a formula that reads `inputs` only by literal field names
  cannot tell apart inputs that agree on the names found, so a change that flags nothing leaves
  every figure as it was.  Guards, nulls and numbers of another kind are the exact exceptions.
 */
module PriceSafety {
  import opened Wrappers
  import opened Formulas
  import opened Pricing
  import opened PriceInputs

  // ---- Reading inputs by name only ------------------------------------------------------------

  /** `inputs` itself, not a comprehension variable of that name. */
  predicate Bare(e: Expr, bound: set<string>) { IsInputs(e) && "inputs" !in bound }

  predicate Agree(a: Fields, b: Fields, refs: set<string>) {
    forall f :: f in refs ==> (f in a <==> f in b) && (f in a ==> a[f] == b[f])
  }

  /** The names the analysis finds in `inputs.attr`. */
  function Found(attr: string): set<string> { if attr == "get" then {} else {attr} }

  /** `inputs.attr` can tell apart inputs that agree on the names found in it. */
  ghost predicate ReadsOutside(m: Meaning, attr: string) {
    exists a: Fields, b: Fields :: Agree(a, b, Found(attr)) && GetAttr(m, Item(a), attr) != GetAttr(m, Item(b), attr)
  }

  /** Every use of `inputs` is `inputs.f`, `inputs['f']` or `inputs.get('f', ...)`, with `f` reading nothing else. */
  ghost predicate ByName(m: Meaning, e: Expr, bound: set<string>)
    decreases e, 1, 0
  {
    match e
    case Const(_) => true
    case Name(_) => !Bare(e, bound)
    case Attribute(base, attr) => if Bare(base, bound) then !ReadsOutside(m, attr) else ByName(m, base, bound)
    case Subscript(base, index) => if Bare(base, bound) then IsText(index) else ByName(m, base, bound) && ByName(m, index, bound)
    case Unary(_, operand) => ByName(m, operand, bound)
    case BoolOp(_, values) => ByNameAll(m, values, bound)
    case Compare(_, left, right, _) => ByName(m, left, bound) && ByName(m, right, bound)
    case BinOp(_, left, right) => ByName(m, left, bound) && ByName(m, right, bound)
    case IfExp(test, body, orelse) => ByName(m, test, bound) && ByName(m, body, bound) && ByName(m, orelse, bound)
    case ListComp(elt, target, iter, ifs) =>
      ByName(m, iter, bound) && ByName(m, elt, bound + {target}) && ByNameAll(m, ifs, bound + {target})
    case ListOf(elts) => ByNameAll(m, elts, bound)
    case Call(func, args, keywords) =>
      && ByNameAll(m, args, bound) && ByNameKw(m, keywords, bound)
      && (func.Attribute? ==>
            if Bare(func.base, bound) then func.attr == "get" && args != [] && IsText(args[0]) else ByName(m, func.base, bound))
  }

  ghost predicate ByNameAll(m: Meaning, es: seq<Expr>, bound: set<string>)
    decreases es, 0, |es|
  {
    es == [] || (ByName(m, es[0], bound) && ByNameAll(m, es[1..], bound))
  }

  ghost predicate ByNameKw(m: Meaning, kw: seq<Keyword>, bound: set<string>)
    decreases kw, 0, |kw|
  {
    kw == [] || (ByName(m, kw[0].arg, bound) && ByNameKw(m, kw[1..], bound))
  }

  // ---- Agreement ------------------------------------------------------------------------------

  /** The same names with the same values, but for `inputs`, where the named fields are the same. */
  predicate Alike(n: Fields, n': Fields, refs: set<string>) {
    && n.Keys == n'.Keys && (forall k :: k in n && k != "inputs" ==> n[k] == n'[k])
    && "inputs" in n && n["inputs"].Item? && n'["inputs"].Item?
    && Agree(n["inputs"].fields, n'["inputs"].fields, refs)
  }

  lemma ReadField(m: Meaning, n: Fields, n': Fields, refs: set<string>, base: Expr, attr: string, local: Fields)
    requires Bare(base, local.Keys) && !ReadsOutside(m, attr) && Alike(n, n', refs) && Found(attr) <= refs
    ensures Eval(m, n, Attribute(base, attr), local) == Eval(m, n', Attribute(base, attr), local)
  {
    var (a, b) := (n["inputs"].fields, n'["inputs"].fields);
    assert Agree(a, b, Found(attr));
    assert Eval(m, n, base, local) == Ok(Item(a)) && Eval(m, n', base, local) == Ok(Item(b));
  }

  lemma ReadKey(m: Meaning, n: Fields, n': Fields, refs: set<string>, base: Expr, index: Expr, local: Fields)
    requires Bare(base, local.Keys) && IsText(index) && Alike(n, n', refs) && index.value.s in refs
    ensures Eval(m, n, Subscript(base, index), local) == Eval(m, n', Subscript(base, index), local)
  {}

  lemma ReadGet(m: Meaning, n: Fields, n': Fields, refs: set<string>, e: Expr, local: Fields)
    requires e.Call? && e.func.Attribute? && Bare(e.func.base, local.Keys) && e.func.attr == "get"
    requires e.args != [] && IsText(e.args[0]) && Alike(n, n', refs) && e.args[0].value.s in refs
    requires EvalAll(m, n, e.args, local) == EvalAll(m, n', e.args, local)
    requires EvalKeywords(m, n, e.keywords, local) == EvalKeywords(m, n', e.keywords, local)
    ensures Eval(m, n, e, local) == Eval(m, n', e, local)
  {
    var args := EvalAll(m, n, e.args, local);
    if args.Ok? {
      assert Eval(m, n, e.args[0], local) == Ok(e.args[0].value);
      assert args.value[0] == e.args[0].value;
    }
  }

  /** Common ground of the mutual induction: `refs` covers what is read. */
  predicate Given(m: Meaning, n: Fields, n': Fields, refs: set<string>) { Sensible(m) && Alike(n, n', refs) }

  lemma {:induction false} CallAgrees(m: Meaning, n: Fields, n': Fields, refs: set<string>, e: Expr, local: Fields)
    requires e.Call? && Given(m, n, n', refs) && ByName(m, e, local.Keys) && Refs(e) <= refs
    ensures Eval(m, n, e, local) == Eval(m, n', e, local)
    decreases e, 1, 0
  {
    AllAgree(m, n, n', refs, e.args, local);
    KeywordsAgree(m, n, n', refs, e.keywords, local);
    if e.func.Attribute? {
      if Bare(e.func.base, local.Keys) {
        ReadGet(m, n, n', refs, e, local);
      } else {
        assert Refs(e.func) == OwnRefs(e.func) + Refs(e.func.base);
        EvalAgrees(m, n, n', refs, e.func.base, local);
      }
    }
  }

  lemma {:induction false} CompAgrees(m: Meaning, n: Fields, n': Fields, refs: set<string>, e: Expr, local: Fields)
    requires e.ListComp? && Given(m, n, n', refs) && ByName(m, e, local.Keys) && Refs(e) <= refs
    ensures Eval(m, n, e, local) == Eval(m, n', e, local)
    decreases e, 1, 0
  {
    EvalAgrees(m, n, n', refs, e.iter, local);
    var v := Eval(m, n, e.iter, local);
    if v.Ok? && m.iterate(v.value).Ok? {
      ItemsAgree(m, n, n', refs, e, m.iterate(v.value).value, local);
    }
  }

  lemma {:induction false} AccessAgrees(m: Meaning, n: Fields, n': Fields, refs: set<string>, e: Expr, local: Fields)
    requires (e.Attribute? || e.Subscript?) && Given(m, n, n', refs) && ByName(m, e, local.Keys) && Refs(e) <= refs
    ensures Eval(m, n, e, local) == Eval(m, n', e, local)
    decreases e, 1, 0
  {
    if Bare(e.base, local.Keys) {
      if e.Attribute? {
        ReadField(m, n, n', refs, e.base, e.attr, local);
      } else {
        ReadKey(m, n, n', refs, e.base, e.index, local);
      }
    } else {
      EvalAgrees(m, n, n', refs, e.base, local);
      if e.Subscript? { EvalAgrees(m, n, n', refs, e.index, local); }
    }
  }

  lemma {:induction false} OperandsAgree(m: Meaning, n: Fields, n': Fields, refs: set<string>, e: Expr, local: Fields)
    requires (e.Compare? || e.BinOp?) && Given(m, n, n', refs) && ByName(m, e, local.Keys) && Refs(e) <= refs
    ensures Eval(m, n, e, local) == Eval(m, n', e, local)
    decreases e, 1, 0
  {
    EvalAgrees(m, n, n', refs, e.left, local);
    EvalAgrees(m, n, n', refs, e.right, local);
  }

  lemma {:induction false} BranchesAgree(m: Meaning, n: Fields, n': Fields, refs: set<string>, e: Expr, local: Fields)
    requires e.IfExp? && Given(m, n, n', refs) && ByName(m, e, local.Keys) && Refs(e) <= refs
    ensures Eval(m, n, e, local) == Eval(m, n', e, local)
    decreases e, 1, 0
  {
    EvalAgrees(m, n, n', refs, e.test, local);
    EvalAgrees(m, n, n', refs, e.body, local);
    EvalAgrees(m, n, n', refs, e.orelse, local);
  }

  /** The value is the same under inputs that agree on the fields the analysis found. */
  lemma {:induction false} EvalAgrees(m: Meaning, n: Fields, n': Fields, refs: set<string>, e: Expr, local: Fields)
    requires Given(m, n, n', refs) && ByName(m, e, local.Keys) && Refs(e) <= refs
    ensures Eval(m, n, e, local) == Eval(m, n', e, local)
    decreases e, 2, 0
  {
    match e
    case Const(_) =>
    case Name(_) =>
    case Attribute(_, _) => AccessAgrees(m, n, n', refs, e, local);
    case Subscript(_, _) => AccessAgrees(m, n, n', refs, e, local);
    case Unary(_, operand) => EvalAgrees(m, n, n', refs, operand, local);
    case BoolOp(_, values) => AllAgree(m, n, n', refs, values, local);
    case Compare(_, _, _, _) => OperandsAgree(m, n, n', refs, e, local);
    case BinOp(_, _, _) => OperandsAgree(m, n, n', refs, e, local);
    case IfExp(_, _, _) => BranchesAgree(m, n, n', refs, e, local);
    case ListComp(_, _, _, _) => CompAgrees(m, n, n', refs, e, local);
    case ListOf(elts) => AllAgree(m, n, n', refs, elts, local);
    case Call(_, _, _) => CallAgrees(m, n, n', refs, e, local);
  }

  lemma {:induction false} AllAgree(m: Meaning, n: Fields, n': Fields, refs: set<string>, es: seq<Expr>, local: Fields)
    requires Given(m, n, n', refs) && ByNameAll(m, es, local.Keys) && RefsAll(es) <= refs
    ensures EvalAll(m, n, es, local) == EvalAll(m, n', es, local)
    decreases es, 0, |es|
  {
    if es != [] {
      EvalAgrees(m, n, n', refs, es[0], local);
      AllAgree(m, n, n', refs, es[1..], local);
    }
  }

  lemma {:induction false} KeywordsAgree(m: Meaning, n: Fields, n': Fields, refs: set<string>, kw: seq<Keyword>, local: Fields)
    requires Given(m, n, n', refs) && ByNameKw(m, kw, local.Keys) && RefsKw(kw) <= refs
    ensures EvalKeywords(m, n, kw, local) == EvalKeywords(m, n', kw, local)
    decreases kw, 0, |kw|
  {
    if kw != [] {
      EvalAgrees(m, n, n', refs, kw[0].arg, local);
      KeywordsAgree(m, n, n', refs, kw[1..], local);
    }
  }

  lemma {:induction false} PassesAgrees(m: Meaning, n: Fields, n': Fields, refs: set<string>, ifs: seq<Expr>, local: Fields)
    requires Given(m, n, n', refs) && ByNameAll(m, ifs, local.Keys) && RefsAll(ifs) <= refs
    ensures Passes(m, n, ifs, local) == Passes(m, n', ifs, local)
    decreases ifs, 0, |ifs|
  {
    if ifs != [] {
      EvalAgrees(m, n, n', refs, ifs[0], local);
      PassesAgrees(m, n, n', refs, ifs[1..], local);
    }
  }

  lemma {:induction false} ItemsAgree(
    m: Meaning, n: Fields, n': Fields, refs: set<string>, e: Expr, items: seq<Value>, local: Fields)
    requires e.ListComp? && Given(m, n, n', refs) && Refs(e) <= refs
    requires ByName(m, e.elt, local.Keys + {e.target}) && ByNameAll(m, e.ifs, local.Keys + {e.target})
    ensures EvalItems(m, n, e, items, local) == EvalItems(m, n', e, items, local)
    decreases e, 0, |items|
  {
    if items != [] {
      var inner := local[e.target := items[0]];
      assert inner.Keys == local.Keys + {e.target};
      PassesAgrees(m, n, n', refs, e.ifs, inner);
      EvalAgrees(m, n, n', refs, e.elt, inner);
      ItemsAgree(m, n, n', refs, e, items[1..], local);
    }
  }

  // ---- Whole strategies -----------------------------------------------------------------------

  ghost predicate FormulasByName(m: Meaning, stages: seq<Stage>) {
    forall i :: 0 <= i < |stages| ==> ByName(m, stages[i].formula, {})
  }

  ghost predicate GuardsByName(m: Meaning, stages: seq<Stage>) {
    forall i :: 0 <= i < |stages| ==> ByNameAll(m, stages[i].guards, {})
  }

  function GuardRefs(stages: seq<Stage>): set<string> {
    if stages == [] then {} else GuardRefs(stages[..|stages| - 1]) + RefsAll(stages[|stages| - 1].guards)
  }

  lemma FormulaAgrees(m: Meaning, others: Fields, a: Fields, b: Fields, e: Expr, values: Fields)
    requires Sensible(m) && ByName(m, e, {}) && Agree(a, b, Refs(e))
    ensures Eval(m, Names(others, a, values), e, map[]) == Eval(m, Names(others, b, values), e, map[])
  {
    var none: Fields := map[];
    assert none.Keys == {};
    EvalAgrees(m, Names(others, a, values), Names(others, b, values), Refs(e), e, none);
  }

  function Verdicts(m: Meaning, others: Fields, inputs: Fields, s: Stage, q: Quote): Verdict {
    Guarded(m, Names(others, inputs, q.values), s.guards, s.guardError)
  }

  /** With the formula agreeing, a stage ends alike exactly when its guards judge alike. */
  lemma StageAgrees(m: Meaning, others: Fields, a: Fields, b: Fields, s: Stage, q: Quote)
    requires Sensible(m) && ByName(m, s.formula, {}) && Agree(a, b, Refs(s.formula))
    ensures var (x, y) := (RunStage(m, others, a, s, q), RunStage(m, others, b, s, q));
            && (x == y || x.Refused? || y.Refused?)
            && (x == y <==> Verdicts(m, others, a, s, q) == Verdicts(m, others, b, s, q))
  {
    FormulaAgrees(m, others, a, b, s.formula, q.values);
  }

  /**
    By induction over the stages: the outcome is the same, unless a guard stopped one of the two.
    In particular two computed quotes have the same breakdown and the same total.
   */
  lemma {:induction false} SameFigures(m: Meaning, others: Fields, a: Fields, b: Fields, stages: seq<Stage>)
    requires Sensible(m) && FormulasByName(m, stages) && Agree(a, b, Deps(stages))
    ensures var (x, y) := (Compute(m, others, a, stages), Compute(m, others, b, stages));
            x == y || x.Refused? || y.Refused?
  {
    if stages != [] {
      var (init, s) := (stages[..|stages| - 1], stages[|stages| - 1]);
      assert forall i :: 0 <= i < |init| ==> init[i] == stages[i];
      SameFigures(m, others, a, b, init);
      var x := Compute(m, others, a, init);
      if x.Figures? && Compute(m, others, b, init) == x {
        StageAgrees(m, others, a, b, s, x.quote);
      }
    }
  }

  /** At every stage both computations reach, the guards judge alike. */
  predicate GuardsAlike(m: Meaning, others: Fields, a: Fields, b: Fields, stages: seq<Stage>) {
    stages == [] || (
      var (init, s) := (stages[..|stages| - 1], stages[|stages| - 1]);
      var (x, y) := (Compute(m, others, a, init), Compute(m, others, b, init));
      && GuardsAlike(m, others, a, b, init)
      && (x.Figures? && y.Figures? ==> Verdicts(m, others, a, s, x.quote) == Verdicts(m, others, b, s, y.quote)))
  }

  /** How many stages are completed. */
  function Completed(m: Meaning, others: Fields, inputs: Fields, stages: seq<Stage>): (n: nat)
    ensures n <= |stages|
    ensures n == |stages| <==> Compute(m, others, inputs, stages).Figures?
  {
    if stages == [] then 0
    else if Compute(m, others, inputs, stages).Figures? then |stages|
    else Completed(m, others, inputs, stages[..|stages| - 1])
  }

  /**
    With the formulas agreeing, both computations get equally far and end alike exactly when the
    guards judge alike at every stage they both reach.
   */
  lemma {:induction false} OutcomesEqualIff(m: Meaning, others: Fields, a: Fields, b: Fields, stages: seq<Stage>)
    requires Sensible(m) && FormulasByName(m, stages) && Agree(a, b, Deps(stages))
    ensures GuardsAlike(m, others, a, b, stages) <==>
              && Compute(m, others, a, stages) == Compute(m, others, b, stages)
              && Completed(m, others, a, stages) == Completed(m, others, b, stages)
  {
    if stages != [] {
      var (init, s) := (stages[..|stages| - 1], stages[|stages| - 1]);
      assert forall i :: 0 <= i < |init| ==> init[i] == stages[i];
      OutcomesEqualIff(m, others, a, b, init);
      var (x, y) := (Compute(m, others, a, init), Compute(m, others, b, init));
      if x.Figures? && y.Figures? {
        SameFigures(m, others, a, b, init);
        StageAgrees(m, others, a, b, s, x.quote);
      }
    }
  }

  /** A quote once computed is computed again, with the same figures, exactly when no guard now stops it. */
  lemma RecomputedIff(m: Meaning, others: Fields, a: Fields, b: Fields, stages: seq<Stage>)
    requires Sensible(m) && FormulasByName(m, stages) && Agree(a, b, Deps(stages))
    requires Compute(m, others, a, stages).Figures?
    ensures Compute(m, others, b, stages) == Compute(m, others, a, stages) <==> GuardsAlike(m, others, a, b, stages)
    ensures Compute(m, others, b, stages) != Compute(m, others, a, stages) <==> Compute(m, others, b, stages).Refused?
  {
    OutcomesEqualIff(m, others, a, b, stages);
    SameFigures(m, others, a, b, stages);
  }

  lemma {:induction false} GuardsAgree(
    m: Meaning, others: Fields, a: Fields, b: Fields, guards: seq<Expr>, code: string, values: Fields)
    requires Sensible(m) && ByNameAll(m, guards, {}) && Agree(a, b, RefsAll(guards))
    ensures Guarded(m, Names(others, a, values), guards, code) == Guarded(m, Names(others, b, values), guards, code)
  {
    if guards != [] {
      FormulaAgrees(m, others, a, b, guards[0], values);
      GuardsAgree(m, others, a, b, guards[1..], code, values);
    }
  }

  /** When the inputs agree on what the guards read as well, the outcome is the same in every case. */
  lemma {:induction false} SameOutcome(m: Meaning, others: Fields, a: Fields, b: Fields, stages: seq<Stage>)
    requires Sensible(m) && FormulasByName(m, stages) && GuardsByName(m, stages)
    requires Agree(a, b, Deps(stages) + GuardRefs(stages))
    ensures Compute(m, others, a, stages) == Compute(m, others, b, stages)
  {
    if stages != [] {
      var (init, s) := (stages[..|stages| - 1], stages[|stages| - 1]);
      assert forall i :: 0 <= i < |init| ==> init[i] == stages[i];
      SameOutcome(m, others, a, b, init);
      var x := Compute(m, others, a, init);
      if x.Figures? {
        GuardsAgree(m, others, a, b, s.guards, s.guardError, x.quote.values);
        StageAgrees(m, others, a, b, s, x.quote);
      }
    }
  }

  // ---- What the caller passes as changed keys -------------------------------------------------

  /** A null on one side, nothing on the other: the update does not count this as a change. */
  predicate NullForNothing(a: Fields, b: Fields, f: string) {
    (f in a && a[f] == Nil && f !in b) || (f in b && b[f] == Nil && f !in a)
  }

  /** A number replaced by an equal one of another kind, as 1 by `true`: no change to the update either. */
  predicate Retyped(a: Fields, b: Fields, f: string) { f in a && f in b && PyEq(a[f], b[f]) && !SameKind(a[f], b[f]) }

  /** Unchanged keys agree exactly where no null stands against a missing field and no number is retyped. */
  lemma UnchangedAgreeIff(a: Fields, b: Fields, refs: set<string>)
    requires ChangedKeys(a, b) * refs == {}
    ensures Agree(a, b, refs) <==> forall f :: f in refs ==> !NullForNothing(a, b, f) && !Retyped(a, b, f)
  {
    forall f | f in refs
      ensures (f in a && f in b ==> (a[f] == b[f] <==> !Retyped(a, b, f)))
      ensures (f in a <==> f in b) <==> !NullForNothing(a, b, f)
    {
      assert f !in ChangedKeys(a, b) * refs;
      if f in a && f in b { PyEqSameIff(a[f], b[f]); }
    }
  }

  lemma {:induction false} DepsInPack(strategies: seq<seq<Stage>>, i: nat)
    requires i < |strategies|
    ensures Deps(strategies[i]) <= PackDeps(strategies)
  {
    var n := |strategies| - 1;
    if i < n { DepsInPack(strategies[..n], i); }
  }

  /**
    A change of attributes that hits no dependency, and so flags nothing, cannot change the figures
    of any strategy of the pack that is computed both before and after; and a quote computed before
    is computed after exactly when the guards judge alike.
   */
  lemma UnflaggedKeepsFigures(
    m: Meaning, others: Fields, before: Fields, after: Fields, strategies: seq<seq<Stage>>, i: nat)
    requires Sensible(m) && i < |strategies| && FormulasByName(m, strategies[i])
    requires ChangedKeys(before, after) * PackDeps(strategies) == {}
    requires forall f :: f in Deps(strategies[i]) ==> !NullForNothing(before, after, f) && !Retyped(before, after, f)
    ensures var (x, y) := (Compute(m, others, before, strategies[i]), Compute(m, others, after, strategies[i]));
            && (x == y || x.Refused? || y.Refused?)
            && (x.Figures? ==> (x == y <==> GuardsAlike(m, others, before, after, strategies[i])))
  {
    DepsInPack(strategies, i);
    assert ChangedKeys(before, after) * Deps(strategies[i]) == {};
    UnchangedAgreeIff(before, after, Deps(strategies[i]));
    SameFigures(m, others, before, after, strategies[i]);
    if Compute(m, others, before, strategies[i]).Figures? {
      RecomputedIff(m, others, before, after, strategies[i]);
    }
  }

  // ---- Where it fails -------------------------------------------------------------------------

  /** A guard reads a field no formula reads: a change of it flags nothing and stops the quote. */
  lemma GuardIsNotADependency(m: Meaning)
    requires Sensible(m) && "sold" !in m.builtin && m.truthy(Truth(true)) && !m.truthy(Truth(false))
    ensures var stages := [Stage("total", [Attribute(Name("inputs"), "sold")], "sold_out", Const(Whole(7)))];
            var (a, b) := (map["sold" := Truth(true)], map["sold" := Truth(false)]);
            && ChangedKeys(a, b) * PackDeps([stages]) == {}
            && Compute(m, map[], a, stages) == Figures(Quote(map["total" := Whole(7)], [Line("total", 7)], 7))
            && Compute(m, map[], b, stages) == Refused("sold_out")
  {
    var (a, b) := (map["sold" := Truth(true)], map["sold" := Truth(false)]);
    var s := Stage("total", [Attribute(Name("inputs"), "sold")], "sold_out", Const(Whole(7)));
    assert [s][..0] == [] && PackDeps([[s]]) == Deps([s]) by { assert [[s]][..0] == []; }
    assert Deps([s]) == Refs(s.formula) == {};
    assert s.guards[1..] == [];
    var n := Names(map[], a, map[]);
    assert Eval(m, n, s.guards[0], map[]) == Ok(Truth(true));
    assert Guarded(m, n, s.guards, s.guardError) == Pass;
    var n' := Names(map[], b, map[]);
    assert Eval(m, n', s.guards[0], map[]) == Ok(Truth(false));
    assert Guarded(m, n', s.guards, s.guardError) == Stop("sold_out");
  }

  /** `inputs._data` reaches every field and names none of them. */
  lemma RealAttributeEscapes(m: Meaning)
    requires Sensible(m)
    ensures var e := Attribute(Name("inputs"), "_data");
            var (a, b) := (map["weight" := Whole(1)], map["weight" := Whole(2)]);
            && Refs(e) == {"_data"} && Agree(a, b, Refs(e))
            && Eval(m, Names(map[], a, map[]), e, map[]) != Eval(m, Names(map[], b, map[]), e, map[])
  {
    var (a, b) := (map["weight" := Whole(1)], map["weight" := Whole(2)]);
    assert a["weight"] != b["weight"];
    var e := Attribute(Name("inputs"), "_data");
    assert Eval(m, Names(map[], a, map[]), e, map[]) == Ok(Dict(a));
    assert Eval(m, Names(map[], b, map[]), e, map[]) == Ok(Dict(b));
  }

  /** Two items that agree on what is found in `inputs.attr`, and a real attribute that tells them apart. */
  ghost predicate Distinguishes(m: Meaning, attr: string) {
    exists a: Fields, b: Fields :: Agree(a, b, Found(attr)) && m.getattr(Item(a), attr) != m.getattr(Item(b), attr)
  }

  /** Exactly `_data` and the real attributes that distinguish items read outside the names found. */
  lemma ReadsOutsideIff(m: Meaning, attr: string)
    requires Sensible(m)
    ensures ReadsOutside(m, attr) <==> attr == "_data" || (attr in m.builtin && Distinguishes(m, attr))
  {
    if attr == "_data" {
      var (a, b) := (map["weight" := Whole(1)], map["weight" := Whole(2)]);
      assert a["weight"] != b["weight"];
      assert Agree(a, b, Found(attr)) && GetAttr(m, Item(a), attr) != GetAttr(m, Item(b), attr);
    } else if attr in m.builtin {
      assert forall f: Fields :: GetAttr(m, Item(f), attr) == m.getattr(Item(f), attr);
    }
  }

  /** `inputs.attr` counts as reading by name exactly when it evaluates alike on all inputs that agree on its names. */
  lemma ByNameIff(m: Meaning, attr: string)
    ensures var e := Attribute(Name("inputs"), attr);
            ByName(m, e, {}) <==> forall a: Fields, b: Fields :: Agree(a, b, Refs(e)) ==>
              Eval(m, Names(map[], a, map[]), e, map[]) == Eval(m, Names(map[], b, map[]), e, map[])
  {
    var e := Attribute(Name("inputs"), attr);
    assert Refs(e) == Found(attr);
    forall a: Fields
      ensures Eval(m, Names(map[], a, map[]), e, map[]) == GetAttr(m, Item(a), attr)
    {
      assert Eval(m, Names(map[], a, map[]), Name("inputs"), map[]) == Ok(Item(a));
    }
  }

  lemma ConstPair(m: Meaning, n: Fields, x: Value, y: Value, local: Fields)
    ensures EvalAll(m, n, [Const(x), Const(y)], local) == Ok([x, y])
  {
    var es := [Const(x), Const(y)];
    assert es[1..] == [Const(y)] && es[1..][1..] == [];
    assert EvalAll(m, n, es[1..][1..], local) == Ok([]);
    assert EvalAll(m, n, es[1..], local) == Ok([y] + []);
    assert [y] + [] == [y] && [x] + [y] == [x, y];
  }

  function GetOr(f: string, d: Value): Expr { Call(Attribute(Name("inputs"), "get"), [Const(Str(f)), Const(d)], []) }

  /** `inputs.get(f, d)` */
  lemma GetValue(m: Meaning, fields: Fields, f: string, d: Value)
    ensures Eval(m, Names(map[], fields, map[]), GetOr(f, d), map[]) == (if f in fields then Dot(fields[f]) else Ok(d))
    ensures ByName(m, GetOr(f, d), {}) && f in Refs(GetOr(f, d))
  {
    var n := Names(map[], fields, map[]);
    ConstPair(m, n, Str(f), d, map[]);
    assert Eval(m, n, Name("inputs"), map[]) == Ok(Item(fields));
    var es := [Const(Str(f)), Const(d)];
    assert es[1..] == [Const(d)] && es[1..][1..] == [];
    assert ByNameAll(m, es[1..][1..], {});
    assert ByNameAll(m, es[1..], {});
  }

  /** A null that appears is not a change, and `get` then forgets its default. */
  lemma NullIsNotAChange(m: Meaning, f: string, d: Value)
    requires d != Nil
    ensures var a: Fields, b: Fields := map[], map[f := Nil];
            && f in Refs(GetOr(f, d)) && ByName(m, GetOr(f, d), {}) && ChangedKeys(a, b) == {}
            && Eval(m, Names(map[], a, map[]), GetOr(f, d), map[]) == Ok(d)
            && Eval(m, Names(map[], b, map[]), GetOr(f, d), map[]) == Ok(Nil)
  {
    GetValue(m, map[], f, d);
    GetValue(m, map[f := Nil], f, d);
  }

  /** The value 1 replaced by `true` is not a change, flags nothing, and takes the line off the quote. */
  lemma RetypedIsNotAChange(m: Meaning, f: string)
    requires Sensible(m) && f !in m.builtin && f != "get"
    ensures var stages := [Stage("total", [], "", Attribute(Name("inputs"), f))];
            var (a, b) := (map[f := Whole(1)], map[f := Truth(true)]);
            && f in PackDeps([stages]) && ChangedKeys(a, b) == {}
            && Compute(m, map[], a, stages) == Figures(Quote(map["total" := Whole(1)], [Line("total", 1)], 1))
            && Compute(m, map[], b, stages) == Figures(Quote(map["total" := Truth(true)], [], 0))
  {
    var (a, b) := (map[f := Whole(1)], map[f := Truth(true)]);
    var s := Stage("total", [], "", Attribute(Name("inputs"), f));
    assert [s][..0] == [] && PackDeps([[s]]) == Deps([s]) by { assert [[s]][..0] == []; }
    assert Deps([s]) == Refs(s.formula) == {f};
    assert Eval(m, Names(map[], a, map[]), s.formula, map[]) == Ok(Whole(1));
    assert Eval(m, Names(map[], b, map[]), s.formula, map[]) == Ok(Truth(true));
  }
}
