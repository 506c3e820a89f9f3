/** Which input fields a strategy's formulas read, found statically, and the quotes to flag when one changes. */
module PriceInputs {
  import opened Wrappers
  import opened Formulas
  import opened Pricing

  // ---- The fields one node names --------------------------------------------------------------

  predicate IsInputs(e: Expr) { e.Name? && e.id == "inputs" }

  predicate IsText(e: Expr) { e.Const? && e.value.Str? }

  /** `inputs.get('f', ...)`, `inputs.f` except `inputs.get`, and `inputs['f']`. */
  function OwnRefs(e: Expr): set<string> {
    if e.Call? && e.func.Attribute? && IsInputs(e.func.base) && e.func.attr == "get" && e.args != [] && IsText(e.args[0]) then
      {e.args[0].value.s}
    else if e.Attribute? && IsInputs(e.base) && e.attr != "get" then {e.attr}
    else if e.Subscript? && IsInputs(e.base) && IsText(e.index) then {e.index.value.s}
    else {}
  }

  /** A node names a field in one of these three ways, and in no other. */
  lemma OwnRefsIff(e: Expr, f: string)
    ensures f in OwnRefs(e) <==>
      || (e == Attribute(Name("inputs"), f) && f != "get")
      || e == Subscript(Name("inputs"), Const(Str(f)))
      || (e.Call? && e.func == Attribute(Name("inputs"), "get") && e.args != [] && e.args[0] == Const(Str(f)))
  {}

  function Args(kw: seq<Keyword>): seq<Expr> {
    if kw == [] then [] else [kw[0].arg] + Args(kw[1..])
  }

  function Children(e: Expr): seq<Expr> {
    match e
    case Const(_) => []
    case Name(_) => []
    case Attribute(base, _) => [base]
    case Subscript(base, index) => [base, index]
    case Unary(_, operand) => [operand]
    case BoolOp(_, values) => values
    case Compare(_, left, right, rest) => [left, right] + rest
    case BinOp(_, left, right) => [left, right]
    case IfExp(test, body, orelse) => [test, body, orelse]
    case ListComp(elt, _, iter, ifs) => [elt, iter] + ifs
    case ListOf(elts) => elts
    case Call(func, args, keywords) => [func] + args + Args(keywords)
  }

  // ---- The whole tree -------------------------------------------------------------------------

  function Refs(e: Expr): set<string>
    decreases e, 1, 0
  {
    OwnRefs(e) +
    match e
    case Const(_) => {}
    case Name(_) => {}
    case Attribute(base, _) => Refs(base)
    case Subscript(base, index) => Refs(base) + Refs(index)
    case Unary(_, operand) => Refs(operand)
    case BoolOp(_, values) => RefsAll(values)
    case Compare(_, left, right, rest) => Refs(left) + Refs(right) + RefsAll(rest)
    case BinOp(_, left, right) => Refs(left) + Refs(right)
    case IfExp(test, body, orelse) => Refs(test) + Refs(body) + Refs(orelse)
    case ListComp(elt, _, iter, ifs) => Refs(elt) + Refs(iter) + RefsAll(ifs)
    case ListOf(elts) => RefsAll(elts)
    case Call(func, args, keywords) => Refs(func) + RefsAll(args) + RefsKw(keywords)
  }

  function RefsAll(es: seq<Expr>): set<string>
    decreases es, 0, |es|
  {
    if es == [] then {} else Refs(es[0]) + RefsAll(es[1..])
  }

  function RefsKw(kw: seq<Keyword>): set<string>
    decreases kw, 0, |kw|
  {
    if kw == [] then {} else Refs(kw[0].arg) + RefsKw(kw[1..])
  }

  function Nodes(e: Expr): nat
    decreases e, 1, 0
  {
    1 +
    match e
    case Const(_) => 0
    case Name(_) => 0
    case Attribute(base, _) => Nodes(base)
    case Subscript(base, index) => Nodes(base) + Nodes(index)
    case Unary(_, operand) => Nodes(operand)
    case BoolOp(_, values) => NodesAll(values)
    case Compare(_, left, right, rest) => Nodes(left) + Nodes(right) + NodesAll(rest)
    case BinOp(_, left, right) => Nodes(left) + Nodes(right)
    case IfExp(test, body, orelse) => Nodes(test) + Nodes(body) + Nodes(orelse)
    case ListComp(elt, _, iter, ifs) => Nodes(elt) + Nodes(iter) + NodesAll(ifs)
    case ListOf(elts) => NodesAll(elts)
    case Call(func, args, keywords) => Nodes(func) + NodesAll(args) + NodesKw(keywords)
  }

  function NodesAll(es: seq<Expr>): nat
    decreases es, 0, |es|
  {
    if es == [] then 0 else Nodes(es[0]) + NodesAll(es[1..])
  }

  function NodesKw(kw: seq<Keyword>): nat
    decreases kw, 0, |kw|
  {
    if kw == [] then 0 else Nodes(kw[0].arg) + NodesKw(kw[1..])
  }

  lemma {:induction false} AllAppend(a: seq<Expr>, b: seq<Expr>)
    ensures RefsAll(a + b) == RefsAll(a) + RefsAll(b) && NodesAll(a + b) == NodesAll(a) + NodesAll(b)
  {
    if a == [] {
      assert a + b == b;
    } else {
      assert (a + b)[1..] == a[1..] + b;
      AllAppend(a[1..], b);
    }
  }

  lemma {:induction false} AllArgs(kw: seq<Keyword>)
    ensures RefsAll(Args(kw)) == RefsKw(kw) && NodesAll(Args(kw)) == NodesKw(kw)
  {
    if kw != [] {
      AllArgs(kw[1..]);
      assert Args(kw)[1..] == Args(kw[1..]);
    }
  }

  lemma One(a: Expr)
    ensures RefsAll([a]) == Refs(a) && NodesAll([a]) == Nodes(a)
  {
    assert [a][1..] == [];
  }

  lemma Two(a: Expr, b: Expr)
    ensures RefsAll([a, b]) == Refs(a) + Refs(b) && NodesAll([a, b]) == Nodes(a) + Nodes(b)
  {
    One(b);
    assert [a, b][1..] == [b];
  }

  predicate SplitsUp(e: Expr) {
    Refs(e) == OwnRefs(e) + RefsAll(Children(e)) && Nodes(e) == 1 + NodesAll(Children(e))
  }

  lemma CallSplitsUp(func: Expr, args: seq<Expr>, keywords: seq<Keyword>)
    ensures SplitsUp(Call(func, args, keywords))
  {
    One(func);
    AllArgs(keywords);
    AllAppend([func], args);
    AllAppend([func] + args, Args(keywords));
  }

  lemma CompareSplitsUp(op: string, left: Expr, right: Expr, rest: seq<Expr>)
    ensures SplitsUp(Compare(op, left, right, rest))
  {
    Two(left, right);
    AllAppend([left, right], rest);
  }

  lemma CompSplitsUp(elt: Expr, target: string, iter: Expr, ifs: seq<Expr>)
    ensures SplitsUp(ListComp(elt, target, iter, ifs))
  {
    Two(elt, iter);
    AllAppend([elt, iter], ifs);
  }

  lemma IfSplitsUp(test: Expr, body: Expr, orelse: Expr)
    ensures SplitsUp(IfExp(test, body, orelse))
  {
    Two(body, orelse);
    assert [test, body, orelse][1..] == [body, orelse];
  }

  /** The recursive form is what a walk over the children collects. */
  lemma ByChildren(e: Expr)
    ensures SplitsUp(e)
  {
    match e
    case Attribute(base, _) => One(base);
    case Subscript(base, index) => Two(base, index);
    case Unary(_, operand) => One(operand);
    case Compare(op, left, right, rest) => CompareSplitsUp(op, left, right, rest);
    case BinOp(_, left, right) => Two(left, right);
    case IfExp(test, body, orelse) => IfSplitsUp(test, body, orelse);
    case ListComp(elt, target, iter, ifs) => CompSplitsUp(elt, target, iter, ifs);
    case Call(func, args, keywords) => CallSplitsUp(func, args, keywords);
    case _ =>
  }

  /** `_input_refs`: a breadth-first walk, collecting names. */
  method InputRefs(formula: Expr) returns (refs: set<string>)
    ensures refs == Refs(formula)
  {
    refs := {};
    var todo := [formula];
    One(formula);
    while todo != []
      invariant refs + RefsAll(todo) == Refs(formula)
      decreases NodesAll(todo)
    {
      var node := todo[0];
      ByChildren(node);
      AllAppend(todo[1..], Children(node));
      refs := refs + OwnRefs(node);
      todo := todo[1..] + Children(node);
    }
  }

  function Deps(stages: seq<Stage>): set<string> {
    if stages == [] then {} else Deps(stages[..|stages| - 1]) + Refs(stages[|stages| - 1].formula)
  }

  /** `price_input_deps`: the formulas of all stages; their guards are not looked at. */
  method PriceInputDeps(stages: seq<Stage>) returns (deps: set<string>)
    ensures deps == Deps(stages)
  {
    deps := {};
    for i := 0 to |stages|
      invariant deps == Deps(stages[..i])
    {
      assert stages[..i + 1][..i] == stages[..i];
      var refs := InputRefs(stages[i].formula);
      deps := deps + refs;
    }
    assert stages[..|stages|] == stages;
  }

  function PackDeps(strategies: seq<seq<Stage>>): set<string> {
    if strategies == [] then {} else PackDeps(strategies[..|strategies| - 1]) + Deps(strategies[|strategies| - 1])
  }

  // ---- Flagging -------------------------------------------------------------------------------

  datatype Offer = Offer(item: string, draft: bool, validUntil: Option<int>, stale: bool)

  datatype Event = PriceInputsChanged(item: string, keys: set<string>)

  predicate Open(o: Offer, item: string, now: int) {
    o.draft && !o.stale && (o.validUntil.None? || o.validUntil.value > now) && o.item == item
  }

  function Flagged(offers: seq<Offer>, item: string, now: int): seq<Offer> {
    seq(|offers|, i requires 0 <= i < |offers| =>
      if Open(offers[i], item, now) then offers[i].(stale := true) else offers[i])
  }

  /** The places of the item's open offers. */
  function OpenAt(offers: seq<Offer>, item: string, now: int): set<nat> {
    set i | 0 <= i < |offers| && Open(offers[i], item, now)
  }

  /** The changed keys of an update: `old.get(k) != new.get(k)`, in Python's sense. */
  function Got(fields: Fields, k: string): Value { if k in fields then fields[k] else Nil }

  function ChangedKeys(before: Fields, after: Fields): set<string> {
    set k | k in before.Keys + after.Keys && !PyEq(Got(before, k), Got(after, k))
  }

  class Quotes {
    var offers: seq<Offer>
    var events: seq<Event>

    constructor (offers: seq<Offer>)
      ensures this.offers == offers && events == []
    {
      this.offers, events := offers, [];
    }

    /** `flag_stale_quotes_for_item` */
    method FlagItem(item: string, now: int) returns (n: nat)
      modifies this`offers
      ensures offers == Flagged(old(offers), item, now)
      ensures n == |OpenAt(old(offers), item, now)| && OpenAt(offers, item, now) == {}
    {
      var was := offers;
      var hit := OpenAt(was, item, now);
      offers := Flagged(was, item, now);
      n := |hit|;
    }

    /** `flag_quotes_if_price_inputs_changed` */
    method FlagIfChanged(item: string, strategies: seq<seq<Stage>>, changed: set<string>, now: int) returns (n: nat)
      modifies this
      ensures var hit := changed * PackDeps(strategies);
              if hit == {} then n == 0 && offers == old(offers) && events == old(events)
              else
                && offers == Flagged(old(offers), item, now) && events == old(events) + [PriceInputsChanged(item, hit)]
                && n == |OpenAt(old(offers), item, now)| && OpenAt(offers, item, now) == {}
      ensures |offers| == |old(offers)|
      ensures forall i :: 0 <= i < |offers| ==>
                var o := old(offers)[i];
                var open := o.draft && !o.stale && o.item == item && (o.validUntil == None || o.validUntil.value > now);
                offers[i] == if open && changed * PackDeps(strategies) != {} then o.(stale := true) else o
    {
      if changed == {} { return 0; }
      var deps: set<string> := {};
      for i := 0 to |strategies|
        invariant deps == PackDeps(strategies[..i]) && offers == old(offers) && events == old(events)
      {
        assert strategies[..i + 1][..i] == strategies[..i];
        var d := PriceInputDeps(strategies[i]);
        deps := deps + d;
      }
      assert strategies[..|strategies|] == strategies;
      var hit := changed * deps;
      if hit == {} { return 0; }
      events := events + [PriceInputsChanged(item, hit)];
      n := FlagItem(item, now);
    }
  }
}
