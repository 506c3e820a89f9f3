/** How formulas evaluate and what a computed quote looks like, law by law. */
module FormulaLaws {
  import opened Wrappers
  import opened Formulas
  import opened Pricing

  // ---- Formulas -------------------------------------------------------------------------------

  /** Only the branch that the test selects is evaluated. */
  lemma BranchTaken(m: Meaning, n: Fields, test: Expr, yes: Expr, no: Expr, local: Fields)
    requires Eval(m, n, test, local).Ok?
    ensures Eval(m, n, IfExp(test, yes, no), local)
         == Eval(m, n, if m.truthy(Eval(m, n, test, local).value) then yes else no, local)
  {}

  lemma Pair(m: Meaning, n: Fields, a: Expr, b: Expr, local: Fields)
    ensures var (x, y) := (Eval(m, n, a, local), Eval(m, n, b, local));
            EvalAll(m, n, [a, b], local) == if x.Err? then Err(x.code) else if y.Err? then Err(y.code) else Ok([x.value, y.value])
  {
    assert [a, b][1..] == [b] && [b][1..] == [];
    assert EvalAll(m, n, [], local) == Ok([]);
    var y := Eval(m, n, b, local);
    if y.Ok? {
      assert EvalAll(m, n, [b], local) == Ok([y.value] + []);
      assert forall x: Value :: [x] + ([y.value] + []) == [x, y.value];
    }
  }

  lemma TwoTruths(m: Meaning, x: Value, y: Value)
    ensures (forall v :: v in [x, y] ==> m.truthy(v)) <==> m.truthy(x) && m.truthy(y)
    ensures (exists v :: v in [x, y] && m.truthy(v)) <==> m.truthy(x) || m.truthy(y)
  {
    assert x in [x, y] && y in [x, y];
  }

  /** `and` and `or` look at both sides: an error on the right shows even where the left decides, and the answer is a truth value. */
  lemma BothSides(m: Meaning, n: Fields, a: Expr, b: Expr, local: Fields)
    requires Eval(m, n, a, local).Ok?
    ensures var (x, y) := (Eval(m, n, a, local).value, Eval(m, n, b, local));
            && Eval(m, n, BoolOp(true, [a, b]), local)
                 == (if y.Err? then Err(y.code) else Ok(Truth(m.truthy(x) && m.truthy(y.value))))
            && Eval(m, n, BoolOp(false, [a, b]), local)
                 == (if y.Err? then Err(y.code) else Ok(Truth(m.truthy(x) || m.truthy(y.value))))
  {
    Pair(m, n, a, b, local);
    if Eval(m, n, b, local).Ok? { TwoTruths(m, Eval(m, n, a, local).value, Eval(m, n, b, local).value); }
  }

  /** A chained comparison compares its first two operands and forgets the others. */
  lemma ChainIsCut(m: Meaning, n: Fields, op: string, a: Expr, b: Expr, rest: seq<Expr>, local: Fields)
    ensures Eval(m, n, Compare(op, a, b, rest), local) == Eval(m, n, Compare(op, a, b, []), local)
  {}

  /** Of two operands the left one is evaluated, and fails, first. */
  lemma LeftFirst(m: Meaning, n: Fields, op: string, a: Expr, b: Expr, local: Fields)
    ensures var (x, y) := (Eval(m, n, a, local), Eval(m, n, b, local));
            Eval(m, n, BinOp(op, a, b), local) == if x.Err? then x else if y.Err? then y else m.binary(op, x.value, y.value)
  {}

  /** A name of the comprehension hides one of the formula; a name of neither is an error. */
  lemma NamesResolve(m: Meaning, n: Fields, id: string, local: Fields)
    ensures Eval(m, n, Name(id), local)
         == if id in local then Ok(local[id]) else if id in n then Ok(n[id]) else Err("config_schema_violation")
  {}

  /** A field that is there is read, whatever it is spelled with; one that is not is an error, except to `get`. */
  lemma FieldsRead(m: Meaning, f: string, fields: Fields, d: Value)
    requires f !in m.builtin && f != "_data"
    ensures var found := if f in fields then Dot(fields[f]) else Err("config_schema_violation");
            GetAttr(m, Item(fields), f) == found && GetItem(m, Item(fields), Str(f)) == found
    ensures Invoke(m, Item(fields), "get", [Str(f)], map[]) == (if f in fields then Dot(fields[f]) else Ok(Nil))
    ensures Invoke(m, Item(fields), "get", [Str(f), d], map[]) == (if f in fields then Dot(fields[f]) else Ok(d))
    ensures Invoke(m, Item(fields), "get", [Str(f)], map["default" := d]) == (if f in fields then Dot(fields[f]) else Ok(d))
  {}

  /** A float never gets into a formula, by itself or in a list; other plain values come as they are, dictionaries as items. */
  lemma {:induction false} FloatsAreRefused(items: seq<Value>, i: nat)
    requires i < |items| && items[i].Flt?
    ensures Dot(items[i]).Err? && DotAll(items).Err? && Dot(List(items)).Err?
  {
    if i > 0 { FloatsAreRefused(items[1..], i - 1); }
  }

  lemma OthersPass(v: Value)
    requires !v.Flt? && !v.List?
    ensures Dot(v) == Ok(if v.Dict? then Item(v.fields) else v)
  {}

  /** A comprehension over more items is the one over the first and then the one over the rest; the first error wins. */
  lemma {:induction false} ItemsAppend(m: Meaning, n: Fields, e: Expr, a: seq<Value>, b: seq<Value>, local: Fields)
    requires e.ListComp?
    ensures var (x, y) := (EvalItems(m, n, e, a, local), EvalItems(m, n, e, b, local));
            EvalItems(m, n, e, a + b, local) == if x.Err? then x else if y.Err? then y else Ok(x.value + y.value)
    decreases |a|
  {
    if a == [] {
      assert a + b == b;
      var y := EvalItems(m, n, e, b, local);
      if y.Ok? { assert [] + y.value == y.value; }
    } else {
      assert (a + b)[0] == a[0] && (a + b)[1..] == a[1..] + b;
      ItemsAppend(m, n, e, a[1..], b, local);
      assert forall v: Value, r: seq<Value>, t: seq<Value> :: ([v] + r) + t == [v] + (r + t);
    }
  }

  /** One item gives nothing, or the element with the item under its name. */
  lemma OneItem(m: Meaning, n: Fields, e: Expr, x: Value, local: Fields)
    requires e.ListComp?
    ensures var inner := local[e.target := x];
            EvalItems(m, n, e, [x], local) ==
              match Passes(m, n, e.ifs, inner)
              case Err(c) => Err(c)
              case Ok(false) => Ok([])
              case Ok(true) => (match Eval(m, n, e.elt, inner) case Err(c) => Err(c) case Ok(v) => Ok([v]))
  {
    assert [x][1..] == [];
    assert EvalItems(m, n, e, [], local) == Ok([]);
    assert forall v: Value :: [v] + [] == [v];
  }

  // ---- Quotes ---------------------------------------------------------------------------------

  /** A number is a money stage and must be whole; anything else is no line of the quote. */
  lemma LinesAreWhole(q: Quote, id: string, v: Value)
    ensures var o := Settle(q, id, v);
            && (o.Failed? <==> v.Dec? && v.r != v.r.Floor as real)
            && (o.Figures? ==>
                  o.quote.breakdown == q.breakdown +
                    if v.Whole? then [Line(id, v.n)] else if v.Dec? then [Line(id, v.r.Floor)] else [])
  {}

  predicate Totalled(q: Quote) { q.total == if q.breakdown == [] then 0 else q.breakdown[|q.breakdown| - 1].amount }

  lemma SettleTotals(q: Quote, id: string, v: Value)
    requires Totalled(q) && Settle(q, id, v).Figures?
    ensures var q' := Settle(q, id, v).quote;
            Totalled(q') && (q'.breakdown == q.breakdown || exists n :: q'.breakdown == q.breakdown + [Line(id, n)])
  {}

  lemma StageSettles(m: Meaning, others: Fields, inputs: Fields, s: Stage, q: Quote)
    requires RunStage(m, others, inputs, s, q).Figures?
    ensures exists v :: RunStage(m, others, inputs, s, q) == Settle(q, s.id, v)
  {}

  /** The total is the last line's amount, whatever came before it, and every line is some stage's. */
  lemma {:induction false} TotalIsTheLastLine(m: Meaning, others: Fields, inputs: Fields, stages: seq<Stage>)
    requires Compute(m, others, inputs, stages).Figures?
    ensures var q := Compute(m, others, inputs, stages).quote;
            && q.total == (if q.breakdown == [] then 0 else q.breakdown[|q.breakdown| - 1].amount)
            && |q.breakdown| <= |stages|
            && forall l :: l in q.breakdown ==> exists i :: 0 <= i < |stages| && stages[i].id == l.id
  {
    if stages != [] {
      var (init, s) := (stages[..|stages| - 1], stages[|stages| - 1]);
      TotalIsTheLastLine(m, others, inputs, init);
      var q := Compute(m, others, inputs, init).quote;
      StageSettles(m, others, inputs, s, q);
      var v :| RunStage(m, others, inputs, s, q) == Settle(q, s.id, v);
      SettleTotals(q, s.id, v);
      assert forall i :: 0 <= i < |init| ==> stages[i] == init[i];
    }
  }

  /** A stage's guards come before its formula, and the first that fails refuses it: by its own error, or by the stage's. */
  lemma GuardsFirst(m: Meaning, others: Fields, inputs: Fields, s: Stage, q: Quote)
    requires s.guards != []
    ensures var first := Eval(m, Names(others, inputs, q.values), s.guards[0], map[]);
            && (first.Err? ==> RunStage(m, others, inputs, s, q) == Refused(first.code))
            && (first.Ok? && !m.truthy(first.value) ==> RunStage(m, others, inputs, s, q) == Refused(s.guardError))
            && (first.Ok? && m.truthy(first.value) ==>
                  RunStage(m, others, inputs, s, q) == RunStage(m, others, inputs, s.(guards := s.guards[1..]), q))
  {}

  /** Without guards the formula decides: its value is settled, its error ends the computation. */
  lemma FormulaDecides(m: Meaning, others: Fields, inputs: Fields, s: Stage, q: Quote)
    requires s.guards == []
    ensures var v := Eval(m, others["inputs" := Item(inputs)]["stage" := Item(q.values)], s.formula, map[]);
            RunStage(m, others, inputs, s, q) == if v.Err? then Outcome.Failed(v.code) else Settle(q, s.id, v.value)
  {}
}
