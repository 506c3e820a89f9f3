/** A strategy's stages, run in order: guards, then the formula, whose value later stages may read. */
module Pricing {
  import opened Wrappers
  import opened Formulas

  datatype Stage = Stage(id: string, guards: seq<Expr>, guardError: string, formula: Expr)

  datatype Line = Line(id: string, amount: int)

  /** What the stages so far have left: their values, the breakdown, and the last money stage. */
  datatype Quote = Quote(values: Fields, breakdown: seq<Line>, total: int)

  datatype Outcome = Figures(quote: Quote) | Refused(code: string) | Failed(code: string)

  /** The names a formula sees. */
  function Names(others: Fields, inputs: Fields, values: Fields): Fields {
    others["inputs" := Item(inputs)]["stage" := Item(values)]
  }

  datatype Verdict = Pass | Stop(code: string)

  function Guarded(m: Meaning, names: Fields, guards: seq<Expr>, code: string): Verdict {
    if guards == [] then Pass
    else
      match Eval(m, names, guards[0], map[])
      case Err(c) => Stop(c)
      case Ok(v) => if m.truthy(v) then Guarded(m, names, guards[1..], code) else Stop(code)
  }

  /** A number is a money stage and must be whole; any other value is only kept for later stages. */
  function Settle(q: Quote, id: string, v: Value): Outcome {
    match v
    case Whole(n) => Figures(Quote(q.values[id := Whole(n)], q.breakdown + [Line(id, n)], n))
    case Dec(r) =>
      if r == r.Floor as real then
        Figures(Quote(q.values[id := Whole(r.Floor)], q.breakdown + [Line(id, r.Floor)], r.Floor))
      else Failed("unledgered_figure")
    case _ => Figures(q.(values := q.values[id := v]))
  }

  function RunStage(m: Meaning, others: Fields, inputs: Fields, s: Stage, q: Quote): Outcome {
    var names := Names(others, inputs, q.values);
    match Guarded(m, names, s.guards, s.guardError)
    case Stop(code) => Refused(code)
    case Pass =>
      match Eval(m, names, s.formula, map[])
      case Err(code) => Failed(code)
      case Ok(v) => Settle(q, s.id, v)
  }

  const Blank: Quote := Quote(map[], [], 0)

  /** `compute` */
  function Compute(m: Meaning, others: Fields, inputs: Fields, stages: seq<Stage>): Outcome {
    if stages == [] then Figures(Blank)
    else
      match Compute(m, others, inputs, stages[..|stages| - 1])
      case Figures(q) => RunStage(m, others, inputs, stages[|stages| - 1], q)
      case stopped => stopped
  }
}
