/**
  Pricing formulas: their syntax tree, the tree-walking evaluator and the staged computation.
  Operators, functions and non-dictionary values are given by an arbitrary `Meaning`.
 */
module Formulas {
  import opened Wrappers

  datatype Res<T> = Ok(value: T) | Err(code: string)

  // ---- Values and syntax ----------------------------------------------------------------------

  type Fields = map<string, Value>

  /**
    `Dec` is a `Decimal`, `Flt` a float; `Item` is a `DotItem` over a plain dictionary; `Other` is
    anything functions return or take.
   */
  datatype Value =
    | Nil
    | Truth(b: bool)
    | Whole(n: int)
    | Dec(r: real)
    | Flt(r: real)
    | Str(s: string)
    | List(items: seq<Value>)
    | Dict(fields: Fields)
    | Item(fields: Fields)
    | Other(tag: string, parts: seq<Value>)

  datatype Expr =
    | Const(value: Value)
    | Name(id: string)
    | Attribute(base: Expr, attr: string)
    | Subscript(base: Expr, index: Expr)
    | Unary(op: string, operand: Expr)
    | BoolOp(isAnd: bool, values: seq<Expr>)
    | Compare(op: string, left: Expr, right: Expr, rest: seq<Expr>)
    | BinOp(op: string, left: Expr, right: Expr)
    | IfExp(test: Expr, body: Expr, orelse: Expr)
    | ListComp(elt: Expr, target: string, iter: Expr, ifs: seq<Expr>)
    | ListOf(elts: seq<Expr>)
    | Call(func: Expr, args: seq<Expr>, keywords: seq<Keyword>)

  datatype Keyword = Keyword(name: string, arg: Expr)

  // ---- Meaning --------------------------------------------------------------------------------

  /** `builtin` names the attributes a `DotItem` has of its own, which hide fields of the same name. */
  datatype Meaning = Meaning(
    unary: (string, Value) -> Res<Value>,
    binary: (string, Value, Value) -> Res<Value>,
    compare: (string, Value, Value) -> Res<Value>,
    truthy: Value -> bool,
    iterate: Value -> Res<seq<Value>>,
    getattr: (Value, string) -> Res<Value>,
    getitem: (Value, Value) -> Res<Value>,
    invoke: (Value, string, seq<Value>, map<string, Value>) -> Res<Value>,
    functions: map<string, (seq<Value>, map<string, Value>) -> Res<Value>>,
    builtin: set<string>)

  const OWN: set<string> := {"get", "_data"}

  predicate Sensible(m: Meaning) { OWN <= m.builtin }

  /** `dot`: dictionaries become items, in lists too; a float is refused. */
  function Dot(v: Value): Res<Value>
    decreases v, 1, 0
  {
    match v
    case Dict(fields) => Ok(Item(fields))
    case List(items) => (match DotAll(items) case Ok(vs) => Ok(List(vs)) case Err(c) => Err(c))
    case Flt(_) => Err("config_schema_violation")
    case _ => Ok(v)
  }

  function DotAll(items: seq<Value>): Res<seq<Value>>
    decreases items, 0, |items|
  {
    if items == [] then Ok([])
    else
      match Dot(items[0])
      case Err(c) => Err(c)
      case Ok(v) =>
        match DotAll(items[1..])
        case Err(c) => Err(c)
        case Ok(vs) => Ok([v] + vs)
  }

  function Field(fields: Fields, name: string): Res<Value> {
    if name in fields then Dot(fields[name]) else Err("config_schema_violation")
  }

  function GetAttr(m: Meaning, v: Value, attr: string): Res<Value> {
    if v.Item? && attr == "_data" then Ok(Dict(v.fields))
    else if v.Item? && attr !in m.builtin then Field(v.fields, attr)
    else m.getattr(v, attr)
  }

  /** A string key goes through `__getattr__` directly, past the real attributes. */
  function GetItem(m: Meaning, v: Value, key: Value): Res<Value> {
    if v.Item? && key.Str? then Field(v.fields, key.s) else m.getitem(v, key)
  }

  /** `get(key, default=None)` on an item; anything else is left to the meaning. */
  function Invoke(m: Meaning, v: Value, name: string, args: seq<Value>, kw: map<string, Value>): Res<Value> {
    if v.Item? && name == "get" && |args| >= 1 && args[0].Str? then
      if !(if |args| == 1 then kw.Keys <= {"default"} else |args| == 2 && kw == map[]) then Err("TypeError")
      else if args[0].s in v.fields then Dot(v.fields[args[0].s])
      else if |args| == 2 then Ok(args[1])
      else if "default" in kw then Ok(kw["default"])
      else Ok(Nil)
    else m.invoke(v, name, args, kw)
  }

  // ---- Python's equality ----------------------------------------------------------------------

  predicate Numeric(v: Value) { v.Truth? || v.Whole? || v.Dec? || v.Flt? }

  function Number(v: Value): real
    requires Numeric(v)
  {
    match v
    case Truth(b) => if b then 1.0 else 0.0
    case Whole(n) => n as real
    case Dec(r) => r
    case Flt(r) => r
  }

  /** `==`: numbers of any kind by their value, `True` being 1; lists and dictionaries part by part. */
  predicate PyEq(a: Value, b: Value)
    decreases a
  {
    if Numeric(a) && Numeric(b) then Number(a) == Number(b)
    else if a.List? && b.List? then
      |a.items| == |b.items| && forall i :: 0 <= i < |a.items| ==> PyEq(a.items[i], b.items[i])
    else if a.Dict? && b.Dict? then
      a.fields.Keys == b.fields.Keys && forall k :: k in a.fields ==> PyEq(a.fields[k], b.fields[k])
    else a == b
  }

  /** Numbers of one kind wherever both hold a number in the same place. */
  predicate SameKind(a: Value, b: Value)
    decreases a
  {
    if Numeric(a) && Numeric(b) then
      (a.Truth? <==> b.Truth?) && (a.Whole? <==> b.Whole?) && (a.Dec? <==> b.Dec?)
    else if a.List? && b.List? && |a.items| == |b.items| then
      forall i :: 0 <= i < |a.items| ==> SameKind(a.items[i], b.items[i])
    else if a.Dict? && b.Dict? && a.fields.Keys == b.fields.Keys then
      forall k :: k in a.fields ==> SameKind(a.fields[k], b.fields[k])
    else true
  }

  /** Values that Python calls equal are the same exactly when their numbers are of the same kinds. */
  lemma {:induction false} PyEqSameIff(a: Value, b: Value)
    requires PyEq(a, b)
    ensures a == b <==> SameKind(a, b)
    decreases a
  {
    if a.List? && b.List? {
      forall i | 0 <= i < |a.items| ensures a.items[i] == b.items[i] <==> SameKind(a.items[i], b.items[i]) {
        PyEqSameIff(a.items[i], b.items[i]);
      }
    } else if a.Dict? && b.Dict? {
      forall k | k in a.fields ensures a.fields[k] == b.fields[k] <==> SameKind(a.fields[k], b.fields[k]) {
        PyEqSameIff(a.fields[k], b.fields[k]);
      }
    }
  }

  // ---- Evaluation -----------------------------------------------------------------------------

  function Both(f: (string, Value, Value) -> Res<Value>, op: string, a: Res<Value>, b: Res<Value>): Res<Value> {
    if a.Err? then a else if b.Err? then b else f(op, a.value, b.value)
  }

  function Eval(m: Meaning, names: Fields, e: Expr, local: Fields): Res<Value>
    decreases e, 2, 0
  {
    match e
    case Const(v) => Ok(v)
    case Name(id) =>
      if id in local then Ok(local[id]) else if id in names then Ok(names[id]) else Err("config_schema_violation")
    case Attribute(base, attr) =>
      (match Eval(m, names, base, local)
       case Err(c) => Err(c)
       case Ok(v) => GetAttr(m, v, attr))
    case Subscript(base, index) =>
      (match Eval(m, names, base, local)
       case Err(c) => Err(c)
       case Ok(v) =>
         match Eval(m, names, index, local)
         case Err(c) => Err(c)
         case Ok(k) => GetItem(m, v, k))
    case Unary(op, operand) =>
      (match Eval(m, names, operand, local)
       case Err(c) => Err(c)
       case Ok(v) => m.unary(op, v))
    case BoolOp(isAnd, values) =>
      (match EvalAll(m, names, values, local)
       case Err(c) => Err(c)
       case Ok(vs) =>
         Ok(Truth(if isAnd then forall v :: v in vs ==> m.truthy(v) else exists v :: v in vs && m.truthy(v))))
    case Compare(op, left, right, _) => Both(m.compare, op, Eval(m, names, left, local), Eval(m, names, right, local))
    case BinOp(op, left, right) => Both(m.binary, op, Eval(m, names, left, local), Eval(m, names, right, local))
    case IfExp(test, body, orelse) =>
      (match Eval(m, names, test, local)
       case Err(c) => Err(c)
       case Ok(v) => if m.truthy(v) then Eval(m, names, body, local) else Eval(m, names, orelse, local))
    case ListComp(_, _, iter, _) =>
      (match Eval(m, names, iter, local)
       case Err(c) => Err(c)
       case Ok(v) =>
         match m.iterate(v)
         case Err(c) => Err(c)
         case Ok(items) =>
           match EvalItems(m, names, e, items, local)
           case Err(c) => Err(c)
           case Ok(vs) => Ok(List(vs)))
    case ListOf(elts) =>
      (match EvalAll(m, names, elts, local)
       case Err(c) => Err(c)
       case Ok(vs) => Ok(List(vs)))
    case Call(func, args, keywords) =>
      (match EvalAll(m, names, args, local)
       case Err(c) => Err(c)
       case Ok(vs) =>
         match EvalKeywords(m, names, keywords, local)
         case Err(c) => Err(c)
         case Ok(kw) =>
           if func.Attribute? then
             match Eval(m, names, func.base, local)
             case Err(c) => Err(c)
             case Ok(receiver) => Invoke(m, receiver, func.attr, vs, kw)
           else if func.Name? && func.id in m.functions then m.functions[func.id](vs, kw)
           else Err("config_schema_violation"))
  }

  function EvalAll(m: Meaning, names: Fields, es: seq<Expr>, local: Fields): Res<seq<Value>>
    decreases es, 0, |es|
  {
    if es == [] then Ok([])
    else
      match Eval(m, names, es[0], local)
      case Err(c) => Err(c)
      case Ok(v) =>
        match EvalAll(m, names, es[1..], local)
        case Err(c) => Err(c)
        case Ok(vs) => Ok([v] + vs)
  }

  function EvalKeywords(m: Meaning, names: Fields, kw: seq<Keyword>, local: Fields): Res<map<string, Value>>
    decreases kw, 0, |kw|
  {
    if kw == [] then Ok(map[])
    else
      match Eval(m, names, kw[0].arg, local)
      case Err(c) => Err(c)
      case Ok(v) =>
        match EvalKeywords(m, names, kw[1..], local)
        case Err(c) => Err(c)
        case Ok(rest) => Ok(rest[kw[0].name := v])
  }

  /** One pass of the comprehension per item, the conditions tried until one fails. */
  function EvalItems(m: Meaning, names: Fields, e: Expr, items: seq<Value>, local: Fields): Res<seq<Value>>
    requires e.ListComp?
    decreases e, 1, |items|
  {
    if items == [] then Ok([])
    else
      var inner := local[e.target := items[0]];
      match Passes(m, names, e.ifs, inner)
      case Err(c) => Err(c)
      case Ok(false) => EvalItems(m, names, e, items[1..], local)
      case Ok(true) =>
        match Eval(m, names, e.elt, inner)
        case Err(c) => Err(c)
        case Ok(v) =>
          match EvalItems(m, names, e, items[1..], local)
          case Err(c) => Err(c)
          case Ok(vs) => Ok([v] + vs)
  }

  function Passes(m: Meaning, names: Fields, ifs: seq<Expr>, local: Fields): Res<bool>
    decreases ifs, 0, |ifs|
  {
    if ifs == [] then Ok(true)
    else
      match Eval(m, names, ifs[0], local)
      case Err(c) => Err(c)
      case Ok(v) => if m.truthy(v) then Passes(m, names, ifs[1..], local) else Ok(false)
  }
}
