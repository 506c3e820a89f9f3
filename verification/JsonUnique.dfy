/**
  The canonical printer is injective, and more: a printed value followed by any text that does not
  begin with a digit can be read back in one way only.
 */
module JsonUnique {
  import opened Json

  lemma CutEqual<T>(a: seq<T>, x: seq<T>, b: seq<T>, y: seq<T>)
    requires a + x == b + y && |a| == |b|
    ensures a == b && x == y
  {
    assert a == (a + x)[..|a|] == (b + y)[..|b|] == b;
    assert x == (a + x)[|a|..] == (b + y)[|b|..] == y;
  }

  lemma Regroup<T>(a: seq<T>, b: seq<T>, c: seq<T>)
    ensures (a + b) + c == a + (b + c)
  {
  }

  ghost predicate Free(x: string) {
    |x| == 0 || !IsDigit(x[0])
  }

  // ---- Numbers -------------------------------------------------------------------------------

  function ValueOf(ds: string): int {
    if ds == "" then 0 else 10 * ValueOf(ds[..|ds| - 1]) + (ds[|ds| - 1] as int - '0' as int)
  }

  lemma {:induction false} DigitsReadBack(n: nat)
    ensures ValueOf(Digits(n)) == n
  {
    var init := if n < 10 then "" else Digits(n / 10);
    assert Digits(n)[..|Digits(n)| - 1] == init;
    if n >= 10 { DigitsReadBack(n / 10); }
  }

  lemma DigitsNotShorter(m: nat, n: nat, x: string, y: string)
    requires Digits(m) + x == Digits(n) + y
    ensures Free(x) ==> |Digits(m)| >= |Digits(n)|
  {
    var k := |Digits(m)|;
    if k < |Digits(n)| {
      assert (Digits(m) + x)[k] == (Digits(n) + y)[k] == Digits(n)[k];
    }
  }

  lemma DigitsUnique(m: nat, n: nat, x: string, y: string)
    requires Digits(m) + x == Digits(n) + y && Free(x) && Free(y)
    ensures m == n && x == y
  {
    DigitsNotShorter(m, n, x, y);
    DigitsNotShorter(n, m, y, x);
    CutEqual(Digits(m), x, Digits(n), y);
    DigitsReadBack(m);
    DigitsReadBack(n);
  }

  lemma IntUnique(i: int, j: int, x: string, y: string)
    requires PrintInt(i) + x == PrintInt(j) + y && Free(x) && Free(y)
    ensures i == j && x == y
  {
    SameHead(PrintInt(i), x, PrintInt(j), y);
    if i < 0 {
      Regroup("-", Digits(-i), x);
      Regroup("-", Digits(-j), y);
      CutEqual("-", Digits(-i) + x, "-", Digits(-j) + y);
      DigitsUnique(-i, -j, x, y);
    } else {
      DigitsUnique(i, j, x, y);
    }
  }

  lemma SameHead(a: string, x: string, b: string, y: string)
    requires a + x == b + y && a != "" && b != ""
    ensures a[0] == b[0]
  {
    assert a[0] == (a + x)[0] == (b + y)[0] == b[0];
  }

  // ---- Strings -------------------------------------------------------------------------------

  predicate Plain(c: char) {
    c != '"' && c != '\\' && c >= ' '
  }

  lemma HexUnique(c: nat, d: nat)
    requires c < 256 && d < 256 && Hex(c / 16) == Hex(d / 16) && Hex(c % 16) == Hex(d % 16)
    ensures c == d
  {
  }

  lemma EscapeShape(c: char)
    ensures Plain(c) ==> Escape(c) == [c]
    ensures !Plain(c) ==> |Escape(c)| >= 2 && Escape(c)[0] == '\\' && (|Escape(c)| == 6 <==> Escape(c)[1] == 'u')
    ensures !Plain(c) && |Escape(c)| != 6 ==> |Escape(c)| == 2
  {
  }

  lemma EscapeUnique(c: char, d: char, x: string, y: string)
    requires Escape(c) + x == Escape(d) + y
    ensures c == d && x == y
  {
    EscapeShape(c);
    EscapeShape(d);
    assert (Escape(c) + x)[0] == Escape(c)[0] && (Escape(d) + y)[0] == Escape(d)[0];
    if !Plain(c) && !Plain(d) {
      assert (Escape(c) + x)[1] == Escape(c)[1] && (Escape(d) + y)[1] == Escape(d)[1];
    }
    CutEqual(Escape(c), x, Escape(d), y);
    if |Escape(c)| == 6 {
      assert Escape(c)[4] == Hex(c as nat / 16) && Escape(c)[5] == Hex(c as nat % 16);
      assert Escape(d)[4] == Hex(d as nat / 16) && Escape(d)[5] == Hex(d as nat % 16);
      HexUnique(c as nat, d as nat);
    }
  }

  lemma {:induction false} LiteralUnique(s: string, t: string, x: string, y: string)
    requires Literal(s) + x == Literal(t) + y
    ensures s == t && x == y
  {
    SameHead(Literal(s), x, Literal(t), y);
    if s == "" {
      CutEqual("\"", x, "\"", y);
    } else {
      Regroup(Escape(s[0]), Literal(s[1..]), x);
      Regroup(Escape(t[0]), Literal(t[1..]), y);
      EscapeUnique(s[0], t[0], Literal(s[1..]) + x, Literal(t[1..]) + y);
      LiteralUnique(s[1..], t[1..], x, y);
      assert s == [s[0]] + s[1..] && t == [t[0]] + t[1..];
    }
  }

  lemma QuoteUnique(s: string, t: string, x: string, y: string)
    requires Quote(s) + x == Quote(t) + y
    ensures s == t && x == y
  {
    Regroup("\"", Literal(s), x);
    Regroup("\"", Literal(t), y);
    CutEqual("\"", Literal(s) + x, "\"", Literal(t) + y);
    LiteralUnique(s, t, x, y);
  }

  // ---- Values --------------------------------------------------------------------------------

  /** The first character tells the kind of value. */
  function Kind(v: Value): int {
    match v
    case Null => 0
    case Bool(b) => if b then 1 else 2
    case Int(_) => 3
    case Str(_) => 4
    case Arr(_) => 5
    case Obj(_) => 6
  }

  function KindOf(c: char): int {
    if c == 'n' then 0 else if c == 't' then 1 else if c == 'f' then 2
    else if c == '-' || IsDigit(c) then 3 else if c == '"' then 4 else if c == '[' then 5 else if c == '{' then 6 else 7
  }

  lemma PrintStarts(v: Value)
    ensures |Print(v)| > 0 && KindOf(Print(v)[0]) == Kind(v)
  {
  }

  lemma {:induction false} PrintUnique(a: Value, b: Value, x: string, y: string)
    requires Print(a) + x == Print(b) + y && Free(x) && Free(y)
    ensures a == b && x == y
    decreases a, 1, 0
  {
    PrintStarts(a);
    PrintStarts(b);
    SameHead(Print(a), x, Print(b), y);
    match a
    case Int(i) => IntUnique(i, b.i, x, y);
    case Str(s) => QuoteUnique(s, b.s, x, y);
    case Arr(items) => ArrUnique(a, b, x, y);
    case Obj(m) => ObjUnique(a, b, x, y);
    case _ =>
      assert Print(a) == Print(b);
      CutEqual(Print(a), x, Print(b), y);
  }

  lemma SameMembers(m: map<string, Value>, n: map<string, Value>, keys: seq<string>)
    requires forall k :: k in keys <==> k in m
    requires forall k :: k in keys <==> k in n
    requires forall k :: k in keys ==> m[k] == n[k]
    ensures m == n
  {
    assert m.Keys == n.Keys;
  }

  lemma {:induction false} ArrUnique(a: Value, b: Value, x: string, y: string)
    requires a.Arr? && b.Arr? && Print(a) + x == Print(b) + y
    ensures a == b && x == y
    decreases a, 0, 0
  {
    Regroup("[", PrintItems(a.items, true), x);
    Regroup("[", PrintItems(b.items, true), y);
    CutEqual("[", PrintItems(a.items, true) + x, "[", PrintItems(b.items, true) + y);
    ItemsUnique(a.items, b.items, true, x, y);
  }

  lemma {:induction false} ObjUnique(a: Value, b: Value, x: string, y: string)
    requires a.Obj? && b.Obj? && Print(a) + x == Print(b) + y
    ensures a == b && x == y
    decreases a, 0, |SortedKeys(a.members.Keys)| + 1
  {
    var ka, kb := SortedKeys(a.members.Keys), SortedKeys(b.members.Keys);
    Regroup("{", PrintMembers(a, ka, true), x);
    Regroup("{", PrintMembers(b, kb, true), y);
    CutEqual("{", PrintMembers(a, ka, true) + x, "{", PrintMembers(b, kb, true) + y);
    MembersUnique(a, ka, b, kb, true, x, y);
    SameMembers(a.members, b.members, ka);
  }

  /** The separator decides whether a list goes on. */
  lemma ItemsStart(a: seq<Value>, first: bool)
    ensures PrintItems(a, first) != "" && (PrintItems(a, first)[0] == ']' <==> a == [])
    ensures !first && a != [] ==> PrintItems(a, first)[0] == ','
  {
    if a != [] {
      PrintStarts(a[0]);
    }
  }

  lemma MembersStart(o: Value, keys: seq<string>, first: bool)
    requires o.Obj? && forall k :: k in keys ==> k in o.members
    ensures var p := PrintMembers(o, keys, first); p != "" && (p[0] == '}' <==> keys == []) && !IsDigit(p[0])
  {
  }

  lemma {:induction false} ItemsUnique(a: seq<Value>, b: seq<Value>, first: bool, x: string, y: string)
    requires PrintItems(a, first) + x == PrintItems(b, first) + y
    ensures a == b && x == y
    decreases a, 0, |a|
  {
    ItemsStart(a, first);
    ItemsStart(b, first);
    SameHead(PrintItems(a, first), x, PrintItems(b, first), y);
    if a == [] {
      CutEqual("]", x, "]", y);
    } else {
      var comma := if first then "" else ",";
      var ra, rb := PrintItems(a[1..], false), PrintItems(b[1..], false);
      Regroup(comma, Print(a[0]) + ra, x);
      Regroup(comma, Print(b[0]) + rb, y);
      CutEqual(comma, (Print(a[0]) + ra) + x, comma, (Print(b[0]) + rb) + y);
      Regroup(Print(a[0]), ra, x);
      Regroup(Print(b[0]), rb, y);
      ItemsStart(a[1..], false);
      ItemsStart(b[1..], false);
      PrintUnique(a[0], b[0], ra + x, rb + y);
      ItemsUnique(a[1..], b[1..], false, x, y);
      assert a == [a[0]] + a[1..] && b == [b[0]] + b[1..];
    }
  }

  /** One `"key":value` pair, with whatever follows it. */
  lemma {:induction false} FieldUnique(j: string, a: Value, x: string, k: string, b: Value, y: string)
    requires Quote(j) + (":" + (Print(a) + x)) == Quote(k) + (":" + (Print(b) + y)) && Free(x) && Free(y)
    ensures j == k && a == b && x == y
    decreases a, 1, 1
  {
    QuoteUnique(j, k, ":" + (Print(a) + x), ":" + (Print(b) + y));
    CutEqual(":", Print(a) + x, ":", Print(b) + y);
    PrintUnique(a, b, x, y);
  }

  lemma FieldText(o: Value, keys: seq<string>, first: bool, x: string)
    requires o.Obj? && keys != [] && forall k :: k in keys ==> k in o.members
    ensures PrintMembers(o, keys, first) + x
         == (if first then "" else ",") + (Quote(keys[0]) + (":" + (Print(o.members[keys[0]]) + (PrintMembers(o, keys[1..], false) + x))))
  {
    var q, p, r := Quote(keys[0]), Print(o.members[keys[0]]), PrintMembers(o, keys[1..], false);
    Regroup(if first then "" else ",", q + (":" + (p + r)), x);
    Regroup(q, ":" + (p + r), x);
    Regroup(":", p + r, x);
    Regroup(p, r, x);
  }

  lemma {:induction false} MembersUnique(a: Value, ka: seq<string>, b: Value, kb: seq<string>, first: bool, x: string, y: string)
    requires a.Obj? && b.Obj? && (forall k :: k in ka ==> k in a.members) && (forall k :: k in kb ==> k in b.members)
    requires PrintMembers(a, ka, first) + x == PrintMembers(b, kb, first) + y
    ensures ka == kb && x == y && forall k :: k in ka ==> a.members[k] == b.members[k]
    decreases a, 0, |ka|
  {
    MembersStart(a, ka, first);
    MembersStart(b, kb, first);
    SameHead(PrintMembers(a, ka, first), x, PrintMembers(b, kb, first), y);
    if ka == [] {
      CutEqual("}", x, "}", y);
    } else {
      var comma := if first then "" else ",";
      var ra, rb := PrintMembers(a, ka[1..], false) + x, PrintMembers(b, kb[1..], false) + y;
      FieldText(a, ka, first, x);
      FieldText(b, kb, first, y);
      CutEqual(comma, Quote(ka[0]) + (":" + (Print(a.members[ka[0]]) + ra)), comma, Quote(kb[0]) + (":" + (Print(b.members[kb[0]]) + rb)));
      MembersStart(a, ka[1..], false);
      MembersStart(b, kb[1..], false);
      FieldUnique(ka[0], a.members[ka[0]], ra, kb[0], b.members[kb[0]], rb);
      MembersUnique(a, ka[1..], b, kb[1..], false, x, y);
      assert ka == [ka[0]] + ka[1..] && kb == [kb[0]] + kb[1..];
    }
  }

  /** Two payloads with the same canonical text are the same payload. */
  lemma CanonicalInjective(a: Value, b: Value)
    ensures Print(a) == Print(b) <==> a == b
  {
    if Print(a) == Print(b) {
      assert Print(a) + "" == Print(b) + "";
      PrintUnique(a, b, "", "");
    }
  }

  // ---- The format -----------------------------------------------------------------------------

  lemma RestOfKeys(keys: set<string>, ks: seq<string>)
    requires ks != [] && forall k :: k in ks <==> k in keys
    requires forall i, j :: 0 <= i < j < |ks| ==> Below(ks[i], ks[j])
    ensures forall k :: k in ks[1..] <==> k in keys - {ks[0]}
  {
    var rest := ks[1..];
    assert ks == [ks[0]] + rest;
    forall k | k in rest ensures k != ks[0] {
      var i :| 0 <= i < |rest| && rest[i] == k;
      assert Below(ks[0], ks[i + 1]);
      BelowAsymmetric(ks[0], ks[i + 1]);
    }
  }

  lemma LeastFirst(keys: set<string>)
    requires keys != {}
    ensures var r := SortedKeys(keys); r != [] && r[0] in keys && r == [r[0]] + SortedKeys(keys - {r[0]})
  {}

  /** Keys in order are the sorted keys. */
  lemma {:induction false} SortedKeysAre(keys: set<string>, ks: seq<string>)
    requires forall k :: k in ks <==> k in keys
    requires forall i, j :: 0 <= i < j < |ks| ==> Below(ks[i], ks[j])
    ensures SortedKeys(keys) == ks
    decreases |ks|
  {
    if ks == [] {
      assert keys == {};
    } else {
      assert ks[0] in keys;
      LeastFirst(keys);
      HeadsMeet(SortedKeys(keys), ks);
      RestOfKeys(keys, ks);
      SortedKeysAre(keys - {ks[0]}, ks[1..]);
      assert ks == [ks[0]] + ks[1..];
    }
  }

  lemma HeadsMeet(a: seq<string>, b: seq<string>)
    requires a != [] && b != [] && forall k :: k in a <==> k in b
    requires forall i, j :: 0 <= i < j < |a| ==> Below(a[i], a[j])
    requires forall i, j :: 0 <= i < j < |b| ==> Below(b[i], b[j])
    ensures a[0] == b[0]
  {
    assert a[0] in b && b[0] in a;
    if a[0] != b[0] {
      var i :| 0 <= i < |b| && b[i] == a[0];
      var j :| 0 <= j < |a| && a[j] == b[0];
      assert Below(b[0], b[i]) && Below(a[0], a[j]);
      BelowAsymmetric(b[0], b[i]);
    }
  }

  /** Quotes, backslashes and control characters are escaped, other text is left as it is. */
  lemma EscapesAre(c: char)
    ensures Escape('"') == "\\\"" && Escape('\\') == "\\\\" && Escape('\n') == "\\n" && Escape('\r') == "\\r" && Escape('\t') == "\\t"
    ensures Escape('\U{8}') == "\\b" && Escape('\U{C}') == "\\f" && Escape('\U{1}') == "\\u0001" && Escape('\U{1F}') == "\\u001f"
    ensures c >= ' ' && c != '"' && c != '\\' ==> Escape(c) == [c]
  {}

  /** No blanks between the items of a list. */
  lemma ListExample()
    ensures Print(Arr([Int(-12), Null, Bool(true)])) == "[-12,null,true]"
  {
    var items := [Int(-12), Null, Bool(true)];
    assert items[1..] == [Null, Bool(true)] && items[1..][1..] == [Bool(true)] && items[1..][1..][1..] == [];
    assert Digits(12) == Digits(1) + "2" && Digits(1) == "1";
    assert PrintItems([Bool(true)], false) == ",true]";
    assert PrintItems([Null, Bool(true)], false) == ",null,true]";
  }

  /** An object's members stand in the order of their keys. */
  lemma TwoMembers(a: string, x: Value, b: string, y: Value)
    requires Below(a, b)
    ensures Print(Obj(map[b := y, a := x]))
         == "{" + (Quote(a) + (":" + (Print(x) + ("," + (Quote(b) + (":" + (Print(y) + "}")))))))
  {
    var o := Obj(map[b := y, a := x]);
    BelowAsymmetric(a, b);
    assert o.members[a] == x && o.members[b] == y;
    SortedKeysAre(o.members.Keys, [a, b]);
    TwoFields(o, a, b);
  }

  lemma TwoFields(o: Value, a: string, b: string)
    requires o.Obj? && a in o.members && b in o.members
    ensures PrintMembers(o, [a, b], true)
         == Quote(a) + (":" + (Print(o.members[a]) + ("," + (Quote(b) + (":" + (Print(o.members[b]) + "}"))))))
  {
    var y := o.members[b];
    assert [a, b][1..] == [b] && [b][1..] == [];
    assert PrintMembers(o, [], false) == "}";
    assert PrintMembers(o, [b], false) == "," + (Quote(b) + (":" + (Print(y) + "}")));
  }

  /** The order of keys: a proper beginning comes first, and else the first code point in which they differ decides. */
  lemma {:induction false} BelowIff(a: string, b: string)
    ensures Below(a, b) <==> exists n: nat :: n <= |a| && n < |b| && a[..n] == b[..n] && (n == |a| || a[n] < b[n])
  {
    if a != "" && b != "" && a[0] == b[0] {
      var (x, y) := (a[1..], b[1..]);
      BelowIff(x, y);
      assert a == [a[0]] + x && b == [b[0]] + y;
      if n: nat :| n <= |x| && n < |y| && x[..n] == y[..n] && (n == |x| || x[n] < y[n]) {
        assert a[..n + 1] == [a[0]] + x[..n] && b[..n + 1] == [b[0]] + y[..n];
      }
      if n: nat :| n <= |a| && n < |b| && a[..n] == b[..n] && (n == |a| || a[n] < b[n]) {
        assert x[..n - 1] == a[..n][1..] && y[..n - 1] == b[..n][1..];
      }
    } else if b != "" {
      assert a[..0] == b[..0];
    }
  }
}
