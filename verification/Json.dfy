/**
  `canonical_json`: sorted keys, compact separators, non-ASCII text left as it is.  The values are
  those audit payloads use: no floats, and objects keyed by strings.
 */
module Json {

  datatype Value =
    | Null
    | Bool(b: bool)
    | Int(i: int)
    | Str(s: string)
    | Arr(items: seq<Value>)
    | Obj(members: map<string, Value>)

  // ---- Keys in code-point order --------------------------------------------------------------

  predicate Below(a: string, b: string) {
    |b| > 0 && (|a| == 0 || a[0] < b[0] || (a[0] == b[0] && Below(a[1..], b[1..])))
  }

  lemma {:induction false} BelowTotal(a: string, b: string)
    ensures Below(a, b) || a == b || Below(b, a)
  {
    if |a| > 0 && |b| > 0 && a[0] == b[0] {
      BelowTotal(a[1..], b[1..]);
      assert a == [a[0]] + a[1..] && b == [b[0]] + b[1..];
    }
  }

  lemma {:induction false} BelowTransitive(a: string, b: string, c: string)
    requires Below(a, b) && Below(b, c)
    ensures Below(a, c)
  {
    if |a| > 0 && a[0] == b[0] == c[0] {
      BelowTransitive(a[1..], b[1..], c[1..]);
    }
  }

  predicate Least(k: string, keys: set<string>) {
    k in keys && forall j :: j in keys && j != k ==> Below(k, j)
  }

  lemma {:induction false} LeastExists(keys: set<string>)
    requires keys != {}
    ensures exists k :: Least(k, keys)
    decreases keys
  {
    var k :| k in keys;
    if keys == {k} {
      assert Least(k, keys);
    } else {
      LeastExists(keys - {k});
      var j :| Least(j, keys - {k});
      BelowTotal(j, k);
      if Below(j, k) {
        assert Least(j, keys);
      } else {
        forall i | i in keys && i != k ensures Below(k, i) {
          if i != j { BelowTransitive(k, j, i); }
        }
        assert Least(k, keys);
      }
    }
  }

  lemma {:induction false} BelowAsymmetric(a: string, b: string)
    requires Below(a, b)
    ensures !Below(b, a) && a != b
  {
    if |a| > 0 && a[0] == b[0] {
      BelowAsymmetric(a[1..], b[1..]);
    }
  }

  lemma LeastUnique(keys: set<string>)
    ensures forall j, k :: Least(j, keys) && Least(k, keys) ==> j == k
  {
    forall j, k | Least(j, keys) && Least(k, keys) ensures j == k {
      if j != k { BelowAsymmetric(j, k); }
    }
  }

  function SortedKeys(keys: set<string>): (r: seq<string>)
    ensures forall k :: k in r <==> k in keys
    ensures forall i, j :: 0 <= i < j < |r| ==> Below(r[i], r[j])
    decreases keys
  {
    if keys == {} then []
    else
      LeastExists(keys);
      LeastUnique(keys);
      var k :| Least(k, keys);
      [k] + SortedKeys(keys - {k})
  }

  // ---- Printing ------------------------------------------------------------------------------

  predicate IsDigit(c: char) {
    '0' <= c <= '9'
  }

  function Digits(n: nat): (r: string)
    ensures |r| > 0 && forall i :: 0 <= i < |r| ==> IsDigit(r[i])
  {
    (if n < 10 then "" else Digits(n / 10)) + ['0' + (n % 10) as char]
  }

  function PrintInt(i: int): string {
    if i < 0 then "-" + Digits(-i) else Digits(i)
  }

  function Hex(n: nat): char
    requires n < 16
  {
    if n < 10 then '0' + n as char else 'a' + (n - 10) as char
  }

  /** A quote, a backslash and the control characters are escaped; nothing else is. */
  function Escape(c: char): (r: string)
    ensures |r| > 0 && r[0] != '"'
  {
    if c == '"' then "\\\""
    else if c == '\\' then "\\\\"
    else if c == '\n' then "\\n"
    else if c == '\r' then "\\r"
    else if c == '\t' then "\\t"
    else if c == '\U{08}' then "\\b"
    else if c == '\U{0C}' then "\\f"
    else if c < ' ' then "\\u00" + [Hex(c as nat / 16), Hex(c as nat % 16)]
    else [c]
  }

  /** The rest of a string literal, closing quote included. */
  function Literal(s: string): string {
    if s == "" then "\"" else Escape(s[0]) + Literal(s[1..])
  }

  function Quote(s: string): string {
    "\"" + Literal(s)
  }

  function Print(v: Value): string
    decreases v, 1, 0
  {
    match v
    case Null => "null"
    case Bool(b) => if b then "true" else "false"
    case Int(i) => PrintInt(i)
    case Str(s) => Quote(s)
    case Arr(items) => "[" + PrintItems(items, true)
    case Obj(m) => "{" + PrintMembers(v, SortedKeys(m.Keys), true)
  }

  function PrintItems(items: seq<Value>, first: bool): string
    decreases items, 0, |items|
  {
    if items == [] then "]"
    else (if first then "" else ",") + (Print(items[0]) + PrintItems(items[1..], false))
  }

  function PrintMembers(o: Value, keys: seq<string>, first: bool): string
    requires o.Obj? && forall k :: k in keys ==> k in o.members
    decreases o, 0, |keys|
  {
    if keys == [] then "}"
    else (if first then "" else ",") + (Quote(keys[0]) + (":" + (Print(o.members[keys[0]]) + PrintMembers(o, keys[1..], false))))
  }
}
