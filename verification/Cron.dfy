/** Cron expressions as text: lists, ranges and steps, read the way the scheduler reads them. */
module Cron {
  import opened Wrappers
  import JsonUnique

  /** `Malformed` is any exception: a bad number, too many dashes, a zero step. */
  datatype Reading = Ok(holds: bool) | Malformed

  // ---- Text -----------------------------------------------------------------------------------

  function Find(s: string, c: char): (i: nat)
    ensures i <= |s| && (i < |s| ==> s[i] == c) && forall k :: 0 <= k < i ==> s[k] != c
  {
    if s == "" || s[0] == c then 0 else 1 + Find(s[1..], c)
  }

  function Split(s: string, c: char): (parts: seq<string>)
    ensures |parts| >= 1
    decreases |s|
  {
    var i := Find(s, c);
    if i == |s| then [s] else [s[..i]] + Split(s[i + 1..], c)
  }

  /** What follows the first `c`, empty when there is none. */
  function After(s: string, c: char): string {
    var i := Find(s, c);
    if i == |s| then "" else s[i + 1..]
  }

  function Before(s: string, c: char): string { s[..Find(s, c)] }

  const BLANKS: string := " \t\n\r"

  /** `str.split()`: maximal runs without blanks. */
  function Words(s: string): seq<string>
    decreases |s|
  {
    if s == "" then []
    else if s[0] in BLANKS then Words(s[1..])
    else
      var n := WordLength(s);
      [s[..n]] + Words(s[n..])
  }

  function WordLength(s: string): (n: nat)
    ensures n <= |s| && (s != "" && s[0] !in BLANKS ==> n > 0)
  {
    if s == "" || s[0] in BLANKS then 0 else 1 + WordLength(s[1..])
  }

  predicate Digit(c: char) { '0' <= c <= '9' }

  /** Digits with single underscores between them. */
  predicate Grouped(s: string) {
    && s != "" && Digit(s[0]) && Digit(s[|s| - 1])
    && (forall i :: 0 <= i < |s| ==> Digit(s[i]) || s[i] == '_')
    && forall i :: 0 <= i < |s| - 1 ==> Digit(s[i]) || Digit(s[i + 1])
  }

  function Ungrouped(s: string): string {
    if s == "" then "" else (if s[0] == '_' then "" else [s[0]]) + Ungrouped(s[1..])
  }

  function Magnitude(s: string): Option<int> {
    if Grouped(s) then Some(JsonUnique.ValueOf(Ungrouped(s))) else None
  }

  /** `int(s)` on text without blanks. */
  function ReadInt(s: string): Option<int> {
    if s != "" && s[0] == '-' then
      match Magnitude(s[1..])
      case None => None
      case Some(n) => Some(-n)
    else if s != "" && s[0] == '+' then Magnitude(s[1..])
    else Magnitude(s)
  }

  // ---- Fields ---------------------------------------------------------------------------------

  /** Divisible, whatever the sign of the step; a zero step is an error before this. */
  predicate Divides(step: int, n: int)
    requires step != 0
  {
    n % step == 0
  }

  function StarReading(step: int, value: int): Reading {
    if step == 0 then Malformed else Ok(Divides(step, value))
  }

  /** The step is only looked at for a value inside the range. */
  function RangeReading(lo: int, hi: int, step: int, value: int): Reading {
    if !(lo <= value <= hi) then Ok(false)
    else if step == 0 then Malformed
    else Ok(Divides(step, value - lo))
  }

  function BaseReading(base: string, step: int, value: int): Reading {
    if base == "*" then StarReading(step, value)
    else if '-' in base then
      var ends := Split(base, '-');
      if |ends| != 2 then Malformed
      else
        match (ReadInt(ends[0]), ReadInt(ends[1]))
        case (Some(lo), Some(hi)) => RangeReading(lo, hi, step, value)
        case _ => Malformed
    else
      match ReadInt(base)
      case Some(n) => RangeReading(n, n, step, value)
      case None => Malformed
  }

  function PartReading(part: string, value: int): Reading {
    var (base, text) := (Before(part, '/'), After(part, '/'));
    match if text == "" then Some(1) else ReadInt(text)
    case None => Malformed
    case Some(step) => BaseReading(base, step, value)
  }

  /** The first part that matches or is malformed decides. */
  function PartsReading(parts: seq<string>, value: int): Reading {
    if parts == [] then Ok(false)
    else
      var first := PartReading(parts[0], value);
      if first == Ok(false) then PartsReading(parts[1..], value) else first
  }

  function FieldReading(field: string, value: int): Reading { PartsReading(Split(field, ','), value) }

  /** `_field_matches` */
  method FieldMatches(field: string, value: int) returns (r: Reading)
    ensures r == FieldReading(field, value)
  {
    var parts := Split(field, ',');
    for i := 0 to |parts|
      invariant PartsReading(parts, value) == PartsReading(parts[i..], value)
    {
      var part := parts[i];
      assert parts[i..][0] == part && parts[i..][1..] == parts[i + 1..];
      var (base, text) := (Before(part, '/'), After(part, '/'));
      var step := 1;
      if text != "" {
        var n := ReadInt(text);
        if n.None? { return Malformed; }
        step := n.value;
      }
      if base == "*" {
        if step == 0 { return Malformed; }
        if Divides(step, value) { return Ok(true); }
        continue;
      }
      var lo, hi;
      if '-' in base {
        var ends := Split(base, '-');
        if |ends| != 2 { return Malformed; }
        lo, hi := ReadInt(ends[0]), ReadInt(ends[1]);
      } else {
        lo := ReadInt(base);
        hi := lo;
      }
      if lo.None? || hi.None? { return Malformed; }
      if lo.value <= value <= hi.value {
        if step == 0 { return Malformed; }
        if Divides(step, value - lo.value) { return Ok(true); }
      }
    }
    return Ok(false);
  }

  // ---- Expressions ----------------------------------------------------------------------------

  /** Local wall-clock fields; the weekday is ISO, Monday 1 to Sunday 7. */
  datatype Clock = Clock(minute: int, hour: int, day: int, month: int, weekday: int)

  function And(a: Reading, b: Reading): Reading { if a == Ok(true) then b else a }

  /** `cron_matches` */
  function CronReading(cron: string, t: Clock): Reading {
    var f := Words(cron);
    if |f| != 5 then Malformed
    else
      And(FieldReading(f[0], t.minute),
        And(FieldReading(f[1], t.hour),
          And(FieldReading(f[2], t.day),
            And(FieldReading(f[3], t.month), FieldReading(f[4], t.weekday % 7)))))
  }
}
