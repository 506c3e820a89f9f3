/** Written from its grammar, a cron expression holds exactly at the times it denotes. */
module CronMeaning {
  import opened Wrappers
  import opened Cron
  import Json
  import JsonUnique

  /** A list item as spelled: every multiple of a step, a range, or a single value; the step is what follows a slash. */
  datatype Part =
    | Star(step: Option<string>)
    | Range(lo: string, hi: string, step: Option<string>)
    | Single(value: string, step: Option<string>)

  // ---- Numbers as `int` reads them ------------------------------------------------------------

  predicate Reads(s: string) { ReadInt(s).Some? }

  function Num(s: string): int
    requires Reads(s)
  {
    ReadInt(s).value
  }

  predicate Lacks(s: string, c: char) { forall i :: 0 <= i < |s| ==> s[i] != c }

  /** Digits, underscores between them, and a sign: a number has no comma, slash, star or blank in it. */
  lemma NumberChars(s: string)
    requires Reads(s)
    ensures s != "" && forall i :: 0 <= i < |s| ==> Digit(s[i]) || s[i] in "+-_"
  {
    if s[0] == '-' || s[0] == '+' {
      assert forall i :: 1 <= i < |s| ==> s[i] == s[1..][i - 1];
    }
  }

  predicate StepReads(step: Option<string>) { step.None? || step.value == "" || Reads(step.value) }

  /** A missing step, and an empty one, is 1. */
  function StepOf(step: Option<string>): int
    requires StepReads(step)
  {
    if step.None? || step.value == "" then 1 else Num(step.value)
  }

  lemma {:induction false} DigitsUngrouped(s: string)
    requires forall i :: 0 <= i < |s| ==> Digit(s[i])
    ensures Ungrouped(s) == s
  {
    if s != "" { DigitsUngrouped(s[1..]); }
  }

  lemma MagnitudeOf(n: nat)
    ensures var d := Json.Digits(n); Magnitude(d) == Some(n) && d != "" && Digit(d[0])
  {
    DigitsUngrouped(Json.Digits(n));
    JsonUnique.DigitsReadBack(n);
  }

  lemma Signed(d: string)
    requires d != "" && Digit(d[0])
    ensures ReadInt(d) == Magnitude(d) && ReadInt("+" + d) == Magnitude(d)
    ensures Magnitude(d).Some? ==> ReadInt("-" + d) == Some(-Magnitude(d).value)
  {
    assert ("-" + d)[1..] == d && ("+" + d)[1..] == d;
  }

  /** Plain digits are their number, with a sign before them too. */
  lemma NumbersAre(n: nat)
    ensures var (d, m: int) := (Json.Digits(n), n);
            ReadInt(d) == Some(m) && ReadInt("+" + d) == Some(m) && ReadInt("-" + d) == Some(-m)
  {
    MagnitudeOf(n);
    Signed(Json.Digits(n));
  }

  /** An underscore stands between two digits, and nowhere else; it is passed over. */
  lemma Underscores(s: string)
    ensures Grouped("1_0") && !Grouped("") && !Grouped("_1") && !Grouped("1_")
    ensures s != "" ==> Ungrouped("_" + s) == Ungrouped(s) && Ungrouped("1" + s) == "1" + Ungrouped(s)
    ensures !Grouped("1__" + s)
  {
    assert ("_" + s)[1..] == s && ("1" + s)[1..] == s;
    assert ("1__" + s)[1] == '_' && ("1__" + s)[2] == '_';
  }

  // ---- Items and lists as text ----------------------------------------------------------------

  /** A step of zero is an error where a value can be in range; a number inside an item has no minus. */
  predicate WellFormed(p: Part) {
    && StepReads(p.step)
    && match p
       case Star(_) => StepOf(p.step) != 0
       case Range(lo, hi, _) =>
         Reads(lo) && Reads(hi) && Lacks(lo, '-') && Lacks(hi, '-') && (StepOf(p.step) != 0 || Num(lo) > Num(hi))
       case Single(n, _) => Reads(n) && Lacks(n, '-') && StepOf(p.step) != 0
  }

  /** The values an item stands for. */
  predicate Denotes(p: Part, v: int)
    requires WellFormed(p)
  {
    match p
    case Star(step) => v % StepOf(step) == 0
    case Range(lo, hi, step) => Num(lo) <= v <= Num(hi) && (v - Num(lo)) % StepOf(step) == 0
    case Single(n, _) => v == Num(n)
  }

  function StepText(step: Option<string>): string { if step.None? then "" else "/" + step.value }

  function BaseText(p: Part): string {
    match p
    case Star(_) => "*"
    case Range(lo, hi, _) => lo + ("-" + hi)
    case Single(n, _) => n
  }

  function Text(p: Part): string { BaseText(p) + StepText(p.step) }

  function ListText(ps: seq<Part>): string
    requires ps != []
  {
    if |ps| == 1 then Text(ps[0]) else Text(ps[0]) + ("," + ListText(ps[1..]))
  }

  // ---- Splitting ------------------------------------------------------------------------------

  lemma {:induction false} FindIn(a: string, c: char, b: string)
    requires Lacks(a, c)
    ensures Find(a + ([c] + b), c) == |a| && Find(a, c) == |a|
  {
    var s := a + ([c] + b);
    assert s[|a|] == c;
    forall k | 0 <= k < |a| ensures s[k] != c { assert s[k] == a[k]; }
  }

  lemma CutAt(a: string, c: char, b: string)
    requires Lacks(a, c)
    ensures Before(a + ([c] + b), c) == a && After(a + ([c] + b), c) == b
    ensures Before(a, c) == a && After(a, c) == ""
  {
    FindIn(a, c, b);
    assert (a + ([c] + b))[|a| + 1..] == b;
  }

  lemma SplitAt(a: string, c: char, b: string)
    requires Lacks(a, c)
    ensures Split(a + ([c] + b), c) == [a] + Split(b, c) && Split(a, c) == [a]
  {
    FindIn(a, c, b);
    assert (a + ([c] + b))[..|a|] == a && (a + ([c] + b))[|a| + 1..] == b;
  }

  /** Text that splits in two is its halves with the separator between them. */
  lemma SplitInTwo(s: string, c: char)
    requires |Split(s, c)| == 2
    ensures var ends := Split(s, c); s == ends[0] + ([c] + ends[1]) && Lacks(ends[0], c) && Lacks(ends[1], c)
  {
    var i := Find(s, c);
    var rest := s[i + 1..];
    assert s == s[..i] + ([c] + rest);
    assert Split(rest, c) == [rest];
    assert Find(rest, c) == |rest|;
  }

  // ---- Items ----------------------------------------------------------------------------------

  /** No comma, slash or blank. */
  predicate Clean(s: string) { forall i :: 0 <= i < |s| ==> s[i] !in ",/ \t\n\r" }

  lemma NumberClean(s: string)
    requires Reads(s)
    ensures s != "" && Clean(s)
  {
    NumberChars(s);
  }

  lemma CleanAppend(a: string, b: string)
    requires Clean(a) && Clean(b)
    ensures Clean(a + b)
  {}

  lemma BaseShape(p: Part)
    requires WellFormed(p)
    ensures BaseText(p) != "" && Clean(BaseText(p))
  {
    match p
    case Star(_) =>
    case Range(lo, hi, _) =>
      NumberClean(lo);
      NumberClean(hi);
      CleanAppend("-", hi);
      CleanAppend(lo, "-" + hi);
    case Single(n, _) => NumberClean(n);
  }

  lemma TextShape(p: Part)
    requires WellFormed(p)
    ensures Unspaced(Text(p)) && Lacks(Text(p), ',')
  {
    BaseShape(p);
    if p.step.Some? && p.step.value != "" { NumberClean(p.step.value); }
  }

  lemma StepRead(p: Part)
    requires WellFormed(p)
    ensures Before(Text(p), '/') == BaseText(p)
    ensures var text := After(Text(p), '/'); (if text == "" then Some(1) else ReadInt(text)) == Some(StepOf(p.step))
  {
    BaseShape(p);
    var base := BaseText(p);
    if p.step.None? {
      CutAt(base, '/', "");
      assert base + "" == base;
    } else {
      CutAt(base, '/', p.step.value);
      assert "/" + p.step.value == ['/'] + p.step.value;
    }
  }

  lemma RangeRead(lo: string, hi: string, step: int, v: int)
    requires Reads(lo) && Reads(hi) && Lacks(lo, '-') && Lacks(hi, '-')
    ensures BaseReading(lo + ("-" + hi), step, v) == RangeReading(Num(lo), Num(hi), step, v)
  {
    var base := lo + ("-" + hi);
    NumberChars(lo);
    assert "-" + hi == ['-'] + hi;
    SplitAt(lo, '-', hi);
    SplitAt(hi, '-', "");
    assert base[|lo|] == '-' && |base| > 1;
  }

  lemma SingleRead(n: string, step: int, v: int)
    requires Reads(n) && Lacks(n, '-')
    ensures BaseReading(n, step, v) == RangeReading(Num(n), Num(n), step, v)
  {
    NumberChars(n);
    assert '-' !in n;
  }

  lemma PartRead(p: Part, v: int)
    requires WellFormed(p)
    ensures PartReading(Text(p), v) == Ok(Denotes(p, v))
  {
    StepRead(p);
    match p
    case Star(_) =>
    case Range(lo, hi, step) => RangeRead(lo, hi, StepOf(step), v);
    case Single(n, step) => SingleRead(n, StepOf(step), v);
  }

  // ---- Every text that reads is such an item --------------------------------------------------

  /** No value makes the text an error. */
  ghost predicate Accepted(part: string) { forall v :: PartReading(part, v) != Malformed }

  lemma BaseSpelled(base: string, step: Option<string>) returns (p: Part)
    requires StepReads(step) && forall v :: BaseReading(base, StepOf(step), v) != Malformed
    ensures p.step == step && BaseText(p) == base && WellFormed(p)
  {
    if base == "*" {
      assert BaseReading(base, StepOf(step), 0) != Malformed;
      p := Star(step);
    } else if '-' in base {
      var ends := Split(base, '-');
      assert BaseReading(base, StepOf(step), 0) != Malformed;
      SplitInTwo(base, '-');
      assert BaseReading(base, StepOf(step), Num(ends[0])) == RangeReading(Num(ends[0]), Num(ends[1]), StepOf(step), Num(ends[0]));
      p := Range(ends[0], ends[1], step);
    } else {
      assert BaseReading(base, StepOf(step), 0) != Malformed;
      assert BaseReading(base, StepOf(step), Num(base)) != Malformed;
      p := Single(base, step);
    }
  }

  /** What follows the first slash, if there is one. */
  function Step(part: string): Option<string> {
    if Find(part, '/') == |part| then None else Some(After(part, '/'))
  }

  lemma PartIs(part: string, v: int)
    ensures PartReading(part, v)
         == if StepReads(Step(part)) then BaseReading(Before(part, '/'), StepOf(Step(part)), v) else Malformed
    ensures part == Before(part, '/') + StepText(Step(part))
  {
    var i := Find(part, '/');
    if i == |part| {
      assert Before(part, '/') == part && part + "" == part;
    } else {
      assert part == part[..i] + ("/" + part[i + 1..]);
    }
  }

  lemma PartSpelled(part: string) returns (p: Part)
    requires Accepted(part)
    ensures WellFormed(p) && Text(p) == part
  {
    assert PartReading(part, 0) != Malformed;
    PartIs(part, 0);
    forall v ensures BaseReading(Before(part, '/'), StepOf(Step(part)), v) != Malformed {
      assert PartReading(part, v) != Malformed;
      PartIs(part, v);
    }
    p := BaseSpelled(Before(part, '/'), Step(part));
  }

  /** No item of the field is ever an error. */
  ghost predicate AllAccepted(parts: seq<string>) { forall i :: 0 <= i < |parts| ==> Accepted(parts[i]) }

  lemma FirstAndRest(parts: seq<string>, first: string, rest: seq<string>)
    requires AllAccepted(parts) && parts == [first] + rest
    ensures Accepted(first) && AllAccepted(rest)
  {
    assert parts[0] == first && forall i :: 0 <= i < |rest| ==> rest[i] == parts[i + 1];
  }

  lemma OneItem(p: Part)
    requires WellFormed(p)
    ensures ListOk([p]) && ListText([p]) == Text(p)
  {}

  lemma MoreItems(p: Part, rest: seq<Part>)
    requires WellFormed(p) && ListOk(rest)
    ensures ListOk([p] + rest) && ListText([p] + rest) == Text(p) + ("," + ListText(rest))
  {
    assert ([p] + rest)[1..] == rest;
  }

  lemma Rejoined(s: string, i: nat)
    requires i < |s| && s[i] == ','
    ensures s == s[..i] + ("," + s[i + 1..])
  {}

  lemma {:induction false} FieldSpelled(field: string) returns (ps: seq<Part>)
    requires AllAccepted(Split(field, ','))
    ensures ListOk(ps) && ListText(ps) == field
    decreases |field|
  {
    var i := Find(field, ',');
    if i == |field| {
      assert Split(field, ',') == [field] + [];
      FirstAndRest(Split(field, ','), field, []);
      var p := PartSpelled(field);
      OneItem(p);
      ps := [p];
    } else {
      Rejoined(field, i);
      FirstAndRest(Split(field, ','), field[..i], Split(field[i + 1..], ','));
      var p := PartSpelled(field[..i]);
      var rest := FieldSpelled(field[i + 1..]);
      MoreItems(p, rest);
      ps := [p] + rest;
    }
  }

  function Texts(ps: seq<Part>): seq<string> {
    if ps == [] then [] else [Text(ps[0])] + Texts(ps[1..])
  }

  predicate AllWellFormed(ps: seq<Part>) { forall i :: 0 <= i < |ps| ==> WellFormed(ps[i]) }

  predicate ListOk(ps: seq<Part>) { ps != [] && AllWellFormed(ps) }

  lemma {:induction false} SplitList(ps: seq<Part>)
    requires ListOk(ps)
    ensures Split(ListText(ps), ',') == Texts(ps)
  {
    TextShape(ps[0]);
    if |ps| == 1 {
      SplitAt(Text(ps[0]), ',', "");
      assert Texts(ps[1..]) == [];
    } else {
      SplitAt(Text(ps[0]), ',', ListText(ps[1..]));
      assert "," + ListText(ps[1..]) == [','] + ListText(ps[1..]);
      SplitList(ps[1..]);
    }
  }

  lemma {:induction false} TextsAccepted(ps: seq<Part>, i: nat)
    requires AllWellFormed(ps) && i < |Texts(ps)|
    ensures Accepted(Texts(ps)[i])
  {
    if i == 0 {
      forall v ensures PartReading(Text(ps[0]), v) != Malformed { PartRead(ps[0], v); }
    } else {
      TextsAccepted(ps[1..], i - 1);
    }
  }

  /** The fields none of whose items is ever an error are exactly the texts of well-formed lists. */
  lemma AcceptedIff(field: string)
    ensures AllAccepted(Split(field, ',')) <==> exists ps :: ListOk(ps) && ListText(ps) == field
  {
    if AllAccepted(Split(field, ',')) {
      var ps := FieldSpelled(field);
    }
    if ps :| ListOk(ps) && ListText(ps) == field {
      SplitList(ps);
      forall i | 0 <= i < |Split(field, ',')| ensures Accepted(Split(field, ',')[i]) { TextsAccepted(ps, i); }
    }
  }

  predicate ListDenotes(ps: seq<Part>, v: int)
    requires AllWellFormed(ps)
  {
    exists i :: 0 <= i < |ps| && Denotes(ps[i], v)
  }

  lemma DenotesNext(ps: seq<Part>, v: int)
    requires AllWellFormed(ps) && ps != []
    ensures ListDenotes(ps, v) <==> Denotes(ps[0], v) || ListDenotes(ps[1..], v)
  {
    assert forall i :: 1 <= i < |ps| ==> ps[i] == ps[1..][i - 1];
    if i :| 0 <= i < |ps[1..]| && Denotes(ps[1..][i], v) {
      assert ps[i + 1] == ps[1..][i];
    }
  }

  lemma {:induction false} TextsRead(ps: seq<Part>, v: int)
    requires AllWellFormed(ps)
    ensures PartsReading(Texts(ps), v) == Ok(ListDenotes(ps, v))
  {
    if ps != [] {
      PartRead(ps[0], v);
      TextsRead(ps[1..], v);
      assert Texts(ps)[1..] == Texts(ps[1..]);
      DenotesNext(ps, v);
    }
  }

  /** A field, however its numbers are spelled, holds exactly when the value lies in the set its list denotes. */
  lemma FieldDenotes(ps: seq<Part>, v: int)
    requires ListOk(ps)
    ensures FieldReading(ListText(ps), v) == Ok(ListDenotes(ps, v))
  {
    SplitList(ps);
    TextsRead(ps, v);
  }

  // ---- Any text -------------------------------------------------------------------------------

  /** For any text: an error shows exactly when no part before the first bad one matches. */
  lemma {:induction false} MalformedIff(parts: seq<string>, v: int)
    ensures PartsReading(parts, v) == Malformed
       <==> exists i :: 0 <= i < |parts| && PartReading(parts[i], v) == Malformed
                        && forall k :: 0 <= k < i ==> PartReading(parts[k], v) == Ok(false)
  {
    if parts != [] {
      var rest := parts[1..];
      MalformedIff(rest, v);
      assert forall i :: 1 <= i < |parts| ==> parts[i] == rest[i - 1];
      if PartReading(parts[0], v) == Ok(false) && PartsReading(rest, v) == Malformed {
        var i :| 0 <= i < |rest| && PartReading(rest[i], v) == Malformed
                 && forall k :: 0 <= k < i ==> PartReading(rest[k], v) == Ok(false);
        assert PartReading(parts[i + 1], v) == Malformed;
        assert forall k :: 0 <= k < i + 1 ==> PartReading(parts[k], v) == Ok(false);
      }
      if i :| 0 <= i < |parts| && PartReading(parts[i], v) == Malformed
              && forall k :: 0 <= k < i ==> PartReading(parts[k], v) == Ok(false) {
        if i > 0 {
          assert PartReading(rest[i - 1], v) == Malformed;
          assert forall k :: 0 <= k < i - 1 ==> PartReading(rest[k], v) == PartReading(parts[k + 1], v) == Ok(false);
        }
      }
    }
  }

  // ---- Whole expressions ----------------------------------------------------------------------

  datatype Schedule = Schedule(minute: seq<Part>, hour: seq<Part>, day: seq<Part>, month: seq<Part>, weekday: seq<Part>)

  predicate ScheduleOk(s: Schedule) {
    ListOk(s.minute) && ListOk(s.hour) && ListOk(s.day) && ListOk(s.month) && ListOk(s.weekday)
  }

  function CronText(s: Schedule): string
    requires ScheduleOk(s)
  {
    ListText(s.minute) + (" " + (ListText(s.hour) + (" " + (ListText(s.day) + (" " + (ListText(s.month) + (" " + ListText(s.weekday))))))))
  }

  predicate Unspaced(s: string) { s != "" && forall i :: 0 <= i < |s| ==> s[i] !in BLANKS }

  lemma {:induction false} WordEnds(a: string, b: string)
    requires forall i :: 0 <= i < |a| ==> a[i] !in BLANKS
    ensures WordLength(a + (" " + b)) == |a| && WordLength(a) == |a|
  {
    if a == "" {
      assert a + (" " + b) == " " + b;
    } else {
      assert (a + (" " + b))[1..] == a[1..] + (" " + b);
      WordEnds(a[1..], b);
    }
  }

  lemma WordThen(a: string, b: string)
    requires Unspaced(a)
    ensures Words(a + (" " + b)) == [a] + Words(b) && Words(a) == [a]
  {
    WordEnds(a, b);
    var s := a + (" " + b);
    assert s[0] == a[0] && s[..|a|] == a && s[|a|..] == " " + b;
    assert (" " + b)[1..] == b && a[|a|..] == "" && a[..|a|] == a;
  }

  lemma UnspacedJoin(a: string, b: string)
    requires Unspaced(a) && Unspaced(b)
    ensures Unspaced(a + ("," + b))
  {}

  lemma {:induction false} ListUnspaced(ps: seq<Part>)
    requires ListOk(ps)
    ensures Unspaced(ListText(ps))
  {
    TextShape(ps[0]);
    if |ps| > 1 {
      ListUnspaced(ps[1..]);
      UnspacedJoin(Text(ps[0]), ListText(ps[1..]));
    }
  }

  /** Any blank ends a word, and blanks before one are passed over. */
  lemma BlanksSeparate(a: string, c: char, b: string)
    requires Unspaced(a) && c in {' ', '\t', '\n', '\r'}
    ensures Words(a + ([c] + b)) == [a] + Words(b) && Words([c] + b) == Words(b)
  {
    BlankEnds(a, c, b);
    var s := a + ([c] + b);
    assert s[0] == a[0] && s[..|a|] == a && s[|a|..] == [c] + b;
    assert ([c] + b)[1..] == b;
  }

  lemma {:induction false} BlankEnds(a: string, c: char, b: string)
    requires (forall i :: 0 <= i < |a| ==> a[i] !in BLANKS) && c in BLANKS
    ensures WordLength(a + ([c] + b)) == |a|
  {
    if a == "" {
      assert a + ([c] + b) == [c] + b;
    } else {
      assert (a + ([c] + b))[1..] == a[1..] + ([c] + b);
      BlankEnds(a[1..], c, b);
    }
  }

  lemma WordBefore(a: string, rest: string, ws: seq<string>)
    requires Unspaced(a) && Words(rest) == ws
    ensures Words(a + (" " + rest)) == [a] + ws
  {
    WordThen(a, rest);
  }

  lemma FiveWords(a: string, b: string, c: string, d: string, e: string)
    requires Unspaced(a) && Unspaced(b) && Unspaced(c) && Unspaced(d) && Unspaced(e)
    ensures Words(a + (" " + (b + (" " + (c + (" " + (d + (" " + e)))))))) == [a, b, c, d, e]
  {
    WordThen(e, "");
    WordBefore(d, e, [e]);
    WordBefore(c, d + (" " + e), [d] + [e]);
    WordBefore(b, c + (" " + (d + (" " + e))), [c] + ([d] + [e]));
    WordBefore(a, b + (" " + (c + (" " + (d + (" " + e))))), [b] + ([c] + ([d] + [e])));
    assert [a] + ([b] + ([c] + ([d] + [e]))) == [a, b, c, d, e];
  }

  function FieldTexts(s: Schedule): seq<string>
    requires ScheduleOk(s)
  {
    [ListText(s.minute), ListText(s.hour), ListText(s.day), ListText(s.month), ListText(s.weekday)]
  }

  /** Written with single blanks; any other spacing gives the same five words. */
  lemma CronWords(s: Schedule)
    requires ScheduleOk(s)
    ensures Words(CronText(s)) == FieldTexts(s)
  {
    ListUnspaced(s.minute);
    ListUnspaced(s.hour);
    ListUnspaced(s.day);
    ListUnspaced(s.month);
    ListUnspaced(s.weekday);
    FiveWords(ListText(s.minute), ListText(s.hour), ListText(s.day), ListText(s.month), ListText(s.weekday));
  }

  predicate ScheduleDenotes(s: Schedule, t: Clock)
    requires ScheduleOk(s)
  {
    && ListDenotes(s.minute, t.minute) && ListDenotes(s.hour, t.hour) && ListDenotes(s.day, t.day)
    && ListDenotes(s.month, t.month) && ListDenotes(s.weekday, t.weekday % 7)
  }

  /** An expression, however spaced, holds exactly at the times all five of its fields denote, Sunday being 0. */
  lemma CronDenotes(cron: string, s: Schedule, t: Clock)
    requires ScheduleOk(s) && Words(cron) == FieldTexts(s)
    ensures CronReading(cron, t) == Ok(ScheduleDenotes(s, t))
  {
    FieldDenotes(s.minute, t.minute);
    FieldDenotes(s.hour, t.hour);
    FieldDenotes(s.day, t.day);
    FieldDenotes(s.month, t.month);
    FieldDenotes(s.weekday, t.weekday % 7);
  }
}
