/**
  The URL-safe base64 the tokens and cursors use (section 5 of RFC 4648), with the decoder as
  lenient as the standard library's: characters outside the alphabet are skipped.
 */
module Base64 {
  import opened Wrappers

  type Byte = b: int | 0 <= b < 256
  type Bytes = seq<Byte>

  // ---- The alphabet ---------------------------------------------------------------------------

  function Symbol(n: nat): (c: char)
    requires n < 64
  {
    if n < 26 then 'A' + n as char
    else if n < 52 then 'a' + (n - 26) as char
    else if n < 62 then '0' + (n - 52) as char
    else if n == 62 then '-' else '_'
  }

  /** `+` and `/` are read as well as the URL-safe `-` and `_`. */
  function Sextet(c: char): (v: Option<nat>)
    ensures v.Some? ==> v.value < 64
  {
    if 'A' <= c <= 'Z' then Some((c - 'A') as nat)
    else if 'a' <= c <= 'z' then Some((c - 'a') as nat + 26)
    else if '0' <= c <= '9' then Some((c - '0') as nat + 52)
    else if c == '-' || c == '+' then Some(62)
    else if c == '_' || c == '/' then Some(63)
    else None
  }

  lemma SymbolRead(n: nat)
    requires n < 64
    ensures Sextet(Symbol(n)) == Some(n) && Symbol(n) < 128 as char && Symbol(n) !in {'.', '='}
  {}

  // ---- Encoding -------------------------------------------------------------------------------

  function Group(x: Byte, y: Byte, z: Byte): string {
    [Symbol(x / 4), Symbol(x % 4 * 16 + y / 16), Symbol(y % 16 * 4 + z / 64), Symbol(z % 64)]
  }

  function Encode(bs: Bytes): string {
    if |bs| == 0 then ""
    else if |bs| == 1 then [Symbol(bs[0] / 4), Symbol(bs[0] % 4 * 16), '=', '=']
    else if |bs| == 2 then [Symbol(bs[0] / 4), Symbol(bs[0] % 4 * 16 + bs[1] / 16), Symbol(bs[1] % 16 * 4), '=']
    else Group(bs[0], bs[1], bs[2]) + Encode(bs[3..])
  }

  function StripPadding(s: string): string {
    if s != "" && s[|s| - 1] == '=' then StripPadding(s[..|s| - 1]) else s
  }

  function Padding(n: nat): string {
    if n == 0 then "" else "=" + Padding(n - 1)
  }

  /** `_b64`: without the padding. */
  function Bare(bs: Bytes): string {
    StripPadding(Encode(bs))
  }

  // ---- Decoding -------------------------------------------------------------------------------

  /** Position in the quad, bits left over, padding seen, bytes so far, and whether padding ended it. */
  datatype Scan = Scan(quad: nat, left: nat, pads: nat, out: Bytes, done: bool) {
    predicate Ok() {
      (quad == 0 || (quad == 1 && left < 64) || (quad == 2 && left < 16) || (quad == 3 && left < 4))
    }
  }

  const Start: Scan := Scan(0, 0, 0, [], false)

  function Take(s: Scan, v: nat): (r: Scan)
    requires s.Ok() && v < 64
    ensures r.Ok()
  {
    match s.quad
    case 0 => Scan(1, v, 0, s.out, false)
    case 1 => Scan(2, v % 16, 0, s.out + [s.left * 4 + v / 16], false)
    case 2 => Scan(3, v % 4, 0, s.out + [s.left * 16 + v / 4], false)
    case _ => Scan(0, 0, 0, s.out + [s.left * 64 + v], false)
  }

  function Feed(s: Scan, c: char): (r: Scan)
    requires s.Ok()
    ensures r.Ok()
  {
    if s.done then s
    else if c == '=' then
      if s.quad < 2 then s
      else if s.quad + s.pads + 1 >= 4 then s.(done := true)
      else s.(pads := s.pads + 1)
    else
      match Sextet(c)
      case None => s
      case Some(v) => Take(s, v)
  }

  function FeedAll(s: Scan, text: string): (r: Scan)
    requires s.Ok()
    ensures r.Ok()
    decreases |text|
  {
    if text == "" then s else FeedAll(Feed(s, text[0]), text[1..])
  }

  /** Decoding the UTF-8 bytes of a text: those of a character outside ASCII are skipped too. */
  function DecodeBytes(text: string): Option<Bytes> {
    var s := FeedAll(Start, text);
    if s.done || s.quad == 0 then Some(s.out) else None
  }

  /** Decoding a text itself, which has to be ASCII. */
  function Decode(text: string): Option<Bytes> {
    if exists c :: c in text && c >= 128 as char then None else DecodeBytes(text)
  }

  /** `_unb64`: the padding is put back first. */
  function DecodeBare(text: string): Option<Bytes> {
    Decode(text + Padding((4 - |text| % 4) % 4))
  }

  // ---- Round trips ----------------------------------------------------------------------------

  lemma {:induction false} FeedAppend(s: Scan, a: string, b: string)
    requires s.Ok()
    ensures FeedAll(s, a + b) == FeedAll(FeedAll(s, a), b)
    decreases |a|
  {
    if a == "" {
      assert a + b == b;
    } else {
      assert (a + b)[0] == a[0] && (a + b)[1..] == a[1..] + b;
      FeedAppend(Feed(s, a[0]), a[1..], b);
    }
  }

  function Fresh(out: Bytes): Scan { Scan(0, 0, 0, out, false) }

  lemma FeedSingle(s: Scan, a: char)
    requires s.Ok()
    ensures FeedAll(s, [a]) == Feed(s, a)
  {
    assert [a][1..] == "";
    assert FeedAll(Feed(s, a), "") == Feed(s, a);
  }

  lemma FeedTwo(s: Scan, a: char, b: char)
    requires s.Ok()
    ensures FeedAll(s, [a, b]) == Feed(Feed(s, a), b)
  {
    FeedSingle(s, a);
    FeedSingle(Feed(s, a), b);
    FeedAppend(s, [a], [b]);
    assert [a] + [b] == [a, b];
  }

  lemma FeedFour(s: Scan, a: char, b: char, c: char, d: char)
    requires s.Ok()
    ensures FeedAll(s, [a, b, c, d]) == Feed(Feed(Feed(Feed(s, a), b), c), d)
  {
    assert [a, b, c, d] == [a, b] + [c, d];
    FeedAppend(s, [a, b], [c, d]);
    FeedTwo(s, a, b);
    FeedTwo(Feed(Feed(s, a), b), c, d);
  }

  lemma FirstByte(out: Bytes, x: Byte, h: nat)
    requires h < 16
    ensures Feed(Feed(Fresh(out), Symbol(x / 4)), Symbol(x % 4 * 16 + h)) == Scan(2, h, 0, out + [x], false)
  {
    SymbolRead(x / 4);
    SymbolRead(x % 4 * 16 + h);
  }

  lemma SecondByte(out: Bytes, y: Byte, l: nat)
    requires l < 4
    ensures Feed(Scan(2, y / 16, 0, out, false), Symbol(y % 16 * 4 + l)) == Scan(3, l, 0, out + [y], false)
  {
    SymbolRead(y % 16 * 4 + l);
  }

  lemma ThirdByte(out: Bytes, z: Byte)
    ensures Feed(Scan(3, z / 64, 0, out, false), Symbol(z % 64)) == Fresh(out + [z])
  {
    SymbolRead(z % 64);
  }

  lemma FeedGroup(out: Bytes, x: Byte, y: Byte, z: Byte)
    ensures FeedAll(Fresh(out), Group(x, y, z)) == Fresh(out + [x, y, z])
  {
    FeedFour(Fresh(out), Symbol(x / 4), Symbol(x % 4 * 16 + y / 16), Symbol(y % 16 * 4 + z / 64), Symbol(z % 64));
    FirstByte(out, x, y / 16);
    SecondByte(out + [x], y, z / 64);
    ThirdByte(out + [x] + [y], z);
    assert out + [x] + [y] + [z] == out + [x, y, z];
  }

  lemma FeedOne(out: Bytes, x: Byte)
    ensures FeedAll(Fresh(out), [Symbol(x / 4), Symbol(x % 4 * 16), '=', '=']) == Scan(2, 0, 1, out + [x], true)
  {
    FeedFour(Fresh(out), Symbol(x / 4), Symbol(x % 4 * 16), '=', '=');
    FirstByte(out, x, 0);
  }

  lemma FeedPair(out: Bytes, x: Byte, y: Byte)
    ensures FeedAll(Fresh(out), [Symbol(x / 4), Symbol(x % 4 * 16 + y / 16), Symbol(y % 16 * 4), '='])
         == Scan(3, 0, 0, out + [x, y], true)
  {
    FeedFour(Fresh(out), Symbol(x / 4), Symbol(x % 4 * 16 + y / 16), Symbol(y % 16 * 4), '=');
    FirstByte(out, x, y / 16);
    SecondByte(out + [x], y, 0);
    assert out + [x] + [y] == out + [x, y];
  }

  lemma {:induction false} ScanEncoded(out: Bytes, bs: Bytes)
    ensures var s := FeedAll(Fresh(out), Encode(bs)); (s.done || s.quad == 0) && s.out == out + bs
    decreases |bs|
  {
    if |bs| == 0 {
      assert out + bs == out;
    } else if |bs| == 1 {
      FeedOne(out, bs[0]);
      assert bs == [bs[0]];
    } else if |bs| == 2 {
      FeedPair(out, bs[0], bs[1]);
      assert bs == [bs[0], bs[1]];
    } else {
      var (head, rest) := ([bs[0], bs[1], bs[2]], bs[3..]);
      assert bs == head + rest && out + (head + rest) == out + head + rest;
      FeedGroup(out, bs[0], bs[1], bs[2]);
      FeedAppend(Fresh(out), Group(bs[0], bs[1], bs[2]), Encode(rest));
      ScanEncoded(out + head, rest);
    }
  }

  /** The text is symbols, then at most two padding characters. */
  predicate IsSymbol(c: char) { exists n :: 0 <= n < 64 && c == Symbol(n) }

  predicate Symbols(s: string) {
    forall i :: 0 <= i < |s| ==> IsSymbol(s[i])
  }

  lemma TwoSymbols(a: nat, b: nat)
    requires a < 64 && b < 64
    ensures Symbols([Symbol(a), Symbol(b)])
  {
    assert IsSymbol(Symbol(a)) && IsSymbol(Symbol(b));
  }

  predicate Shape(text: string, body: string, n: nat) {
    text == body + Padding(n) && Symbols(body) && n <= 2 && |body| % 4 == (4 - n) % 4
  }

  lemma TailShape(bs: Bytes) returns (body: string, n: nat)
    requires 1 <= |bs| <= 2
    ensures Shape(Encode(bs), body, n)
  {
    var a := bs[0] / 4;
    if |bs| == 1 {
      body, n := [Symbol(a), Symbol(bs[0] % 4 * 16)], 2;
      TwoSymbols(a, bs[0] % 4 * 16);
      assert Padding(2) == "=" + Padding(1) == "==";
    } else {
      var (b, c) := (bs[0] % 4 * 16 + bs[1] / 16, bs[1] % 16 * 4);
      body, n := [Symbol(a), Symbol(b)] + [Symbol(c)], 1;
      TwoSymbols(a, b);
      assert IsSymbol(Symbol(c)) && Padding(1) == "=";
    }
  }

  lemma GroupShape(x: Byte, y: Byte, z: Byte, rest: string, body: string, n: nat)
    requires Shape(rest, body, n)
    ensures Shape(Group(x, y, z) + rest, Group(x, y, z) + body, n)
  {
    var (a, b) := (x / 4, x % 4 * 16 + y / 16);
    var (c, d) := (y % 16 * 4 + z / 64, z % 64);
    TwoSymbols(a, b);
    TwoSymbols(c, d);
    assert Group(x, y, z) == [Symbol(a), Symbol(b)] + [Symbol(c), Symbol(d)];
    assert Group(x, y, z) + (body + Padding(n)) == Group(x, y, z) + body + Padding(n);
  }

  lemma {:induction false} EncodedShape(bs: Bytes) returns (body: string, n: nat)
    ensures Shape(Encode(bs), body, n)
  {
    if |bs| == 0 {
      body, n := "", 0;
    } else if |bs| <= 2 {
      body, n := TailShape(bs);
    } else {
      var rest, k := EncodedShape(bs[3..]);
      GroupShape(bs[0], bs[1], bs[2], Encode(bs[3..]), rest, k);
      body, n := Group(bs[0], bs[1], bs[2]) + rest, k;
    }
  }

  lemma {:induction false} StripRestores(body: string, n: nat)
    requires Symbols(body)
    ensures StripPadding(body + Padding(n)) == body
  {
    if n == 0 {
      assert body + Padding(0) == body;
      if body != "" {
        assert IsSymbol(body[|body| - 1]);
        var k :| 0 <= k < 64 && body[|body| - 1] == Symbol(k);
        SymbolRead(k);
      }
    } else {
      PaddingEnds(n);
      assert (body + Padding(n))[..|body + Padding(n)| - 1] == body + Padding(n - 1);
      StripRestores(body, n - 1);
    }
  }

  lemma {:induction false} PaddingEnds(n: nat)
    requires n > 0
    ensures Padding(n) == Padding(n - 1) + "=" && |Padding(n)| == n
  {
    if n > 1 { PaddingEnds(n - 1); }
  }

  lemma {:induction false} SymbolsAreAscii(body: string, n: nat)
    requires Symbols(body)
    ensures forall c :: c in body ==> c < 128 as char && c != '.'
    ensures forall c :: c in Padding(n) ==> c == '='
  {
    forall c | c in body ensures c < 128 as char && c != '.' {
      var i :| 0 <= i < |body| && body[i] == c;
      assert IsSymbol(body[i]);
      var k :| 0 <= k < 64 && body[i] == Symbol(k);
      SymbolRead(k);
    }
    if n > 0 { SymbolsAreAscii(body, n - 1); }
  }

  lemma DecodeEncoded(bs: Bytes)
    ensures Decode(Encode(bs)) == Some(bs)
  {
    var body, n := EncodedShape(bs);
    SymbolsAreAscii(body, n);
    forall c | c in Encode(bs) ensures c < 128 as char {
      assert c in body || c in Padding(n);
    }
    ScanEncoded([], bs);
    assert [] + bs == bs;
  }

  lemma PaddingLength(k: nat, n: nat)
    requires n <= 2 && k % 4 == (4 - n) % 4
    ensures (4 - k % 4) % 4 == n
  {}

  lemma BareShape(bs: Bytes)
    ensures Bare(bs) + Padding((4 - |Bare(bs)| % 4) % 4) == Encode(bs)
    ensures '.' !in Bare(bs)
  {
    var body, n := EncodedShape(bs);
    StripRestores(body, n);
    SymbolsAreAscii(body, n);
    PaddingLength(|body|, n);
  }

  /** Decoding undoes encoding, with the padding kept and with it stripped, for every byte string. */
  lemma RoundTrip(bs: Bytes)
    ensures Decode(Encode(bs)) == Some(bs)
    ensures DecodeBare(Bare(bs)) == Some(bs)
    ensures '.' !in Bare(bs)
  {
    DecodeEncoded(bs);
    BareShape(bs);
  }

  /** The decoder is lenient: a character outside the alphabet may stand anywhere, in a text if it is ASCII. */
  lemma StrayIgnored(a: string, c: char, b: string)
    requires c != '=' && Sextet(c).None?
    ensures DecodeBytes(a + ([c] + b)) == DecodeBytes(a + b)
    ensures c < 128 as char ==> Decode(a + ([c] + b)) == Decode(a + b)
  {
    FeedAppend(Start, a, [c] + b);
    FeedAppend(Start, a, b);
    FeedAppend(FeedAll(Start, a), [c], b);
    FeedSingle(FeedAll(Start, a), c);
    if c < 128 as char {
      forall d ensures d in a + b && d >= 128 as char <==> d in a + ([c] + b) && d >= 128 as char {}
    }
  }

  /** The test vectors of section 10 of RFC 4648, as far as they go, and both ends of each run of the alphabet. */
  lemma Vectors()
    ensures Encode([]) == "" && Encode([102]) == "Zg==" && Encode([102, 111]) == "Zm8=" && Encode([102, 111, 111]) == "Zm9v"
    ensures Encode([1, 150, 179, 211, 223, 191]) == "AZaz09-_"
    ensures Sextet('+') == Some(62) && Sextet('/') == Some(63)
  {}
}
