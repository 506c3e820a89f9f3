/** The UTF-8 encoding (section 3 of RFC 3629) as far as it is needed: encoding, and that it loses nothing. */
module Utf8 {
  import opened Wrappers
  import opened Base64

  function Char(c: char): (bs: Bytes)
    ensures 1 <= |bs| <= 4
  {
    var n := c as int;
    if n < 0x80 then [n]
    else if n < 0x800 then [0xC0 + n / 0x40, 0x80 + n % 0x40]
    else if n < 0x1_0000 then [0xE0 + n / 0x40 / 0x40, 0x80 + n / 0x40 % 0x40, 0x80 + n % 0x40]
    else [0xF0 + n / 0x40 / 0x40 / 0x40, 0x80 + n / 0x40 / 0x40 % 0x40, 0x80 + n / 0x40 % 0x40, 0x80 + n % 0x40]
  }

  function Encoded(s: string): (bs: Bytes)
    ensures |bs| >= |s|
  {
    if s == "" then [] else Char(s[0]) + Encoded(s[1..])
  }

  /** The first byte tells how many follow. */
  function Width(first: Byte): nat {
    if first < 0x80 then 1 else if first < 0xE0 then 2 else if first < 0xF0 then 3 else 4
  }

  lemma WidthOf(c: char)
    ensures |Char(c)| == Width(Char(c)[0])
  {}

  /** The code point, read back from its bytes. */
  function Point(bs: seq<int>): int
    requires 1 <= |bs| <= 4
  {
    match |bs|
    case 1 => bs[0]
    case 2 => (bs[0] - 0xC0) * 0x40 + (bs[1] - 0x80)
    case 3 => ((bs[0] - 0xE0) * 0x40 + (bs[1] - 0x80)) * 0x40 + (bs[2] - 0x80)
    case _ => (((bs[0] - 0xF0) * 0x40 + (bs[1] - 0x80)) * 0x40 + (bs[2] - 0x80)) * 0x40 + (bs[3] - 0x80)
  }

  lemma PointOf(c: char)
    ensures Point(Char(c)) == c as int
  {}

  lemma CharUnique(c: char, d: char, x: Bytes, y: Bytes)
    requires Char(c) + x == Char(d) + y
    ensures c == d && x == y
  {
    var (s, t) := (Char(c), Char(d));
    WidthOf(c);
    WidthOf(d);
    assert s[0] == (s + x)[0] == (t + y)[0] == t[0];
    assert s == (s + x)[..|s|] == (t + y)[..|t|] == t;
    assert x == (s + x)[|s|..] == (t + y)[|t|..] == y;
    PointOf(c);
    PointOf(d);
  }

  /** Different texts have different encodings. */
  lemma {:induction false} EncodedUnique(s: string, t: string)
    requires Encoded(s) == Encoded(t)
    ensures s == t
  {
    if s != "" && t != "" {
      CharUnique(s[0], t[0], Encoded(s[1..]), Encoded(t[1..]));
      EncodedUnique(s[1..], t[1..]);
      assert s == [s[0]] + s[1..] && t == [t[0]] + t[1..];
    }
  }

  // ---- Decoding -------------------------------------------------------------------------------

  predicate IsPoint(n: int) { 0 <= n < 0xD800 || 0xE000 <= n < 0x11_0000 }

  /** Strict: bytes are accepted only as some character's own encoding. */
  function Decoded(bs: Bytes): Option<string>
    decreases |bs|
  {
    if bs == [] then Some("")
    else
      var w := Width(bs[0]);
      if |bs| < w then None
      else
        var n := Point(bs[..w]);
        if !IsPoint(n) || Char(n as char) != bs[..w] then None
        else
          match Decoded(bs[w..])
          case None => None
          case Some(rest) => Some([n as char] + rest)
  }

  /** Decoding undoes encoding. */
  lemma {:induction false} DecodedEncoded(s: string)
    ensures Decoded(Encoded(s)) == Some(s)
  {
    if s != "" {
      var (c, rest) := (s[0], s[1..]);
      WidthOf(c);
      PointOf(c);
      var bs := Char(c) + Encoded(rest);
      assert bs[0] == Char(c)[0] && bs[..|Char(c)|] == Char(c) && bs[|Char(c)|..] == Encoded(rest);
      DecodedEncoded(rest);
      assert s == [c] + rest;
    }
  }

  /** One character of each length: a letter, an accented one, the euro sign, a face. */
  lemma Examples()
    ensures Encoded("A") == [0x41] && Encoded("\U{E9}") == [0xC3, 0xA9]
    ensures Encoded("\U{20AC}") == [0xE2, 0x82, 0xAC] && Encoded("\U{1F600}") == [0xF0, 0x9F, 0x98, 0x80]
  {}
}
