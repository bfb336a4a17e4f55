/** UTF-8 (section 3 of RFC 3629) and Base64 (section 4 of RFC 4648). */
module Encodings {
  import opened Wrappers

  type Byte = b: int | 0 <= b < 256
  type Sextet = v: int | 0 <= v < 64

  // ---- Base64 ---------------------------------------------------------------------------------

  function Digit(v: Sextet): char {
    if v < 26 then (v + 'A' as int) as char
    else if v < 52 then (v - 26 + 'a' as int) as char
    else if v < 62 then (v - 52 + '0' as int) as char
    else if v == 62 then '+' else '/'
  }

  function Value(c: char): Option<Sextet> {
    if 'A' <= c <= 'Z' then Some(c as int - 'A' as int)
    else if 'a' <= c <= 'z' then Some(c as int - 'a' as int + 26)
    else if '0' <= c <= '9' then Some(c as int - '0' as int + 52)
    else if c == '+' then Some(62)
    else if c == '/' then Some(63)
    else None
  }

  lemma DigitValue(v: Sextet)
    ensures Value(Digit(v)) == Some(v) && Digit(v) != '='
  {
  }

  function Base64(bytes: seq<Byte>): string {
    if |bytes| == 0 then ""
    else if |bytes| == 1 then [Digit(bytes[0] / 4), Digit(bytes[0] % 4 * 16), '=', '=']
    else if |bytes| == 2 then
      [Digit(bytes[0] / 4), Digit(bytes[0] % 4 * 16 + bytes[1] / 16), Digit(bytes[1] % 16 * 4), '=']
    else
      [Digit(bytes[0] / 4), Digit(bytes[0] % 4 * 16 + bytes[1] / 16),
       Digit(bytes[1] % 16 * 4 + bytes[2] / 64), Digit(bytes[2] % 64)] + Base64(bytes[3..])
  }

  // Padded groups of four digits; anything else is not Base64.
  function FromBase64(text: string): Option<seq<Byte>> {
    if text == "" then Some([])
    else if |text| < 4 then None
    else
      var a, b, c, d := Value(text[0]), Value(text[1]), Value(text[2]), Value(text[3]);
      if a.None? || b.None? then None
      else if text[2..] == "==" then Some([a.value * 4 + b.value / 16])
      else if c.None? then None
      else if text[3..] == "=" then Some([a.value * 4 + b.value / 16, b.value % 16 * 16 + c.value / 4])
      else if d.None? then None
      else
        match FromBase64(text[4..])
        case None => None
        case Some(rest) =>
          Some([a.value * 4 + b.value / 16, b.value % 16 * 16 + c.value / 4, c.value % 4 * 64 + d.value] + rest)
  }

  // Splitting three bytes into four sextets loses nothing.
  lemma Sextets(a: Byte, b: Byte, c: Byte)
    ensures a / 4 * 4 + (a % 4 * 16 + b / 16) / 16 == a
    ensures (a % 4 * 16 + b / 16) % 16 * 16 + (b % 16 * 4 + c / 64) / 4 == b
    ensures (b % 16 * 4 + c / 64) % 4 * 64 + c % 64 == c
    ensures a / 4 * 4 + a % 4 * 16 / 16 == a
    ensures (a % 4 * 16 + b / 16) % 16 * 16 + b % 16 * 4 / 4 == b
  {
  }

  lemma OneRoundTrip(a: Byte)
    ensures FromBase64(Base64([a])) == Some([a])
  {
    var text := Base64([a]);
    Sextets(a, 0, 0);
    DigitValue(a / 4);
    DigitValue(a % 4 * 16);
    assert text[2..] == "==";
  }

  lemma TwoRoundTrip(a: Byte, b: Byte)
    ensures FromBase64(Base64([a, b])) == Some([a, b])
  {
    var text := Base64([a, b]);
    Sextets(a, b, 0);
    DigitValue(a / 4);
    DigitValue(a % 4 * 16 + b / 16);
    DigitValue(b % 16 * 4);
    assert text[2..][0] == text[2] && text[3..] == "=";
  }

  lemma GroupRoundTrip(a: Byte, b: Byte, c: Byte, rest: seq<Byte>)
    requires FromBase64(Base64(rest)) == Some(rest)
    ensures FromBase64(Base64([a, b, c] + rest)) == Some([a, b, c] + rest)
  {
    var bytes := [a, b, c] + rest;
    assert bytes[3..] == rest;
    var text := Base64(bytes);
    assert text[4..] == Base64(rest);
    Sextets(a, b, c);
    DigitValue(a / 4);
    DigitValue(a % 4 * 16 + b / 16);
    DigitValue(b % 16 * 4 + c / 64);
    DigitValue(c % 64);
    assert text[2..][0] == text[2] && text[3..][0] == text[3];
  }

  lemma Triple(bytes: seq<Byte>)
    requires |bytes| > 2
    ensures bytes == [bytes[0], bytes[1], bytes[2]] + bytes[3..]
  {
  }

  lemma ShortRoundTrip(bytes: seq<Byte>)
    requires 0 < |bytes| <= 2
    ensures FromBase64(Base64(bytes)) == Some(bytes)
  {
    if |bytes| == 1 {
      assert bytes == [bytes[0]];
      OneRoundTrip(bytes[0]);
    } else {
      assert bytes == [bytes[0], bytes[1]];
      TwoRoundTrip(bytes[0], bytes[1]);
    }
  }

  lemma {:induction false} Base64RoundTrip(bytes: seq<Byte>)
    ensures FromBase64(Base64(bytes)) == Some(bytes)
    decreases |bytes|
  {
    if 0 < |bytes| <= 2 {
      ShortRoundTrip(bytes);
    } else if bytes != [] {
      Base64RoundTrip(bytes[3..]);
      Triple(bytes);
      GroupRoundTrip(bytes[0], bytes[1], bytes[2], bytes[3..]);
    }
  }

  predicate DigitsOnly(text: string) {
    forall c :: c in text ==> Value(c).Some? || c == '='
  }

  lemma {:induction false} Base64Digits(bytes: seq<Byte>)
    ensures DigitsOnly(Base64(bytes))
    decreases |bytes|
  {
    if |bytes| > 2 { Base64Digits(bytes[3..]); }
  }

  // ---- UTF-8 ----------------------------------------------------------------------------------

  function Utf8Char(c: char): (r: seq<Byte>)
    ensures 1 <= |r| <= 4
  {
    var v := c as int;
    if v < 0x80 then [v]
    else if v < 0x800 then [0xC0 + v / 0x40, 0x80 + v % 0x40]
    else if v < 0x10000 then [0xE0 + v / 0x1000, 0x80 + v / 0x40 % 0x40, 0x80 + v % 0x40]
    else [0xF0 + v / 0x40000, 0x80 + v / 0x1000 % 0x40, 0x80 + v / 0x40 % 0x40, 0x80 + v % 0x40]
  }

  function Utf8(s: string): seq<Byte> {
    if s == "" then [] else Utf8Char(s[0]) + Utf8(s[1..])
  }

  function Length(lead: Byte): nat {
    if lead < 0x80 then 1 else if lead < 0xE0 then 2 else if lead < 0xF0 then 3 else 4
  }

  function Scalar(bytes: seq<Byte>): int
    requires 1 <= |bytes| <= 4
  {
    var a: int := bytes[0];
    if |bytes| == 1 then a
    else
      var b: int := bytes[1] as int - 0x80;
      if |bytes| == 2 then (a - 0xC0) * 0x40 + b
      else
        var c: int := bytes[2] as int - 0x80;
        if |bytes| == 3 then (a - 0xE0) * 0x1000 + b * 0x40 + c
        else (a - 0xF0) * 0x40000 + b * 0x1000 + c * 0x40 + (bytes[3] as int - 0x80)
  }

  predicate IsScalar(v: int) {
    0 <= v < 0xD800 || 0xE000 <= v < 0x11_0000
  }

  // Well-formed UTF-8 only: each step must be the shortest form of one scalar value.
  function FromUtf8(bytes: seq<Byte>): Option<string> {
    if bytes == [] then Some("")
    else
      var n := Length(bytes[0]);
      if |bytes| < n || !IsScalar(Scalar(bytes[..n])) || Utf8Char(Scalar(bytes[..n]) as char) != bytes[..n] then None
      else
        match FromUtf8(bytes[n..])
        case None => None
        case Some(rest) => Some([Scalar(bytes[..n]) as char] + rest)
  }

  lemma CharRoundTrip(c: char)
    ensures Length(Utf8Char(c)[0]) == |Utf8Char(c)| && Scalar(Utf8Char(c)) == c as int
  {
    var v := c as int;
    assert v == v / 0x40 * 0x40 + v % 0x40;
    assert v / 0x40 == v / 0x1000 * 0x40 + v / 0x40 % 0x40;
    assert v / 0x1000 == v / 0x40000 * 0x40 + v / 0x1000 % 0x40;
  }

  lemma CharIsScalar(c: char)
    ensures IsScalar(c as int) && c as int as char == c
  {
  }

  // One decoding step on the encoding of one character.
  lemma DecodesOne(c: char, rest: seq<Byte>)
    ensures FromUtf8(Utf8Char(c) + rest) ==
              match FromUtf8(rest)
              case None => None
              case Some(s) => Some([c] + s)
  {
    var head := Utf8Char(c);
    var bytes := head + rest;
    CharRoundTrip(c);
    CharIsScalar(c);
    assert bytes[0] == head[0] && bytes[..|head|] == head && bytes[|head|..] == rest;
  }

  lemma {:induction false} Utf8RoundTrip(s: string)
    ensures FromUtf8(Utf8(s)) == Some(s)
  {
    if s != "" {
      Utf8RoundTrip(s[1..]);
      DecodesOne(s[0], Utf8(s[1..]));
      assert s == [s[0]] + s[1..];
    }
  }

  // ---- Text as the runtime decodes it -------------------------------------------------------------

  // What a runtime does with text that is not Base64, and with bytes that are not UTF-8, is left open.
  datatype Leniency = Leniency(base64: string -> seq<Byte>, utf8: seq<Byte> -> string)

  function BytesOf(lenient: Leniency, text: string): seq<Byte> {
    match FromBase64(text) case Some(bytes) => bytes case None => lenient.base64(text)
  }

  function TextOf(lenient: Leniency, bytes: seq<Byte>): string {
    match FromUtf8(bytes) case Some(s) => s case None => lenient.utf8(bytes)
  }

  function Letters(first: char, n: nat): (r: string)
    requires first as int + n <= 128
    ensures |r| == n && forall i :: 0 <= i < n ==> r[i] == (first as int + i) as char
  {
    seq(n, i requires 0 <= i < n => (first as int + i) as char)
  }

  // The alphabet of section 4 of RFC 4648: capitals, small letters, digits, plus and slash.
  lemma DigitIsStandard(v: Sextet)
    ensures Digit(v) == (Letters('A', 26) + Letters('a', 26) + Letters('0', 10) + ['+', '/'])[v]
  {
  }

  // Three bytes are the digits of the four sextets with the same 24 bits, most significant first.
  lemma GroupIsStandard(a: Byte, b: Byte, c: Byte) returns (w: Sextet, x: Sextet, y: Sextet, z: Sextet)
    ensures a * 0x10000 + b * 0x100 + c == ((w * 64 + x) * 64 + y) * 64 + z
    ensures Base64([a, b, c]) == [Digit(w), Digit(x), Digit(y), Digit(z)]
  {
    w, x, y, z := a / 4, a % 4 * 16 + b / 16, b % 16 * 4 + c / 64, c % 64;
    assert [a, b, c][3..] == [];
  }

  // A character takes one to four bytes by its size; the lead byte tells how many, and every other one carries
  // six of its bits.
  lemma Utf8Form(c: char)
    ensures var r, v := Utf8Char(c), c as int;
            && (|r| == 1 <==> v < 0x80) && (|r| <= 2 <==> v < 0x800) && (|r| <= 3 <==> v < 0x10000)
            && (|r| == 1 ==> r[0] == v) && (|r| == 2 ==> r[0] == 0xC0 + v / 0x40)
            && (|r| == 3 ==> r[0] == 0xE0 + v / 0x1000) && (|r| == 4 ==> r[0] == 0xF0 + v / 0x40000)
            && (|r| > 1 ==> r[|r| - 1] == 0x80 + v % 0x40)
            && (|r| > 2 ==> r[|r| - 2] == 0x80 + v / 0x40 % 0x40)
            && (|r| > 3 ==> r[1] == 0x80 + v / 0x1000 % 0x40)
  {
  }

  // The owner decoder: decode, re-encode, compare.
  function DecodeOwner(lenient: Leniency, encoded: string): Option<string> {
    var decoded := TextOf(lenient, BytesOf(lenient, encoded));
    if Base64(Utf8(decoded)) != encoded || decoded == "" then None else Some(decoded)
  }

  // However lenient the runtime's decoders are, exactly the canonical Base64 of non-empty UTF-8 is accepted.
  lemma OwnerIsCanonical(lenient: Leniency, encoded: string, owner: string)
    ensures DecodeOwner(lenient, encoded) == Some(owner) <==> owner != "" && encoded == Base64(Utf8(owner))
  {
    Base64RoundTrip(Utf8(owner));
    Utf8RoundTrip(owner);
  }
}
