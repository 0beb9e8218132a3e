/**
 * `encodeURIComponent` as section 15.1.3.4 of ECMA-262 (5.1) defines it, over
 * Unicode scalar values, together with the matching `decodeURIComponent`
 * (section 15.1.3.2), which serves as its inverse: every command path the
 * player builds embeds user text through the encoder, and the decoder shows
 * that the text can be recovered from the path.
 */
module Uri {
  import opened Wrappers

  type byte = b: int | 0 <= b < 256

  /** The unreservedURIComponentSet: letters, decimal digits and the marks - _ . ! ~ * ' ( ). */
  predicate IsUnreserved(c: char) {
    ('A' <= c <= 'Z') || ('a' <= c <= 'z') || ('0' <= c <= '9') || IsMark(c)
  }

  /** The marks - _ . ! ~ * ' ( ) of the unreserved set. */
  predicate IsMark(c: char) {
    c == '-' || c == '_' || c == '.' || c == '!' || c == '~' || c == '*' || c == '\'' || c == '(' || c == ')'
  }

  /** The characters an encoded component is made of. */
  predicate IsEncodedChar(c: char) {
    IsUnreserved(c) || c == '%'
  }

  /** UTF-8 octets of one scalar value (the table of section 15.1.3). */
  function Utf8(c: char): (bs: seq<byte>)
    ensures 1 <= |bs| <= 4
  {
    var cp := c as int;
    if cp < 0x80 then [cp]
    else if cp < 0x800 then [0xC0 + cp / 64, 0x80 + cp % 64]
    else if cp < 0x10000 then [0xE0 + cp / 64 / 64, 0x80 + cp / 64 % 64, 0x80 + cp % 64]
    else [0xF0 + cp / 64 / 64 / 64, 0x80 + cp / 64 / 64 % 64, 0x80 + cp / 64 % 64, 0x80 + cp % 64]
  }

  /** Upper-case hexadecimal digit, as the encoder writes it. */
  function HexDigit(d: int): (c: char)
    requires 0 <= d < 16
    ensures IsUnreserved(c)
  {
    if d < 10 then ('0' as int + d) as char else ('A' as int + d - 10) as char
  }

  predicate IsHex(c: char) {
    ('0' <= c <= '9') || ('A' <= c <= 'F') || ('a' <= c <= 'f')
  }

  /** Value of a hexadecimal digit of either case, as the decoder reads it. */
  function HexValue(c: char): (v: int)
    requires IsHex(c)
    ensures 0 <= v < 16
  {
    if '0' <= c <= '9' then c as int - '0' as int
    else if 'A' <= c <= 'F' then c as int - 'A' as int + 10
    else c as int - 'a' as int + 10
  }

  /** "%XY" for one octet. */
  function Escape(b: byte): string {
    ['%', HexDigit(b / 16), HexDigit(b % 16)]
  }

  function Escapes(bs: seq<byte>): (s: string)
    ensures |s| == 3 * |bs|
  {
    if bs == [] then [] else Escape(bs[0]) + Escapes(bs[1..])
  }

  /** Escaped octets are written with '%' and hexadecimal digits only. */
  lemma {:induction false} EscapesAlphabet(bs: seq<byte>)
    ensures forall i :: 0 <= i < |Escapes(bs)| ==> IsEncodedChar(Escapes(bs)[i])
  {
    if bs != [] {
      EscapesAlphabet(bs[1..]);
      var head, tail := Escape(bs[0]), Escapes(bs[1..]);
      assert Escapes(bs) == head + tail;
      forall i | 0 <= i < |Escapes(bs)| ensures IsEncodedChar(Escapes(bs)[i]) {
        if i >= 3 { assert Escapes(bs)[i] == tail[i - 3]; }
      }
    }
  }

  function EncodeChar(c: char): (e: string)
    ensures forall i :: 0 <= i < |e| ==> IsEncodedChar(e[i])
  {
    if IsUnreserved(c) then [c] else EscapesAlphabet(Utf8(c)); Escapes(Utf8(c))
  }

  /** encodeURIComponent: unreserved characters stay, every other character becomes its escaped UTF-8 octets. */
  function Encode(s: string): (r: string)
    ensures |r| >= |s|
    ensures forall i :: 0 <= i < |r| ==> IsEncodedChar(r[i])
  {
    if s == [] then [] else EncodeChar(s[0]) + Encode(s[1..])
  }

  /** The octet escaped at position i of s, if there is a well-formed "%XY" there. */
  function OctetAt(s: string, i: nat): (r: Option<byte>)
    ensures r.Some? ==> i + 3 <= |s| && s[i] == '%'
  {
    if i + 3 <= |s| && s[i] == '%' && IsHex(s[i + 1]) && IsHex(s[i + 2])
    then Some(HexValue(s[i + 1]) * 16 + HexValue(s[i + 2]))
    else None
  }

  /** A continuation octet 10xxxxxx at position i, as its six payload bits. */
  function TrailAt(s: string, i: nat): (r: Option<int>)
    ensures r.Some? ==> i + 3 <= |s| && 0 <= r.value < 64
  {
    match OctetAt(s, i)
    case Some(b) => if 0x80 <= b < 0xC0 then Some(b - 0x80) else None
    case None => None
  }

  /**
   * One character decoded from the escapes at the start of s, and how many
   * characters of s it used. Fails on a malformed escape, a bad lead or
   * continuation octet, an overlong form, a surrogate or a value past U+10FFFF.
   */
  function DecodeEscaped(s: string): (r: Option<(char, nat)>)
    ensures r.Some? ==> 3 <= r.value.1 <= |s|
  {
    match OctetAt(s, 0)
    case None => None
    case Some(b0) =>
      if b0 < 0x80 then Some((b0 as char, 3))
      else if 0xC0 <= b0 < 0xE0 then
        match TrailAt(s, 3)
        case None => None
        case Some(t1) =>
          var v := (b0 - 0xC0) * 64 + t1;
          if 0x80 <= v then Some((v as char, 6)) else None
      else if 0xE0 <= b0 < 0xF0 then
        match (TrailAt(s, 3), TrailAt(s, 6))
        case (Some(t1), Some(t2)) =>
          var v := ((b0 - 0xE0) * 64 + t1) * 64 + t2;
          if 0x800 <= v && !(0xD800 <= v < 0xE000) then Some((v as char, 9)) else None
        case _ => None
      else if 0xF0 <= b0 < 0xF8 then
        match (TrailAt(s, 3), TrailAt(s, 6), TrailAt(s, 9))
        case (Some(t1), Some(t2), Some(t3)) =>
          var v := (((b0 - 0xF0) * 64 + t1) * 64 + t2) * 64 + t3;
          if 0x10000 <= v < 0x110000 then Some((v as char, 12)) else None
        case _ => None
      else None
  }

  function Cons(c: char, r: Option<string>): Option<string> {
    match r
    case Some(t) => Some([c] + t)
    case None => None
  }

  /** decodeURIComponent, or None where it throws URIError. */
  function Decode(s: string): Option<string>
    decreases |s|
  {
    if s == [] then Some([])
    else if s[0] != '%' then Cons(s[0], Decode(s[1..]))
    else match DecodeEscaped(s)
      case None => None
      case Some((c, k)) => Cons(c, Decode(s[k..]))
  }

  lemma HexRoundTrip(d: int)
    requires 0 <= d < 16
    ensures IsHex(HexDigit(d)) && HexValue(HexDigit(d)) == d
  {
  }

  /** One escape, whatever follows it, reads back as its octet. */
  lemma OctetOfEscape(b: byte, rest: string)
    ensures OctetAt(Escape(b) + rest, 0) == Some(b)
  {
    HexRoundTrip(b / 16);
    HexRoundTrip(b % 16);
    var s := Escape(b) + rest;
    assert s[0] == '%' && s[1] == HexDigit(b / 16) && s[2] == HexDigit(b % 16);
  }

  /** Reading past a three-character prefix. */
  lemma OctetAtShift(e: string, rest: string, j: nat)
    requires |e| == 3
    ensures OctetAt(e + rest, 3 + j) == OctetAt(rest, j)
  {
    var s := e + rest;
    if j + 3 <= |rest| {
      assert s[3 + j] == rest[j] && s[4 + j] == rest[j + 1] && s[5 + j] == rest[j + 2];
    }
  }

  /** Escapes(bs) + rest carries octet bs[i] at position 3 i. */
  lemma {:induction false} OctetOfEscapes(bs: seq<byte>, rest: string, i: nat)
    requires i < |bs|
    ensures OctetAt(Escapes(bs) + rest, 3 * i) == Some(bs[i])
  {
    var head, tail := Escape(bs[0]), Escapes(bs[1..]) + rest;
    assert Escapes(bs) == head + Escapes(bs[1..]);
    assert Escapes(bs) + rest == head + tail;
    if i == 0 {
      OctetOfEscape(bs[0], tail);
    } else {
      OctetOfEscapes(bs[1..], rest, i - 1);
      OctetAtShift(head, tail, 3 * (i - 1));
      assert 3 + 3 * (i - 1) == 3 * i && bs[1..][i - 1] == bs[i];
    }
  }

  /** The escaped UTF-8 form of c carries its i-th octet at position 3 i. */
  lemma EscapedOctets(c: char, rest: string)
    ensures forall i :: 0 <= i < |Utf8(c)| ==> OctetAt(Escapes(Utf8(c)) + rest, 3 * i) == Some(Utf8(c)[i])
  {
    forall i | 0 <= i < |Utf8(c)| ensures OctetAt(Escapes(Utf8(c)) + rest, 3 * i) == Some(Utf8(c)[i]) {
      OctetOfEscapes(Utf8(c), rest, i);
    }
  }

  /** The escaped form of a character decodes to that character and uses all of it. */
  lemma DecodeEscapedChar(c: char, rest: string)
    requires !IsUnreserved(c)
    ensures DecodeEscaped(Escapes(Utf8(c)) + rest) == Some((c, |Escapes(Utf8(c))|))
  {
    var cp := c as int;
    if cp < 0x80 {
      DecodeEscapedOf(c, rest, 1);
    } else if cp < 0x800 {
      DecodeEscapedOf(c, rest, 2);
    } else if cp < 0x10000 {
      DecodeEscapedOf(c, rest, 3);
    } else {
      DecodeEscapedOf(c, rest, 4);
    }
  }

  /** The escaped form of a character whose UTF-8 form has n octets decodes to it, using 3 n characters. */
  lemma DecodeEscapedOf(c: char, rest: string, n: nat)
    requires n == (if c as int < 0x80 then 1 else if c as int < 0x800 then 2 else if c as int < 0x10000 then 3 else 4)
    ensures DecodeEscaped(Escapes(Utf8(c)) + rest) == Some((c, 3 * n)) && |Escapes(Utf8(c))| == 3 * n
  {
    var s := Escapes(Utf8(c)) + rest;
    EscapedOctets(c, rest);
    if n == 1 {
      DecodeOne(c, s);
    } else if n == 2 {
      DecodeTwo(c, s);
    } else if n == 3 {
      DecodeThree(c, s);
    } else {
      DecodeFour(c, s);
    }
  }

  lemma DecodeOne(c: char, s: string)
    requires c as int < 0x80
    requires forall i :: 0 <= i < |Utf8(c)| ==> OctetAt(s, 3 * i) == Some(Utf8(c)[i])
    ensures DecodeEscaped(s) == Some((c, 3)) && |Utf8(c)| == 1
  {
    assert OctetAt(s, 3 * 0) == Some(Utf8(c)[0]);
  }

  lemma DecodeTwo(c: char, s: string)
    requires 0x80 <= c as int < 0x800
    requires forall i :: 0 <= i < |Utf8(c)| ==> OctetAt(s, 3 * i) == Some(Utf8(c)[i])
    ensures DecodeEscaped(s) == Some((c, 6)) && |Utf8(c)| == 2
  {
    var bs := Utf8(c);
    assert OctetAt(s, 3 * 0) == Some(bs[0]);
    assert OctetAt(s, 3 * 1) == Some(bs[1]);
  }

  lemma DecodeThree(c: char, s: string)
    requires 0x800 <= c as int < 0x10000
    requires forall i :: 0 <= i < |Utf8(c)| ==> OctetAt(s, 3 * i) == Some(Utf8(c)[i])
    ensures DecodeEscaped(s) == Some((c, 9)) && |Utf8(c)| == 3
  {
    var bs := Utf8(c);
    assert OctetAt(s, 3 * 0) == Some(bs[0]);
    assert OctetAt(s, 3 * 1) == Some(bs[1]);
    assert OctetAt(s, 3 * 2) == Some(bs[2]);
  }

  lemma DecodeFour(c: char, s: string)
    requires 0x10000 <= c as int
    requires forall i :: 0 <= i < |Utf8(c)| ==> OctetAt(s, 3 * i) == Some(Utf8(c)[i])
    ensures DecodeEscaped(s) == Some((c, 12)) && |Utf8(c)| == 4
  {
    var bs := Utf8(c);
    assert OctetAt(s, 3 * 0) == Some(bs[0]);
    assert OctetAt(s, 3 * 1) == Some(bs[1]);
    assert OctetAt(s, 3 * 2) == Some(bs[2]);
    assert OctetAt(s, 3 * 3) == Some(bs[3]);
  }

  lemma DecodeEncodeChar(c: char, rest: string)
    ensures Decode(EncodeChar(c) + rest) == Cons(c, Decode(rest))
  {
    var s := EncodeChar(c) + rest;
    if IsUnreserved(c) {
      assert s[1..] == rest;
    } else {
      var e := Escapes(Utf8(c));
      DecodeEscapedChar(c, rest);
      assert s[0] == '%';
      assert s[|e|..] == rest;
    }
  }

  /** decodeURIComponent(encodeURIComponent(s)) == s. */
  lemma {:induction false} DecodeEncode(s: string)
    ensures Decode(Encode(s)) == Some(s)
  {
    if s != [] {
      DecodeEncode(s[1..]);
      DecodeEncodeChar(s[0], Encode(s[1..]));
      assert [s[0]] + s[1..] == s;
    }
  }

  /** Distinct texts give distinct encodings. */
  lemma EncodeInjective(a: string, b: string)
    requires Encode(a) == Encode(b)
    ensures a == b
  {
    DecodeEncode(a);
    DecodeEncode(b);
  }
}
