/**
 * The byte-level encodings the SDK applies through PHP built-ins: the UTF-8 bytes of
 * a string, `base64_encode` (section 4 of RFC 4648) and `urlencode`.
 */
module Encoding {
  import opened Php

  type Byte = b: int | 0 <= b < 256

  /** The UTF-8 encoding of one Unicode scalar value. */
  function Utf8Char(c: char): (bytes: seq<Byte>)
    ensures 1 <= |bytes| <= 4
    ensures c as int < 0x80 <==> bytes == [c as int]
  {
    var n := c as int;
    if n < 0x80 then [n]
    else if n < 0x800 then [0xC0 + n / 0x40, 0x80 + n % 0x40]
    else if n < 0x1_0000 then [0xE0 + n / 0x1000, 0x80 + (n / 0x40) % 0x40, 0x80 + n % 0x40]
    else [0xF0 + n / 0x4_0000, 0x80 + (n / 0x1000) % 0x40, 0x80 + (n / 0x40) % 0x40, 0x80 + n % 0x40]
  }

  /** The bytes of a PHP string holding `s` in UTF-8. */
  function Utf8(s: string): (bytes: seq<Byte>)
    ensures |bytes| >= |s|
  {
    if s == [] then [] else Utf8Char(s[0]) + Utf8(s[1..])
  }

  lemma {:induction false} Utf8Concat(a: string, b: string)
    ensures Utf8(a + b) == Utf8(a) + Utf8(b)
  {
    if a == [] {
      assert a + b == b;
    } else {
      assert (a + b)[1..] == a[1..] + b;
      Utf8Concat(a[1..], b);
    }
  }

  // ---------------------------------------------------------------- Base64

  /** The character for a 6-bit value in the base64 alphabet (Table 1 of RFC 4648). */
  function Sextet(v: int): (c: char)
    requires 0 <= v < 64
    ensures c != '='
  {
    if v < 26 then ('A' as int + v) as char
    else if v < 52 then ('a' as int + v - 26) as char
    else if v < 62 then ('0' as int + v - 52) as char
    else if v == 62 then '+'
    else '/'
  }

  predicate IsBase64Char(c: char) {
    'A' <= c <= 'Z' || 'a' <= c <= 'z' || '0' <= c <= '9' || c == '+' || c == '/' || c == '='
  }

  /** The 6-bit value of an alphabet character (0 for anything else). */
  function SextetValue(c: char): (v: int)
    ensures 0 <= v < 64
  {
    if 'A' <= c <= 'Z' then c as int - 'A' as int
    else if 'a' <= c <= 'z' then c as int - 'a' as int + 26
    else if '0' <= c <= '9' then c as int - '0' as int + 52
    else if c == '+' then 62
    else if c == '/' then 63
    else 0
  }

  lemma SextetInverse(v: int)
    requires 0 <= v < 64
    ensures SextetValue(Sextet(v)) == v && IsBase64Char(Sextet(v))
  {
  }

  /**
   * `base64_encode`: every three bytes become four characters; a final group of one
   * or two bytes is padded with "==" or "=".
   */
  function Base64Encode(b: seq<Byte>): (s: string)
    ensures |s| == 4 * ((|b| + 2) / 3)
    ensures forall i :: 0 <= i < |s| ==> IsBase64Char(s[i])
    decreases |b|
  {
    if |b| == 0 then ""
    else if |b| == 1 then
      SextetInverse(b[0] / 4);
      SextetInverse((b[0] % 4) * 16);
      [Sextet(b[0] / 4), Sextet((b[0] % 4) * 16), '=', '=']
    else if |b| == 2 then
      SextetInverse(b[0] / 4);
      SextetInverse((b[0] % 4) * 16 + b[1] / 16);
      SextetInverse((b[1] % 16) * 4);
      [Sextet(b[0] / 4), Sextet((b[0] % 4) * 16 + b[1] / 16), Sextet((b[1] % 16) * 4), '=']
    else
      SextetInverse(b[0] / 4);
      SextetInverse((b[0] % 4) * 16 + b[1] / 16);
      SextetInverse((b[1] % 16) * 4 + b[2] / 64);
      SextetInverse(b[2] % 64);
      [Sextet(b[0] / 4), Sextet((b[0] % 4) * 16 + b[1] / 16),
       Sextet((b[1] % 16) * 4 + b[2] / 64), Sextet(b[2] % 64)] + Base64Encode(b[3..])
  }

  /** Base64 decoding of canonical, padded text: the inverse the server applies. */
  function Base64Decode(s: string): seq<Byte>
    decreases |s|
  {
    if |s| < 4 then []
    else
      var v0, v1, v2, v3 := SextetValue(s[0]), SextetValue(s[1]), SextetValue(s[2]), SextetValue(s[3]);
      var b0: Byte := v0 * 4 + v1 / 16;
      var b1: Byte := (v1 % 16) * 16 + v2 / 4;
      var b2: Byte := (v2 % 4) * 64 + v3;
      if s[2] == '=' then [b0]
      else if s[3] == '=' then [b0, b1]
      else [b0, b1, b2] + Base64Decode(s[4..])
  }

  lemma GroupInverse(b0: Byte, b1: Byte, b2: Byte)
    ensures (b0 / 4) * 4 + ((b0 % 4) * 16 + b1 / 16) / 16 == b0
    ensures (((b0 % 4) * 16 + b1 / 16) % 16) * 16 + ((b1 % 16) * 4 + b2 / 64) / 4 == b1
    ensures (((b1 % 16) * 4 + b2 / 64) % 4) * 64 + b2 % 64 == b2
  {
    assert ((b0 % 4) * 16 + b1 / 16) / 16 == b0 % 4;
    assert ((b0 % 4) * 16 + b1 / 16) % 16 == b1 / 16;
    assert ((b1 % 16) * 4 + b2 / 64) / 4 == b1 % 16;
    assert ((b1 % 16) * 4 + b2 / 64) % 4 == b2 / 64;
  }

  lemma DecodeOne(b0: Byte)
    ensures Base64Decode([Sextet(b0 / 4), Sextet((b0 % 4) * 16), '=', '=']) == [b0]
  {
    GroupInverse(b0, 0, 0);
    SextetInverse(b0 / 4);
    SextetInverse((b0 % 4) * 16);
  }

  lemma DecodeTwo(b0: Byte, b1: Byte)
    ensures Base64Decode([Sextet(b0 / 4), Sextet((b0 % 4) * 16 + b1 / 16), Sextet((b1 % 16) * 4), '='])
         == [b0, b1]
  {
    GroupInverse(b0, b1, 0);
    SextetInverse(b0 / 4);
    SextetInverse((b0 % 4) * 16 + b1 / 16);
    SextetInverse((b1 % 16) * 4);
  }

  lemma DecodeThree(b0: Byte, b1: Byte, b2: Byte, rest: string)
    ensures Base64Decode([Sextet(b0 / 4), Sextet((b0 % 4) * 16 + b1 / 16),
                          Sextet((b1 % 16) * 4 + b2 / 64), Sextet(b2 % 64)] + rest)
         == [b0, b1, b2] + Base64Decode(rest)
  {
    var group := [Sextet(b0 / 4), Sextet((b0 % 4) * 16 + b1 / 16),
                  Sextet((b1 % 16) * 4 + b2 / 64), Sextet(b2 % 64)];
    var s := group + rest;
    GroupInverse(b0, b1, b2);
    SextetInverse(b0 / 4);
    SextetInverse((b0 % 4) * 16 + b1 / 16);
    SextetInverse((b1 % 16) * 4 + b2 / 64);
    SextetInverse(b2 % 64);
    assert s[..4] == group && s[4..] == rest;
    assert s[0] == group[0] && s[1] == group[1] && s[2] == group[2] && s[3] == group[3];
  }

  lemma RoundTripOne(b: seq<Byte>)
    requires |b| == 1
    ensures Base64Decode(Base64Encode(b)) == b
  {
    assert Base64Encode(b) == [Sextet(b[0] / 4), Sextet((b[0] % 4) * 16), '=', '='];
    DecodeOne(b[0]);
    assert b == [b[0]];
  }

  lemma RoundTripTwo(b: seq<Byte>)
    requires |b| == 2
    ensures Base64Decode(Base64Encode(b)) == b
  {
    assert Base64Encode(b) == [Sextet(b[0] / 4), Sextet((b[0] % 4) * 16 + b[1] / 16),
                               Sextet((b[1] % 16) * 4), '='];
    DecodeTwo(b[0], b[1]);
    assert b == [b[0], b[1]];
  }

  /** Decoding recovers exactly the bytes that were encoded. */
  lemma {:induction false} Base64RoundTrip(b: seq<Byte>)
    ensures Base64Decode(Base64Encode(b)) == b
    decreases |b|
  {
    if |b| == 1 {
      RoundTripOne(b);
    } else if |b| == 2 {
      RoundTripTwo(b);
    } else if |b| > 2 {
      var rest := Base64Encode(b[3..]);
      var group := [Sextet(b[0] / 4), Sextet((b[0] % 4) * 16 + b[1] / 16),
                    Sextet((b[1] % 16) * 4 + b[2] / 64), Sextet(b[2] % 64)];
      assert Base64Encode(b) == group + rest;
      DecodeThree(b[0], b[1], b[2], rest);
      Base64RoundTrip(b[3..]);
      assert b == [b[0], b[1], b[2]] + b[3..];
    }
  }

  // --------------------------------------------------------------- urlencode

  function HexDigit(v: int): (c: char)
    requires 0 <= v < 16
    ensures IsAlnum(c)
  {
    if v < 10 then ('0' as int + v) as char else ('A' as int + v - 10) as char
  }

  /** A character `urlencode` may produce. */
  predicate IsUrlEncodedChar(c: char) {
    IsAlnum(c) || c == '-' || c == '_' || c == '.' || c == '%' || c == '+'
  }

  /** One byte as `urlencode` writes it: kept, "+", or "%" and two upper-case hex digits. */
  function UrlEncodeByte(b: Byte): (s: string)
    ensures forall i :: 0 <= i < |s| ==> IsUrlEncodedChar(s[i])
    ensures IsAlnum(b as char) ==> s == [b as char]
  {
    var c := b as char;
    if IsAlnum(c) || c == '-' || c == '_' || c == '.' then [c]
    else if c == ' ' then "+"
    else ['%', HexDigit(b / 16), HexDigit(b % 16)]
  }

  function UrlEncodeBytes(b: seq<Byte>): (s: string)
    ensures forall i :: 0 <= i < |s| ==> IsUrlEncodedChar(s[i])
  {
    if b == [] then "" else UrlEncodeByte(b[0]) + UrlEncodeBytes(b[1..])
  }

  /**
   * `urlencode($s)` of a UTF-8 string. No character of the result can end a query
   * parameter or start another one ('&', '=', '#' are never produced).
   */
  function UrlEncode(s: string): (r: string)
    ensures forall i :: 0 <= i < |r| ==> IsUrlEncodedChar(r[i])
  {
    UrlEncodeBytes(Utf8(s))
  }

  /** A string of ASCII letters and digits is left as it is by `urlencode`. */
  lemma {:induction false} UrlEncodeKeepsAlnum(s: string)
    requires forall i :: 0 <= i < |s| ==> IsAlnum(s[i])
    ensures UrlEncode(s) == s
  {
    if s != [] {
      assert IsAlnum(s[0]);
      UrlEncodeKeepsAlnum(s[1..]);
      assert Utf8Char(s[0]) == [s[0] as int];
      assert Utf8(s) == [s[0] as int] + Utf8(s[1..]);
      assert ([s[0] as int] + Utf8(s[1..]))[1..] == Utf8(s[1..]);
      assert s == [s[0]] + s[1..];
    }
  }
}
