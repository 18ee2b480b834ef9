/** The base64 encoding of section 4 of RFC 4648 (with `=` padding), its
    decoding, and the UTF-8 encoding of text that `Buffer.from` applies
    first. */
module Base64 {
  import opened Base

  type Byte = x: int | 0 <= x < 256

  /** The digit for value `i`: `A`-`Z`, `a`-`z`, `0`-`9`, `+`, `/`. */
  function Digit(i: nat): (c: char)
    requires i < 64
    ensures c != '='
  {
    if i < 26 then ('A' as int + i) as char
    else if i < 52 then ('a' as int + i - 26) as char
    else if i < 62 then ('0' as int + i - 52) as char
    else if i == 62 then '+'
    else '/'
  }

  /** The value of a base64 digit, or `None` for any other character. */
  function DigitValue(c: char): (r: Option<nat>)
    ensures r.Some? ==> r.value < 64 && Digit(r.value) == c
  {
    if 'A' <= c <= 'Z' then Some(c as int - 'A' as int)
    else if 'a' <= c <= 'z' then Some(c as int - 'a' as int + 26)
    else if '0' <= c <= '9' then Some(c as int - '0' as int + 52)
    else if c == '+' then Some(62)
    else if c == '/' then Some(63)
    else None
  }

  lemma DigitRoundTrip(i: nat)
    requires i < 64
    ensures DigitValue(Digit(i)) == Some(i)
  {
  }

  /** Three bytes as four digits. */
  function EncodeGroup(a: Byte, b: Byte, c: Byte): string {
    [Digit(a / 4), Digit((a % 4) * 16 + b / 16), Digit((b % 16) * 4 + c / 64), Digit(c % 64)]
  }

  /** The base64 text of `bytes`: full groups of three bytes, then one or
      two remaining bytes padded with `=`. */
  function Encode(bytes: seq<Byte>): (s: string)
    ensures |s| == 4 * ((|bytes| + 2) / 3)
    decreases |bytes|
  {
    if |bytes| == 0 then ""
    else if |bytes| == 1 then EncodeGroup(bytes[0], 0, 0)[..2] + "=="
    else if |bytes| == 2 then EncodeGroup(bytes[0], bytes[1], 0)[..3] + "="
    else EncodeGroup(bytes[0], bytes[1], bytes[2]) + Encode(bytes[3..])
  }

  /** Four digits back to three bytes. */
  function DecodeGroup(d0: nat, d1: nat, d2: nat, d3: nat): seq<Byte>
    requires d0 < 64 && d1 < 64 && d2 < 64 && d3 < 64
  {
    [d0 * 4 + d1 / 16, (d1 % 16) * 16 + d2 / 4, (d2 % 4) * 64 + d3]
  }

  /** The bytes a base64 text stands for, or `None` if it is not one. */
  function Decode(s: string): Option<seq<Byte>>
    decreases |s|
  {
    if |s| == 0 then Some([])
    else if |s| < 4 then None
    else
      var v0, v1 := DigitValue(s[0]), DigitValue(s[1]);
      var v2, v3 := DigitValue(s[2]), DigitValue(s[3]);
      if v0.None? || v1.None? then None
      else if |s| == 4 && s[2] == '=' && s[3] == '=' then
        Some(DecodeGroup(v0.value, v1.value, 0, 0)[..1])
      else if |s| == 4 && v2.Some? && s[3] == '=' then
        Some(DecodeGroup(v0.value, v1.value, v2.value, 0)[..2])
      else if v2.None? || v3.None? then None
      else
        match Decode(s[4..])
        case None => None
        case Some(rest) => Some(DecodeGroup(v0.value, v1.value, v2.value, v3.value) + rest)
  }

  lemma GroupRoundTrip(a: Byte, b: Byte, c: Byte)
    ensures DecodeGroup(a / 4, (a % 4) * 16 + b / 16, (b % 16) * 4 + c / 64, c % 64) == [a, b, c]
  {
    var d1, d2 := (a % 4) * 16 + b / 16, (b % 16) * 4 + c / 64;
    assert d1 / 16 == a % 4 && d1 % 16 == b / 16;
    assert d2 / 4 == b % 16 && d2 % 4 == c / 64;
  }

  lemma DecodeTwoPadded(d0: nat, d1: nat)
    requires d0 < 64 && d1 < 64
    ensures Decode([Digit(d0), Digit(d1), '=', '=']) == Some(DecodeGroup(d0, d1, 0, 0)[..1])
  {
    DigitRoundTrip(d0);
    DigitRoundTrip(d1);
  }

  lemma DecodeOnePadded(d0: nat, d1: nat, d2: nat)
    requires d0 < 64 && d1 < 64 && d2 < 64
    ensures Decode([Digit(d0), Digit(d1), Digit(d2), '=']) == Some(DecodeGroup(d0, d1, d2, 0)[..2])
  {
    DigitRoundTrip(d0);
    DigitRoundTrip(d1);
    DigitRoundTrip(d2);
  }

  lemma DecodeFullGroup(d0: nat, d1: nat, d2: nat, d3: nat, rest: string, bs: seq<Byte>)
    requires d0 < 64 && d1 < 64 && d2 < 64 && d3 < 64
    requires Decode(rest) == Some(bs)
    ensures Decode([Digit(d0), Digit(d1), Digit(d2), Digit(d3)] + rest) == Some(DecodeGroup(d0, d1, d2, d3) + bs)
  {
    var s := [Digit(d0), Digit(d1), Digit(d2), Digit(d3)] + rest;
    DigitRoundTrip(d0);
    DigitRoundTrip(d1);
    DigitRoundTrip(d2);
    DigitRoundTrip(d3);
    assert s[4..] == rest;
  }

  lemma EncodeDecodeTwo(a: Byte, b: Byte)
    ensures Decode(Encode([a, b])) == Some([a, b])
  {
    var d0, d1, d2 := a / 4, (a % 4) * 16 + b / 16, (b % 16) * 4;
    assert Encode([a, b]) == [Digit(d0), Digit(d1), Digit(d2), '='];
    DecodeOnePadded(d0, d1, d2);
    GroupRoundTrip(a, b, 0);
    assert DecodeGroup(d0, d1, d2, 0)[..2] == [a, b];
  }

  lemma EncodeDecodeOne(a: Byte)
    ensures Decode(Encode([a])) == Some([a])
  {
    var d0, d1 := a / 4, (a % 4) * 16;
    assert Encode([a]) == [Digit(d0), Digit(d1), '=', '='];
    DecodeTwoPadded(d0, d1);
    assert DecodeGroup(d0, d1, 0, 0)[..1] == [a];
  }

  lemma EncodeDecodeGroup(a: Byte, b: Byte, c: Byte, rest: seq<Byte>)
    requires Decode(Encode(rest)) == Some(rest)
    ensures Decode(Encode([a, b, c] + rest)) == Some([a, b, c] + rest)
  {
    var d0, d1, d2, d3 := a / 4, (a % 4) * 16 + b / 16, (b % 16) * 4 + c / 64, c % 64;
    var bs := [a, b, c] + rest;
    assert bs[3..] == rest;
    assert Encode(bs) == [Digit(d0), Digit(d1), Digit(d2), Digit(d3)] + Encode(rest);
    GroupRoundTrip(a, b, c);
    DecodeFullGroup(d0, d1, d2, d3, Encode(rest), rest);
  }

  /** Decoding undoes encoding. */
  lemma {:induction false} EncodeDecode(bytes: seq<Byte>)
    ensures Decode(Encode(bytes)) == Some(bytes)
    decreases |bytes|
  {
    if |bytes| == 1 {
      assert bytes == [bytes[0]];
      EncodeDecodeOne(bytes[0]);
    } else if |bytes| == 2 {
      assert bytes == [bytes[0], bytes[1]];
      EncodeDecodeTwo(bytes[0], bytes[1]);
    } else if |bytes| >= 3 {
      var rest := bytes[3..];
      assert bytes == [bytes[0], bytes[1], bytes[2]] + rest;
      EncodeDecode(rest);
      EncodeDecodeGroup(bytes[0], bytes[1], bytes[2], rest);
    }
  }

  /** The UTF-8 bytes of one character. */
  function Utf8Char(c: char): (bs: seq<Byte>)
    ensures 1 <= |bs| <= 4
  {
    var n := c as int;
    if n < 0x80 then [n]
    else if n < 0x800 then [0xC0 + n / 64, 0x80 + n % 64]
    else if n < 0x10000 then [0xE0 + n / 4096, 0x80 + (n / 64) % 64, 0x80 + n % 64]
    else [0xF0 + n / 262144 % 8, 0x80 + (n / 4096) % 64, 0x80 + (n / 64) % 64, 0x80 + n % 64]
  }

  /** The UTF-8 bytes of a text. */
  function Utf8(s: string): (bs: seq<Byte>)
    ensures |s| <= |bs| <= 4 * |s|
    decreases |s|
  {
    if |s| == 0 then [] else Utf8Char(s[0]) + Utf8(s[1..])
  }

  /** ASCII text is its own UTF-8 encoding. */
  lemma {:induction false} Utf8Ascii(s: string)
    requires forall i :: 0 <= i < |s| ==> s[i] as int < 0x80
    ensures |Utf8(s)| == |s|
    ensures forall i :: 0 <= i < |s| ==> Utf8(s)[i] == s[i] as int
    decreases |s|
  {
    if |s| > 0 {
      Utf8Ascii(s[1..]);
      assert forall i :: 1 <= i < |s| ==> Utf8(s)[i] == Utf8(s[1..])[i - 1];
    }
  }
}
