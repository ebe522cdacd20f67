/** Base16 and Base64 as the bridges use them: sections 8 and 4 of RFC 4648. Base64 is
    the padded, canonical form: the decoder rejects missing padding and trailing bits. */
module Encodings {
  import opened Common

  // ---- Base16 ----

  function HexChar(n: nat): char
    requires n < 16
  {
    if n < 10 then ('0' as int + n) as char else ('a' as int + (n - 10)) as char
  }

  function HexVal(c: char): (v: Option<nat>)
    ensures v.Some? ==> v.value < 16
  {
    if '0' <= c <= '9' then Some(c as nat - '0' as nat)
    else if 'a' <= c <= 'f' then Some(c as nat - 'a' as nat + 10)
    else if 'A' <= c <= 'F' then Some(c as nat - 'A' as nat + 10)
    else None
  }

  function HexEncode(bytes: seq<Byte>): string {
    if bytes == [] then ""
    else [HexChar(bytes[0] / 16), HexChar(bytes[0] % 16)] + HexEncode(bytes[1..])
  }

  function HexDecode(s: string): Option<seq<Byte>> {
    if s == "" then Some([])
    else if |s| == 1 then None
    else
      match (HexVal(s[0]), HexVal(s[1]), HexDecode(s[2..]))
      case (Some(hi), Some(lo), Some(rest)) => Some([HexByte(hi, lo)] + rest)
      case _ => None
  }

  function HexByte(hi: nat, lo: nat): Byte
    requires hi < 16 && lo < 16
  {
    hi * 16 + lo
  }

  function LowerChar(c: char): char {
    if 'A' <= c <= 'F' then (c as int + 32) as char else c
  }

  function Lower(s: string): string {
    seq(|s|, i requires 0 <= i < |s| => LowerChar(s[i]))
  }

  lemma HexDigitIff(c: char, n: nat)
    requires n < 16
    ensures HexVal(c) == Some(n) <==> LowerChar(c) == HexChar(n)
  {
  }

  /** Decoding succeeds with these bytes exactly when the text, in lower case, is their
      encoding. */
  lemma {:induction false} HexDecodeIff(s: string, bytes: seq<Byte>)
    ensures HexDecode(s) == Some(bytes) <==> Lower(s) == HexEncode(bytes)
  {
    if |s| >= 2 && bytes != [] {
      var t, e := s[2..], HexEncode(bytes[1..]);
      HexDecodeIff(t, bytes[1..]);
      HexDigitIff(s[0], bytes[0] / 16);
      HexDigitIff(s[1], bytes[0] % 16);
      HexPair(s, t, bytes);
      assert Lower(s)[2..] == Lower(t);
      assert Lower(s) == [LowerChar(s[0]), LowerChar(s[1])] + Lower(t);
      assert HexEncode(bytes) == [HexChar(bytes[0] / 16), HexChar(bytes[0] % 16)] + e;
      assert Lower(s) == HexEncode(bytes) <==>
        Lower(s)[0] == HexEncode(bytes)[0] && Lower(s)[1] == HexEncode(bytes)[1]
          && Lower(s)[2..] == HexEncode(bytes)[2..];
      assert HexEncode(bytes)[2..] == e;
    }
  }

  lemma HexPair(s: string, t: string, bytes: seq<Byte>)
    requires |s| >= 2 && bytes != [] && t == s[2..]
    ensures HexDecode(s) == Some(bytes) <==>
      HexVal(s[0]) == Some(bytes[0] / 16) && HexVal(s[1]) == Some(bytes[0] % 16) && HexDecode(t) == Some(bytes[1..])
  {
    hide HexVal;
    if HexVal(s[0]).Some? && HexVal(s[1]).Some? && HexDecode(t).Some? {
      var rest := HexDecode(t).value;
      assert [bytes[0]] + bytes[1..] == bytes;
      assert ([HexByte(HexVal(s[0]).value, HexVal(s[1]).value)] + rest)[1..] == rest;
    }
  }

  lemma LowerOfHex(bytes: seq<Byte>)
    ensures Lower(HexEncode(bytes)) == HexEncode(bytes)
  {
    forall i | 0 <= i < |HexEncode(bytes)| ensures LowerChar(HexEncode(bytes)[i]) == HexEncode(bytes)[i] {
      HexCharsLower(bytes, i);
    }
  }

  lemma {:induction false} HexCharsLower(bytes: seq<Byte>, i: nat)
    requires i < |HexEncode(bytes)|
    ensures LowerChar(HexEncode(bytes)[i]) == HexEncode(bytes)[i]
  {
    if i >= 2 {
      HexCharsLower(bytes[1..], i - 2);
    }
  }

  lemma HexRoundTrip(bytes: seq<Byte>)
    ensures HexDecode(HexEncode(bytes)) == Some(bytes)
  {
    LowerOfHex(bytes);
    HexDecodeIff(HexEncode(bytes), bytes);
  }

  // ---- Base64 ----

  function Base64Char(n: nat): char
    requires n < 64
  {
    if n < 26 then ('A' as int + n) as char
    else if n < 52 then ('a' as int + (n - 26)) as char
    else if n < 62 then ('0' as int + (n - 52)) as char
    else if n == 62 then '+' else '/'
  }

  function Base64Val(c: char): (v: Option<nat>)
    ensures v.Some? ==> v.value < 64 && Base64Char(v.value) == c
  {
    if 'A' <= c <= 'Z' then Some(c as nat - 'A' as nat)
    else if 'a' <= c <= 'z' then Some(c as nat - 'a' as nat + 26)
    else if '0' <= c <= '9' then Some(c as nat - '0' as nat + 52)
    else if c == '+' then Some(62)
    else if c == '/' then Some(63)
    else None
  }

  /** One group of 24 bits, or what is left of one, as four characters. */
  function EncodeGroup(g: seq<Byte>): string
    requires 1 <= |g| <= 3
  {
    var b1 := if |g| > 1 then g[1] else 0;
    var b2 := if |g| > 2 then g[2] else 0;
    [Base64Char(g[0] / 4),
     Base64Char((g[0] % 4) * 16 + b1 / 16),
     if |g| > 1 then Base64Char((b1 % 16) * 4 + b2 / 64) else '=',
     if |g| > 2 then Base64Char(b2 % 64) else '=']
  }

  function Base64Encode(bytes: seq<Byte>): string {
    if bytes == [] then ""
    else if |bytes| <= 3 then EncodeGroup(bytes)
    else EncodeGroup(bytes[..3]) + Base64Encode(bytes[3..])
  }

  /** The bytes of four characters. Padding is allowed in the last group only, and the
      bits it leaves over must be zero. */
  function DecodeGroup(q: string, last: bool): Option<seq<Byte>>
    requires |q| == 4
  {
    match (Base64Val(q[0]), Base64Val(q[1]))
    case (Some(v0), Some(v1)) =>
      if q[2] == '=' then
        if last && q[3] == '=' && v1 % 16 == 0 then Some([v0 * 4 + v1 / 16]) else None
      else (
        match Base64Val(q[2])
        case None => None
        case Some(v2) =>
          if q[3] == '=' then
            if last && v2 % 4 == 0 then Some([v0 * 4 + v1 / 16, (v1 % 16) * 16 + v2 / 4]) else None
          else
            match Base64Val(q[3])
            case None => None
            case Some(v3) => Some([v0 * 4 + v1 / 16, (v1 % 16) * 16 + v2 / 4, (v2 % 4) * 64 + v3])
      )
    case _ => None
  }

  function Base64Decode(s: string): Option<seq<Byte>> {
    if s == "" then Some([])
    else if |s| < 4 then None
    else
      match (DecodeGroup(s[..4], |s| == 4), Base64Decode(s[4..]))
      case (Some(head), Some(tail)) => Some(head + tail)
      case _ => None
  }

  /** Three bytes, four sextets. */
  lemma SextetsOfBytes(b0: Byte, b1: Byte, b2: Byte)
    ensures var v1, v2 := (b0 % 4) * 16 + b1 / 16, (b1 % 16) * 4 + b2 / 64;
            && (b0 / 4) * 4 + v1 / 16 == b0 && (v1 % 16) * 16 + v2 / 4 == b1 && (v2 % 4) * 64 + b2 % 64 == b2
            && b0 / 4 < 64 && v1 < 64 && v2 < 64
  {
  }

  lemma BytesOfSextets(v0: nat, v1: nat, v2: nat, v3: nat)
    requires v0 < 64 && v1 < 64 && v2 < 64 && v3 < 64
    ensures var b0, b1, b2 := v0 * 4 + v1 / 16, (v1 % 16) * 16 + v2 / 4, (v2 % 4) * 64 + v3;
            && b0 / 4 == v0 && (b0 % 4) * 16 + b1 / 16 == v1 && (b1 % 16) * 4 + b2 / 64 == v2 && b2 % 64 == v3
  {
  }

  lemma GroupDecodes(g: seq<Byte>, last: bool)
    requires 1 <= |g| <= 3 && (last || |g| == 3)
    ensures DecodeGroup(EncodeGroup(g), last) == Some(g)
  {
    var b1 := if |g| > 1 then g[1] else 0;
    var b2 := if |g| > 2 then g[2] else 0;
    SextetsOfBytes(g[0], b1, b2);
    var v0, v1, v2, v3 := g[0] / 4, (g[0] % 4) * 16 + b1 / 16, (b1 % 16) * 4 + b2 / 64, b2 % 64;
    SextetRead(v0);
    SextetRead(v1);
    SextetRead(v2);
    SextetRead(v3);
    hide Base64Char, Base64Val;
    var q := EncodeGroup(g);
    assert q[0] == Base64Char(v0) && q[1] == Base64Char(v1);
    if |g| == 1 {
      assert v1 % 16 == 0 && g == [g[0]];
    } else if |g| == 2 {
      assert q[2] == Base64Char(v2) && v2 % 4 == 0 && g == [g[0], g[1]];
    } else {
      assert q[2] == Base64Char(v2) && q[3] == Base64Char(v3) && g == [g[0], g[1], g[2]];
    }
  }

  lemma SextetRead(n: nat)
    requires n < 64
    ensures Base64Val(Base64Char(n)) == Some(n) && Base64Char(n) != '='
  {
  }

  lemma GroupEncodes(q: string, last: bool, g: seq<Byte>)
    requires |q| == 4 && DecodeGroup(q, last) == Some(g)
    ensures 1 <= |g| <= 3 && (last || |g| == 3) && EncodeGroup(g) == q
  {
    hide Base64Char, Base64Val;
    var v0, v1 := Base64Val(q[0]).value, Base64Val(q[1]).value;
    var v2 := if q[2] == '=' then 0 else Base64Val(q[2]).value;
    var v3 := if q[3] == '=' then 0 else Base64Val(q[3]).value;
    BytesOfSextets(v0, v1, v2, v3);
    var e := EncodeGroup(g);
    assert e[0] == q[0];
    assert e[1] == q[1];
    assert e[2] == q[2];
    assert e[3] == q[3];
  }

  /** The decoder accepts exactly the encoder's texts: text and bytes determine each other. */
  lemma {:induction false} Base64DecodeIff(s: string, bytes: seq<Byte>)
    ensures Base64Decode(s) == Some(bytes) <==> s == Base64Encode(bytes)
    decreases |s| + |bytes|
  {
    if Base64Decode(s) == Some(bytes) && s != "" {
      var head, tail := DecodeGroup(s[..4], |s| == 4).value, Base64Decode(s[4..]).value;
      GroupEncodes(s[..4], |s| == 4, head);
      Base64DecodeIff(s[4..], tail);
      assert s == s[..4] + s[4..] && bytes == head + tail;
      if |s| == 4 {
        assert tail == [] && bytes == head;
      } else {
        assert tail != [] && bytes[..3] == head && bytes[3..] == tail;
      }
    }
    if s == Base64Encode(bytes) && bytes != [] {
      if |bytes| <= 3 {
        GroupDecodes(bytes, true);
        assert s[..4] == s && s[4..] == "" && bytes + [] == bytes;
      } else {
        GroupDecodes(bytes[..3], false);
        GroupDecodes(bytes[..3], true);
        assert s[..4] == EncodeGroup(bytes[..3]) && s[4..] == Base64Encode(bytes[3..]);
        Base64DecodeIff(s[4..], bytes[3..]);
        assert bytes[..3] + bytes[3..] == bytes;
      }
    }
  }

  lemma Base64RoundTrip(bytes: seq<Byte>)
    ensures Base64Decode(Base64Encode(bytes)) == Some(bytes)
  {
    Base64DecodeIff(Base64Encode(bytes), bytes);
  }

  // ---- The alphabets of RFC 4648 ----

  /** Table 5: each byte as its high and its low digit. */
  lemma {:induction false} HexIsTable5(bytes: seq<Byte>, i: nat)
    requires i < |bytes|
    ensures |HexEncode(bytes)| == 2 * |bytes|
    ensures HexEncode(bytes)[2 * i] == "0123456789abcdef"[bytes[i] / 16]
    ensures HexEncode(bytes)[2 * i + 1] == "0123456789abcdef"[bytes[i] % 16]
  {
    hide HexChar;
    HexDigits(bytes[0] / 16);
    HexDigits(bytes[0] % 16);
    if |bytes| == 1 {
      assert HexEncode(bytes[1..]) == "";
    } else {
      HexIsTable5(bytes[1..], if i == 0 then 0 else i - 1);
    }
  }

  lemma HexDigits(n: nat)
    requires n < 16
    ensures HexChar(n) == "0123456789abcdef"[n]
  {
  }

  /** Table 1, its four columns one after the other. */
  lemma Base64IsTable1(n: nat)
    requires n < 64
    ensures n < 16 ==> Base64Char(n) == "ABCDEFGHIJKLMNOP"[n]
    ensures 16 <= n < 32 ==> Base64Char(n) == "QRSTUVWXYZabcdef"[n - 16]
    ensures 32 <= n < 48 ==> Base64Char(n) == "ghijklmnopqrstuv"[n - 32]
    ensures 48 <= n ==> Base64Char(n) == "wxyz0123456789+/"[n - 48]
  {
  }

  lemma SixBits(x0: nat, x1: nat, x2: nat, x3: nat)
    requires x0 < 64 && x1 < 64 && x2 < 64 && x3 < 64
    ensures var bits := ((x0 * 64 + x1) * 64 + x2) * 64 + x3;
            bits / 64 / 64 / 64 == x0 && bits / 64 / 64 % 64 == x1 && bits / 64 % 64 == x2 && bits % 64 == x3
  {
  }

  lemma SameBits(a: int, b: int, c: int)
    requires 0 <= a < 256 && 0 <= b < 256 && 0 <= c < 256
    ensures (((a / 4) * 64 + ((a % 4) * 16 + b / 16)) * 64 + ((b % 16) * 4 + c / 64)) * 64 + c % 64
            == (a * 256 + b) * 256 + c
  {
    assert a == a / 4 * 4 + a % 4 && b == b / 16 * 16 + b % 16 && c == c / 64 * 64 + c % 64;
  }

  /** Section 4: 24 bits, most significant first, as four groups of six; a last group of 8 or
      16 bits is filled up with zero bits and padding. */
  lemma GroupsAreSixBits(g: seq<Byte>)
    requires 1 <= |g| <= 3
    ensures var b1 := if |g| > 1 then g[1] as int else 0; var b2 := if |g| > 2 then g[2] as int else 0;
            var bits := (g[0] as int * 256 + b1) * 256 + b2;
            && 0 <= bits < 64 * 64 * 64 * 64 && |EncodeGroup(g)| == 4
            && EncodeGroup(g)[0] == Base64Char(bits / 64 / 64 / 64)
            && EncodeGroup(g)[1] == Base64Char(bits / 64 / 64 % 64)
            && EncodeGroup(g)[2] == (if |g| > 1 then Base64Char(bits / 64 % 64) else '=')
            && EncodeGroup(g)[3] == (if |g| > 2 then Base64Char(bits % 64) else '=')
  {
    hide Base64Char;
    var b1 := if |g| > 1 then g[1] as int else 0;
    var b2 := if |g| > 2 then g[2] as int else 0;
    SixBits(g[0] / 4, (g[0] % 4) * 16 + b1 / 16, (b1 % 16) * 4 + b2 / 64, b2 % 64);
    SameBits(g[0], b1, b2);
  }
}
