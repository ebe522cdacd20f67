/** The texts of the smart-card shim (crates/scd-shim/src/main.rs): words and options of an
    Assuan command line, hex arguments, percent-encoded data lines. */
module Assuan {
  import opened Common
  import Encodings

  // ---- Text ----

  /** White space as Unicode defines it. */
  predicate IsSpace(c: char) {
    var n := c as int;
    9 <= n <= 13 || n == 32 || n == 0x85 || n == 0xA0 || n == 0x1680 || 0x2000 <= n <= 0x200A
    || n == 0x2028 || n == 0x2029 || n == 0x202F || n == 0x205F || n == 0x3000
  }

  function TrimStart(s: string): (r: string)
    ensures |r| <= |s| && s[|s| - |r|..] == r
    ensures r == "" || !IsSpace(r[0])
  {
    if s != "" && IsSpace(s[0]) then TrimStart(s[1..]) else s
  }

  function TrimEnd(s: string): string {
    if s != "" && IsSpace(s[|s| - 1]) then TrimEnd(s[..|s| - 1]) else s
  }

  function Trim(s: string): string {
    TrimEnd(TrimStart(s))
  }

  /** Where the first word ends. */
  function FirstSpace(s: string): (n: nat)
    ensures n <= |s|
    ensures n < |s| ==> IsSpace(s[n])
    ensures forall i :: 0 <= i < n ==> !IsSpace(s[i])
  {
    if s == "" || IsSpace(s[0]) then 0 else 1 + FirstSpace(s[1..])
  }

  function ParseCommand(line: string): (string, string) {
    (line[..FirstSpace(line)], TrimStart(line[FirstSpace(line)..]))
  }

  /** split_whitespace, then collect: all white space removed. */
  function Squeeze(s: string): string {
    if s == "" then ""
    else if IsSpace(s[0]) then Squeeze(s[1..])
    else [s[0]] + Squeeze(s[1..])
  }

  // ---- Options ----

  predicate IsOption(s: string) {
    |s| >= 2 && s[0] == '-' && s[1] == '-'
  }

  function AfterOptions(s: string): string
    decreases |s|
  {
    var rest := TrimStart(s);
    if !IsOption(rest) then rest
    else if FirstSpace(rest) == |rest| then ""
    else AfterOptions(rest[FirstSpace(rest)..])
  }

  method SkipOptions(line: string) returns (rest: string)
    ensures rest == AfterOptions(line)
  {
    rest := line;
    while true
      invariant AfterOptions(rest) == AfterOptions(line)
      decreases |rest|
    {
      rest := TrimStart(rest);
      if !IsOption(rest) {
        assert TrimStart(rest) == rest;
        return;
      }
      var i := FirstSpace(rest);
      if i == |rest| {
        return "";
      }
      rest := rest[i..];
    }
  }

  /** An option word and the white space after it. */
  datatype Flag = Flag(word: string, gap: string)

  ghost predicate ValidFlag(o: Flag) {
    && IsOption(o.word) && (forall i :: 0 <= i < |o.word| ==> !IsSpace(o.word[i]))
    && o.gap != "" && (forall i :: 0 <= i < |o.gap| ==> IsSpace(o.gap[i]))
  }

  function Written(options: seq<Flag>): string {
    if options == [] then "" else options[0].word + options[0].gap + Written(options[1..])
  }

  lemma {:induction false} TrimGap(gap: string, rest: string)
    requires forall i :: 0 <= i < |gap| ==> IsSpace(gap[i])
    ensures TrimStart(gap + rest) == TrimStart(rest)
  {
    hide IsSpace;
    if gap == "" {
      assert gap + rest == rest;
    } else {
      assert (gap + rest)[1..] == gap[1..] + rest;
      TrimGap(gap[1..], rest);
    }
  }

  lemma {:induction false} WordEnds(word: string, rest: string)
    requires forall i :: 0 <= i < |word| ==> !IsSpace(word[i])
    requires rest != "" && IsSpace(rest[0])
    ensures FirstSpace(word + rest) == |word|
  {
    hide IsSpace;
    if word == "" {
      assert word + rest == rest;
    } else {
      assert (word + rest)[1..] == word[1..] + rest;
      WordEnds(word[1..], rest);
    }
  }

  lemma NoLeadingSpace(s: string)
    requires s == "" || !IsSpace(s[0])
    ensures TrimStart(s) == s
  {
  }

  lemma NothingToTrim(s: string)
    requires s != "" && !IsSpace(s[0]) && !IsSpace(s[|s| - 1])
    ensures Trim(s) == s
  {
    hide IsSpace;
  }

  lemma Unfold(s: string)
    ensures var rest := TrimStart(s);
            AfterOptions(s) ==
              if !IsOption(rest) then rest
              else if FirstSpace(rest) == |rest| then ""
              else AfterOptions(rest[FirstSpace(rest)..])
  {
  }

  lemma FirstOptionIsSkipped(gap: string, o: Flag, tail: string)
    requires forall i :: 0 <= i < |gap| ==> IsSpace(gap[i])
    requires ValidFlag(o)
    ensures AfterOptions(gap + (o.word + (o.gap + tail))) == AfterOptions(o.gap + tail)
  {
    hide IsSpace, AfterOptions, TrimStart, FirstSpace;
    Unfold(gap + (o.word + (o.gap + tail)));
    var words := o.word + (o.gap + tail);
    TrimGap(gap, words);
    assert words[0] == o.word[0] && words[1] == o.word[1];
    NoLeadingSpace(words);
    WordEnds(o.word, o.gap + tail);
    assert words[|o.word|..] == o.gap + tail;
  }

  /** Any number of leading options is skipped, and nothing of what follows. */
  lemma {:induction false} OptionsAreSkipped(gap: string, options: seq<Flag>, rest: string)
    requires forall i :: 0 <= i < |gap| ==> IsSpace(gap[i])
    requires forall i :: 0 <= i < |options| ==> ValidFlag(options[i])
    requires !IsOption(rest) && (rest == "" || !IsSpace(rest[0]))
    ensures AfterOptions(gap + (Written(options) + rest)) == rest
    decreases |options|
  {
    hide IsSpace, ValidFlag, AfterOptions, TrimStart;
    if options == [] {
      assert Written(options) + rest == rest;
      TrimGap(gap, rest);
      NoLeadingSpace(rest);
      Unfold(gap + rest);
    } else {
      var o := options[0];
      assert ValidFlag(o);
      OptionsAreSkipped(GapOf(o), options[1..], rest);
      FirstOptionIsSkipped(gap, o, Written(options[1..]) + rest);
      assert Written(options) + rest == o.word + (o.gap + (Written(options[1..]) + rest));
    }
  }

  function GapOf(o: Flag): (gap: string)
    ensures ValidFlag(o) ==> forall i :: 0 <= i < |gap| ==> IsSpace(gap[i])
    ensures gap == o.gap
  {
    o.gap
  }

  // ---- Characters as octets ----

  /** The length of a character in UTF-8. */
  function Width(c: char): (n: nat)
    ensures 1 <= n <= 4
  {
    if c as int < 0x80 then 1 else if c as int < 0x800 then 2 else if c as int < 0x1_0000 then 3 else 4
  }

  /** The length of a text in octets, as `len()` counts it. */
  function Octets(s: string): (n: nat)
    ensures n >= |s|
  {
    if s == "" then 0 else Width(s[0]) + Octets(s[1..])
  }

  /** A character starts, or the text ends, at this octet; slicing anywhere else panics. */
  ghost predicate IsBoundary(s: string, octet: nat) {
    exists k :: 0 <= k <= |s| && Octets(s[..k]) == octet
  }

  lemma {:induction false} OctetsAdd(a: string, b: string)
    ensures Octets(a + b) == Octets(a) + Octets(b)
  {
    if a == "" {
      assert a + b == b;
    } else {
      assert (a + b)[1..] == a[1..] + b;
      OctetsAdd(a[1..], b);
    }
  }

  // ---- Hex ----

  /** What hex_decode comes to: bytes, an error, or a panic of the shim. */
  datatype Decoded = Bytes(bytes: seq<Byte>) | Invalid | Abort

  /** u8::from_str_radix on two characters: a plus sign may lead. */
  function HexPair(a: char, b: char): Option<Byte> {
    if a == '+' then Encodings.HexVal(b)
    else
      match (Encodings.HexVal(a), Encodings.HexVal(b))
      case (Some(hi), Some(lo)) => Some(Encodings.HexByte(hi, lo))
      case _ => None
  }

  predicate StartsWithPair(s: string) {
    |s| >= 2 && HexPair(s[0], s[1]).Some?
  }

  /** The next two octets end inside a character. */
  predicate Splits(s: string) {
    s != "" && (Width(s[0]) > 2 || (Width(s[0]) == 1 && |s| > 1 && Width(s[1]) > 1))
  }

  /** A text of digit pairs up to a pair that is none: an error, unless that pair splits a
      character. */
  function HexPairs(s: string): Decoded {
    if s == "" then Bytes([])
    else if StartsWithPair(s) then Prefixed([HexPair(s[0], s[1]).value], HexPairs(s[2..]))
    else if Splits(s) then Abort
    else Invalid
  }

  function Prefixed(out: seq<Byte>, rest: Decoded): Decoded {
    match rest case Bytes(more) => Bytes(out + more) case _ => rest
  }

  /** hex_decode. */
  function HexDecoded(text: string): Decoded {
    if Octets(Trim(text)) % 2 != 0 then Invalid else HexPairs(Trim(text))
  }

  lemma SplitsIffNoBoundary(s: string)
    requires Octets(s) >= 2
    ensures Splits(s) <==> !IsBoundary(s, 2)
  {
    hide Width;
    assert s[..0] == "" && s[..1] == [s[0]] && [s[0]][1..] == "";
    if |s| > 1 {
      assert s[..2] == [s[0]] + [s[1]] && [s[1]][1..] == "";
      OctetsAdd([s[0]], [s[1]]);
      assert Octets(s[..2]) == Width(s[0]) + Width(s[1]);
    }
    forall k | 0 <= k <= |s| && Octets(s[..k]) == 2
      ensures k == 1 || k == 2
    {
    }
  }

  lemma WidthOfDigit(c: char)
    ensures c == '+' || Encodings.HexVal(c).Some? ==> Width(c) == 1
  {
  }

  lemma PairsStep(s: string, k: nat, out: seq<Byte>)
    requires k <= |s| && StartsWithPair(s[k..])
    ensures Prefixed(out, HexPairs(s[k..])) == Prefixed(out + [HexPair(s[k], s[k + 1]).value], HexPairs(s[k + 2..]))
    ensures Octets(s[k..]) == 2 + Octets(s[k + 2..])
  {
    hide HexPair;
    assert s[k..][2..] == s[k + 2..] && s[k..][1..] == s[k + 1..] && s[k + 1..][1..] == s[k + 2..];
    assert Width(s[k]) == 1 && Width(s[k + 1]) == 1 by { PairWidth(s[k], s[k + 1]); }
    var b, rest := HexPair(s[k], s[k + 1]).value, HexPairs(s[k + 2..]);
    assert rest.Bytes? ==> out + ([b] + rest.bytes) == (out + [b]) + rest.bytes;
  }

  lemma PairWidth(a: char, b: char)
    ensures HexPair(a, b).Some? ==> Width(a) == 1 && Width(b) == 1
  {
    WidthOfDigit(a);
    WidthOfDigit(b);
  }

  lemma NothingPrefixed(rest: Decoded)
    ensures Prefixed([], rest) == rest
  {
    assert rest.Bytes? ==> [] + rest.bytes == rest.bytes;
  }

  lemma PairsEnd(out: seq<Byte>)
    ensures Prefixed(out, HexPairs("")) == Bytes(out)
  {
    assert out + [] == out;
  }

  lemma NoPair(s: string, out: seq<Byte>)
    requires s != "" && !StartsWithPair(s)
    ensures Prefixed(out, HexPairs(s)) == if Splits(s) then Abort else Invalid
  {
  }

  /** The loop over pairs of octets; `i` counts octets, `k` the characters they make up. */
  method HexDecode(text: string) returns (r: Decoded)
    ensures r == HexDecoded(text)
  {
    hide HexPair, HexPairs, Prefixed, Trim, Splits;
    var s := Trim(text);
    if Octets(s) % 2 != 0 {
      return Invalid;
    }
    var out: seq<Byte> := [];
    var i, k := 0, 0;
    assert s[0..] == s;
    NothingPrefixed(HexPairs(s));
    while i < Octets(s)
      invariant 0 <= k <= |s| && i + Octets(s[k..]) == Octets(s)
      invariant HexPairs(s) == Prefixed(out, HexPairs(s[k..]))
      decreases |s| - k
    {
      var rest := s[k..];
      if !StartsWithPair(rest) {
        NoPair(rest, out);
        return if Splits(rest) then Abort else Invalid;
      }
      PairsStep(s, k, out);
      out := out + [HexPair(s[k], s[k + 1]).value];
      i, k := i + 2, k + 2;
    }
    assert s[k..] == "";
    PairsEnd(out);
    return Bytes(out);
  }

  /** How many characters make up leading digit pairs. */
  function PairRun(s: string): (n: nat)
    ensures n <= |s|
  {
    if StartsWithPair(s) then 2 + PairRun(s[2..]) else 0
  }

  /** The shim panics exactly when the octets pair up and the first pair that is not one of
      digits ends inside a character. */
  lemma {:induction false} AbortIff(text: string)
    ensures HexDecoded(text) == Abort <==>
      var s := Trim(text); Octets(s) % 2 == 0 && Splits(s[PairRun(s)..])
  {
    PairsAbortIff(Trim(text));
  }

  lemma {:induction false} PairsAbortIff(s: string)
    ensures HexPairs(s) == Abort <==> Splits(s[PairRun(s)..])
  {
    hide HexPair, Splits;
    if StartsWithPair(s) {
      PairsAbortIff(s[2..]);
      assert s[2..][PairRun(s[2..])..] == s[PairRun(s)..];
    } else {
      assert s[0..] == s;
      assert !Splits("") by { NothingSplits(); }
    }
  }

  lemma NothingSplits()
    ensures !Splits("")
  {
  }

  /** What a SETDATA argument stands for. */
  function DataOf(args: string): Decoded {
    HexDecoded(Squeeze(args))
  }

  lemma {:induction false} SqueezedHasNoSpace(s: string)
    ensures forall i :: 0 <= i < |Squeeze(s)| ==> !IsSpace(Squeeze(s)[i])
  {
    hide IsSpace;
    if s != "" {
      SqueezedHasNoSpace(s[1..]);
    }
  }

  lemma SqueezedIsTrimmed(s: string)
    ensures Trim(Squeeze(s)) == Squeeze(s)
  {
    hide IsSpace, Squeeze;
    SqueezedHasNoSpace(s);
  }

  lemma {:induction false} PairsExtendHex(s: string)
    ensures Encodings.HexDecode(s).Some? ==> HexPairs(s) == Bytes(Encodings.HexDecode(s).value) && Octets(s) % 2 == 0
  {
    hide Encodings.HexVal, Width;
    if |s| >= 2 {
      PairsExtendHex(s[2..]);
      assert s[1..][1..] == s[2..];
      PairWidth(s[0], s[1]);
      NoPlus(s[0]);
    }
  }

  lemma NoPlus(c: char)
    ensures Encodings.HexVal(c).Some? ==> c != '+'
  {
  }

  /** SETDATA undoes hex encoding, in either case and with white space anywhere. */
  lemma DataOfEncoding(args: string, bytes: seq<Byte>)
    requires Encodings.Lower(Squeeze(args)) == Encodings.HexEncode(bytes)
    ensures DataOf(args) == Bytes(bytes)
  {
    hide IsSpace;
    SqueezedIsTrimmed(args);
    Encodings.HexDecodeIff(Squeeze(args), bytes);
    PairsExtendHex(Squeeze(args));
  }

  /** A run of white space, then a word that holds none; either may be empty. */
  datatype Piece = Piece(gap: string, word: string)

  predicate Blank(s: string) {
    forall i :: 0 <= i < |s| ==> IsSpace(s[i])
  }

  predicate Solid(s: string) {
    forall i :: 0 <= i < |s| ==> !IsSpace(s[i])
  }

  function Spaced(pieces: seq<Piece>): string {
    if pieces == [] then "" else pieces[0].gap + pieces[0].word + Spaced(pieces[1..])
  }

  function Joined(pieces: seq<Piece>): string {
    if pieces == [] then "" else pieces[0].word + Joined(pieces[1..])
  }

  lemma {:induction false} SqueezeAdds(a: string, b: string)
    ensures Squeeze(a + b) == Squeeze(a) + Squeeze(b)
  {
    hide IsSpace;
    if a == "" {
      assert a + b == b;
    } else {
      assert (a + b)[1..] == a[1..] + b;
      SqueezeAdds(a[1..], b);
    }
  }

  lemma {:induction false} SqueezeBlank(s: string)
    requires Blank(s)
    ensures Squeeze(s) == ""
  {
    hide IsSpace;
    if s != "" {
      SqueezeBlank(s[1..]);
    }
  }

  lemma {:induction false} SqueezeSolid(s: string)
    requires Solid(s)
    ensures Squeeze(s) == s
  {
    hide IsSpace;
    if s != "" {
      SqueezeSolid(s[1..]);
    }
  }

  lemma {:induction false} SqueezeSpaced(pieces: seq<Piece>)
    requires forall i :: 0 <= i < |pieces| ==> Blank(pieces[i].gap) && Solid(pieces[i].word)
    ensures Squeeze(Spaced(pieces)) == Joined(pieces)
  {
    hide IsSpace, Squeeze, Blank, Solid;
    if pieces == [] {
      assert Squeeze("") == "" by { SqueezeNothing(); }
    } else {
      var p := pieces[0];
      SqueezeAdds(p.gap + p.word, Spaced(pieces[1..]));
      SqueezeAdds(p.gap, p.word);
      SqueezeBlank(p.gap);
      SqueezeSolid(p.word);
      SqueezeSpaced(pieces[1..]);
    }
  }

  lemma SqueezeNothing()
    ensures Squeeze("") == ""
  {
  }

  /** However white space is spread over a hex text in either case, before, inside or after
      it, the argument stands for the bytes encoded. */
  lemma DataOfSpacedHex(pieces: seq<Piece>, tail: string, bytes: seq<Byte>)
    requires forall i :: 0 <= i < |pieces| ==> Blank(pieces[i].gap) && Solid(pieces[i].word)
    requires Blank(tail) && Encodings.Lower(Joined(pieces)) == Encodings.HexEncode(bytes)
    ensures DataOf(Spaced(pieces) + tail) == Bytes(bytes)
  {
    hide IsSpace, Squeeze, Blank, Solid;
    SqueezeAdds(Spaced(pieces), tail);
    SqueezeSpaced(pieces);
    SqueezeBlank(tail);
    assert Joined(pieces) + "" == Joined(pieces);
    DataOfEncoding(Spaced(pieces) + tail, bytes);
  }

  // ---- Trimming a whole line ----

  lemma {:induction false} TrimEndOfTail(word: string, tail: string)
    requires word != "" && !IsSpace(word[|word| - 1])
    ensures TrimEnd(word + tail) == word + TrimEnd(tail)
  {
    hide IsSpace;
    if tail == "" {
      assert word + tail == word && word + "" == word;
    } else {
      var n := |tail| - 1;
      assert (word + tail)[..|word + tail| - 1] == word + tail[..n];
      TrimEndOfTail(word, tail[..n]);
    }
  }

  lemma {:induction false} TrimEndIsPrefix(s: string)
    ensures TrimEnd(s) <= s && Blank(s[|TrimEnd(s)|..])
  {
    hide IsSpace;
    if s != "" && IsSpace(s[|s| - 1]) {
      TrimEndIsPrefix(s[..|s| - 1]);
    }
  }

  lemma {:induction false} TrimStartCuts(s: string)
    ensures Squeeze(TrimStart(s)) == Squeeze(s)
  {
    hide IsSpace;
    if s != "" && IsSpace(s[0]) {
      TrimStartCuts(s[1..]);
    }
  }

  lemma TrimEndCuts(s: string)
    ensures Squeeze(TrimEnd(s)) == Squeeze(s)
  {
    hide IsSpace, Squeeze, TrimEnd, Blank;
    TrimEndIsPrefix(s);
    var cut := TrimEnd(s);
    assert s == cut + s[|cut|..];
    SqueezeAdds(cut, s[|cut|..]);
    SqueezeBlank(s[|cut|..]);
  }

  /** A line of a word, a gap and an argument: the command is the word, and its argument
      stands for the same data, whatever white space trails. */
  lemma LineSplits(word: string, gap: string, args: string)
    requires word != "" && Solid(word) && gap != "" && Blank(gap)
    ensures var trimmed := Trim(word + (gap + args));
            && trimmed != "" && ParseCommand(trimmed).0 == word && DataOf(ParseCommand(trimmed).1) == DataOf(args)
  {
    hide IsSpace, Squeeze, TrimEnd, TrimStart, HexDecoded, FirstSpace;
    var tail := gap + args;
    NoLeadingSpace(word + tail);
    TrimEndOfTail(word, tail);
    TrimEndIsPrefix(tail);
    var kept := TrimEnd(tail);
    var trimmed := word + kept;
    if kept == "" {
      assert trimmed == word;
      WordAlone(word);
      assert word[|word|..] == "";
    } else {
      assert kept[0] == tail[0] == gap[0];
      WordEnds(word, kept);
      assert trimmed[..|word|] == word && trimmed[|word|..] == kept;
    }
    TrimStartCuts(kept);
    TrimEndCuts(tail);
    assert trimmed[|word|..] == kept;
    SqueezeAdds(gap, args);
    SqueezeBlank(gap);
    assert "" + Squeeze(args) == Squeeze(args);
  }

  lemma {:induction false} WordAlone(word: string)
    requires Solid(word)
    ensures FirstSpace(word) == |word|
  {
    hide IsSpace;
    if word != "" {
      WordAlone(word[1..]);
    }
  }

  // ---- Data lines ----

  function PercentByte(b: Byte): seq<Byte> {
    if b == '%' as int then [0x25, 0x32, 0x35]
    else if b == 13 then [0x25, 0x30, 0x44]
    else if b == 10 then [0x25, 0x30, 0x41]
    else [b]
  }

  function PercentEncode(data: seq<Byte>): seq<Byte> {
    if data == [] then [] else PercentEncode(data[..|data| - 1]) + PercentByte(data[|data| - 1])
  }

  function HexDigit(b: Byte): Option<nat> {
    Encodings.HexVal(b as char)
  }

  /** The client's side of an Assuan data line: a percent sign and two hex digits. */
  function PercentDecode(s: seq<Byte>): Option<seq<Byte>> {
    if s == [] then Some([])
    else if s[0] != 0x25 then
      match PercentDecode(s[1..]) case Some(rest) => Some([s[0]] + rest) case None => None
    else if |s| < 3 then None
    else
      match (HexDigit(s[1]), HexDigit(s[2]), PercentDecode(s[3..]))
      case (Some(hi), Some(lo), Some(rest)) => Some([Encodings.HexByte(hi, lo)] + rest)
      case _ => None
  }

  lemma PercentByteDecodes(b: Byte, rest: seq<Byte>)
    ensures PercentDecode(PercentByte(b) + rest) ==
      match PercentDecode(rest) case Some(r) => Some([b] + r) case None => None
  {
    var s := PercentByte(b) + rest;
    if |PercentByte(b)| == 3 {
      assert s[3..] == rest;
    } else {
      assert s[1..] == rest;
    }
  }

  lemma {:induction false} EncodedThenDecoded(data: seq<Byte>, rest: seq<Byte>)
    ensures PercentDecode(PercentEncode(data) + rest) ==
      match PercentDecode(rest) case Some(r) => Some(data + r) case None => None
  {
    hide PercentByte, PercentDecode;
    if data == [] {
      assert PercentEncode(data) + rest == rest;
      assert PercentDecode(rest).Some? ==> data + PercentDecode(rest).value == PercentDecode(rest).value;
    } else {
      var init, last := data[..|data| - 1], data[|data| - 1];
      PercentByteDecodes(last, rest);
      EncodedThenDecoded(init, PercentByte(last) + rest);
      assert PercentEncode(data) + rest == PercentEncode(init) + (PercentByte(last) + rest);
      if PercentDecode(rest).Some? {
        assert data + PercentDecode(rest).value == init + ([last] + PercentDecode(rest).value);
      }
    }
  }

  lemma {:induction false} NoRawBreaks(data: seq<Byte>)
    ensures forall i :: 0 <= i < |PercentEncode(data)| ==> PercentEncode(data)[i] != 13 && PercentEncode(data)[i] != 10
  {
    if data != [] {
      NoRawBreaks(data[..|data| - 1]);
    }
  }

  /** A data line decodes to the original bytes, and holds no raw carriage return or line
      feed before its terminator. */
  lemma DataLineRoundTrip(data: seq<Byte>)
    ensures PercentDecode(PercentEncode(data)) == Some(data)
    ensures 13 !in PercentEncode(data) && 10 !in PercentEncode(data)
  {
    hide PercentByte;
    EncodedThenDecoded(data, []);
    assert PercentEncode(data) + [] == PercentEncode(data);
    assert data + [] == data;
    NoRawBreaks(data);
  }
}
