/** The public key as READKEY shows it (public_key_sexp in crates/scd-shim/src/main.rs),
    against a canonical S-expression written from its tree. */
module KeySexp {
  import opened Common

  function Ascii(s: string): seq<Byte> {
    seq(|s|, i requires 0 <= i < |s| => s[i] as int % 256)
  }

  function PublicKeySexp(publicKey: seq<Byte>): seq<Byte> {
    Ascii("(10:public-key(3:ecc(5:curve7:Ed25519)(5:flags5:eddsa)(1:q33:") + [0x40] + publicKey + Ascii(")))")
  }

  /** A canonical S-expression: an atom is written behind its length. */
  datatype Sexp = Atom(bytes: seq<Byte>) | List(items: seq<Sexp>)

  function Decimal(n: nat): string {
    (if n < 10 then "" else Decimal(n / 10)) + [('0' as int + n % 10) as char]
  }

  function WriteSexp(v: Sexp): seq<Byte> {
    match v
    case Atom(bytes) => Ascii(Decimal(|bytes|)) + Ascii(":") + bytes
    case List(items) => Ascii("(") + WriteSexps(items) + Ascii(")")
  }

  function WriteSexps(items: seq<Sexp>): seq<Byte> {
    if items == [] then [] else WriteSexp(items[0]) + WriteSexps(items[1..])
  }

  function Word(text: string): Sexp {
    Atom(Ascii(text))
  }

  /** A public key on the curve Ed25519, used for EdDSA, with its point q. */
  function KeyTree(publicKey: seq<Byte>): Sexp {
    List([Word("public-key"),
          List([Word("ecc"),
                List([Word("curve"), Word("Ed25519")]),
                List([Word("flags"), Word("eddsa")]),
                List([Word("q"), Atom([0x40] + publicKey)])])])
  }

  lemma AsciiAdds(a: string, b: string)
    ensures Ascii(a + b) == Ascii(a) + Ascii(b)
  {
  }

  lemma WriteTwo(a: Sexp, b: Sexp)
    ensures WriteSexp(List([a, b])) == Ascii("(") + (WriteSexp(a) + WriteSexp(b)) + Ascii(")")
  {
    hide Ascii;
    assert [a, b][1..] == [b] && [b][1..] == [];
    assert WriteSexps([]) == [];
    assert WriteSexps([b]) == WriteSexp(b);
    assert WriteSexps([a, b]) == WriteSexp(a) + WriteSexps([b]);
  }

  lemma WriteFirst(first: Sexp, rest: seq<Sexp>)
    ensures WriteSexps([first] + rest) == WriteSexp(first) + WriteSexps(rest)
  {
    assert ([first] + rest)[1..] == rest;
  }

  lemma WriteLast(last: Sexp)
    ensures WriteSexps([last]) == WriteSexp(last)
  {
    assert [last][1..] == [] && WriteSexps([]) == [];
  }

  lemma WriteList(items: seq<Sexp>)
    ensures WriteSexp(List(items)) == Ascii("(") + WriteSexps(items) + Ascii(")")
  {
  }

  lemma WriteFour(a: Sexp, b: Sexp, c: Sexp, d: Sexp)
    ensures WriteSexp(List([a, b, c, d]))
            == Ascii("(") + (WriteSexp(a) + WriteSexp(b) + WriteSexp(c) + WriteSexp(d)) + Ascii(")")
  {
    hide WriteSexp, WriteSexps, Ascii;
    WriteList([a, b, c, d]);
    WriteLast(d);
    WriteFirst(c, [d]);
    WriteFirst(b, [c] + [d]);
    WriteFirst(a, [b] + ([c] + [d]));
    assert [a] + ([b] + ([c] + [d])) == [a, b, c, d];
  }

  lemma WriteWord(text: string, digits: string)
    requires Decimal(|text|) == digits
    ensures WriteSexp(Word(text)) == Ascii(digits + ":" + text)
  {
    AsciiAdds(digits + ":", text);
    AsciiAdds(digits, ":");
  }

  lemma Digits()
    ensures Decimal(1) == "1" && Decimal(3) == "3" && Decimal(5) == "5" && Decimal(7) == "7"
    ensures Decimal(10) == "10" && Decimal(33) == "33"
  {
    assert Decimal(10) == Decimal(1) + "0" && Decimal(33) == Decimal(3) + "3";
  }

  lemma TwoWords(a: string, b: string, m: string, n: string)
    requires Decimal(|a|) == m && Decimal(|b|) == n
    ensures WriteSexp(List([Word(a), Word(b)])) == Ascii("(" + (m + ":" + a) + (n + ":" + b) + ")")
  {
    hide WriteSexp, Ascii, Decimal, Word;
    WriteTwo(Word(a), Word(b));
    WriteWord(a, m);
    WriteWord(b, n);
    AsciiAdds("(" + (m + ":" + a) + (n + ":" + b), ")");
    AsciiAdds("(" + (m + ":" + a), n + ":" + b);
    AsciiAdds("(", m + ":" + a);
  }

  lemma PointIs(publicKey: seq<Byte>)
    requires |publicKey| == 32
    ensures WriteSexp(List([Word("q"), Atom([0x40] + publicKey)]))
            == Ascii("(1:q33:") + ([0x40] + publicKey) + Ascii(")")
  {
    hide Ascii, Decimal, Word, WriteSexp;
    Digits();
    WriteTwo(Word("q"), Atom([0x40] + publicKey));
    WriteWord("q", "1");
    WritePoint(publicKey);
    PointText();
    var text, point := Ascii("33") + Ascii(":"), [0x40] + publicKey;
    assert Ascii("(") + (Ascii("1:q") + (text + point)) + Ascii(")")
           == (Ascii("(") + Ascii("1:q") + text) + point + Ascii(")");
  }

  lemma WritePoint(publicKey: seq<Byte>)
    requires |publicKey| == 32
    ensures WriteSexp(Atom([0x40] + publicKey)) == Ascii("33") + Ascii(":") + ([0x40] + publicKey)
  {
    hide Ascii, Decimal;
    Digits();
  }

  lemma PointText()
    ensures "1" + ":" + "q" == "1:q"
    ensures Ascii("(1:q33:") == Ascii("(") + Ascii("1:q") + (Ascii("33") + Ascii(":"))
  {
    hide Ascii;
    AsciiAdds("33", ":");
    AsciiAdds("(", "1:q");
    AsciiAdds("(" + "1:q", "33" + ":");
    assert ("(" + "1:q") + ("33" + ":") == "(1:q33:";
  }

  /** The answer of READKEY is the canonical S-expression of the key. */
  lemma SexpIsTheKeys(publicKey: seq<Byte>)
    requires |publicKey| == 32
    ensures PublicKeySexp(publicKey) == WriteSexp(KeyTree(publicKey))
  {
    hide WriteSexp, Ascii, Decimal, Word;
    Digits();
    var curve := List([Word("curve"), Word("Ed25519")]);
    var flags := List([Word("flags"), Word("eddsa")]);
    var point := List([Word("q"), Atom([0x40] + publicKey)]);
    var ecc := List([Word("ecc"), curve, flags, point]);
    TwoWords("curve", "Ed25519", "5", "7");
    TwoWords("flags", "eddsa", "5", "5");
    PointIs(publicKey);
    WriteWord("ecc", "3");
    WriteWord("public-key", "10");
    WriteFour(Word("ecc"), curve, flags, point);
    WriteTwo(Word("public-key"), ecc);
    Prefix(publicKey);
    assert KeyTree(publicKey) == List([Word("public-key"), ecc]);
    Brackets();
  }

  lemma Brackets()
    ensures Ascii(")))") == Ascii(")") + Ascii(")") + Ascii(")")
  {
  }

  /** The fixed text before the point, in the pieces the tree writes. */
  lemma Prefix(publicKey: seq<Byte>)
    ensures Ascii("(10:public-key(3:ecc(5:curve7:Ed25519)(5:flags5:eddsa)(1:q33:")
            == Ascii("(") + Ascii("10" + ":" + "public-key") + Ascii("(") + Ascii("3" + ":" + "ecc")
               + Ascii("(" + ("5" + ":" + "curve") + ("7" + ":" + "Ed25519") + ")")
               + Ascii("(" + ("5" + ":" + "flags") + ("5" + ":" + "eddsa") + ")") + Ascii("(1:q33:")
  {
    hide Ascii;
    var a, b, c := "(" + ("10" + ":" + "public-key"), "(" + ("3" + ":" + "ecc"),
                   "(" + ("5" + ":" + "curve") + ("7" + ":" + "Ed25519") + ")";
    var d, e := "(" + ("5" + ":" + "flags") + ("5" + ":" + "eddsa") + ")", "(1:q33:";
    AsciiAdds("(", "10" + ":" + "public-key");
    AsciiAdds("(", "3" + ":" + "ecc");
    AsciiAdds(a, b);
    AsciiAdds(a + b, c);
    AsciiAdds(a + b + c, d);
    AsciiAdds(a + b + c + d, e);
    Spelled();
  }

  lemma Spelled()
    ensures var a, b, c := "(" + ("10" + ":" + "public-key"), "(" + ("3" + ":" + "ecc"),
                           "(" + ("5" + ":" + "curve") + ("7" + ":" + "Ed25519") + ")";
            var d, e := "(" + ("5" + ":" + "flags") + ("5" + ":" + "eddsa") + ")", "(1:q33:";
            a + b + c + d + e == "(10:public-key(3:ecc(5:curve7:Ed25519)(5:flags5:eddsa)(1:q33:"
  {
    SpelledHead();
    SpelledPairs();
    SpelledFront();
    SpelledBack();
  }

  lemma SpelledHead()
    ensures "(" + ("10" + ":" + "public-key") == "(10:public-key" && "(" + ("3" + ":" + "ecc") == "(3:ecc"
  {
  }

  lemma SpelledPairs()
    ensures "(" + ("5" + ":" + "curve") + ("7" + ":" + "Ed25519") + ")" == "(5:curve7:Ed25519)"
    ensures "(" + ("5" + ":" + "flags") + ("5" + ":" + "eddsa") + ")" == "(5:flags5:eddsa)"
  {
  }

  lemma SpelledFront()
    ensures "(10:public-key" + "(3:ecc" + "(5:curve7:Ed25519)" == "(10:public-key(3:ecc(5:curve7:Ed25519)"
  {
  }

  lemma SpelledBack()
    ensures "(10:public-key(3:ecc(5:curve7:Ed25519)" + "(5:flags5:eddsa)" + "(1:q33:"
            == "(10:public-key(3:ecc(5:curve7:Ed25519)(5:flags5:eddsa)(1:q33:"
  {
  }
}
