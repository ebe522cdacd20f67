/** The self-signed certificate of create_self_signed_cert (crates/pkcs11-gpg/src/module.rs)
    against an independent reader of DER: definite, minimal lengths (sections 8.1.3 and 10.1
    of X.690) and the certificate of section 4.1 of RFC 5280. */
module Certificate {
  import opened Common

  // ---- The encoder, as written ----

  /** der_len: casts to one octet keep the low eight bits. */
  function DerLen(len: nat): seq<Byte> {
    if len < 128 then [len]
    else if len < 256 then [0x81, len]
    else [0x82, (len / 256) % 256, len % 256]
  }

  /** Section 8.1.3 of X.690: one octet up to 127, else the number of length octets that
      follow and the length in them, most significant first. */
  lemma DerLenSays(len: nat)
    ensures len < 128 ==> DerLen(len) == [len]
    ensures 128 <= len < 256 ==> DerLen(len) == [128 + 1, len]
    ensures 256 <= len < 65536 ==>
      |DerLen(len)| == 3 && DerLen(len)[0] == 128 + 2 && DerLen(len)[1] as int * 256 + DerLen(len)[2] == len
  {
  }

  function DerTag(tag: Byte, contents: seq<Byte>): seq<Byte> {
    [tag] + DerLen(|contents|) + contents
  }

  function Concat(parts: seq<seq<Byte>>): seq<Byte> {
    if parts == [] then [] else parts[0] + Concat(parts[1..])
  }

  lemma {:induction false} ConcatSnoc(parts: seq<seq<Byte>>, last: seq<Byte>)
    ensures Concat(parts + [last]) == Concat(parts) + last
  {
    if parts == [] {
      assert parts + [last] == [last];
    } else {
      assert (parts + [last])[1..] == parts[1..] + [last];
      ConcatSnoc(parts[1..], last);
    }
  }

  /** der_seq: appends the parts one by one under a SEQUENCE tag. */
  method DerSeq(parts: seq<seq<Byte>>) returns (out: seq<Byte>)
    ensures out == DerTag(0x30, Concat(parts))
  {
    var contents := [];
    for i := 0 to |parts|
      invariant contents == Concat(parts[..i])
    {
      ConcatSnoc(parts[..i], parts[i]);
      assert parts[..i + 1] == parts[..i] + [parts[i]];
      contents := contents + parts[i];
    }
    assert parts[..|parts|] == parts;
    out := DerTag(0x30, contents);
  }

  // ---- An independent reader ----

  /** A value of tag-length-value form: primitive, or constructed from nested values. */
  datatype Tlv = Prim(tag: Byte, body: seq<Byte>) | Cons(tag: Byte, parts: seq<Tlv>)

  /** Bit 6 of the identifier octet marks a constructed encoding (section 8.1.2.5 of X.690). */
  predicate Constructed(tag: Byte) {
    (tag / 32) % 2 == 1
  }

  function BigEndian(octets: seq<Byte>): nat {
    if octets == [] then 0 else BigEndian(octets[..|octets| - 1]) * 256 + octets[|octets| - 1]
  }

  datatype Header = Header(length: nat, size: nat)

  /** Length octets at the front: short form, or long form with as few octets as possible. */
  function ReadLength(s: seq<Byte>): (h: Option<Header>)
    ensures h.Some? ==> 1 <= h.value.size <= |s|
  {
    if s == [] then None
    else if s[0] < 128 then Some(Header(s[0], 1))
    else
      var n := s[0] - 128;
      if n == 0 || n == 127 || |s| < 1 + n then None
      else
        var octets := s[1..1 + n];
        if octets[0] == 0 || BigEndian(octets) < 128 then None else Some(Header(BigEndian(octets), 1 + n))
  }

  /** One value at the front, and what follows it. */
  function ReadOne(s: seq<Byte>): (r: Option<(Tlv, seq<Byte>)>)
    ensures r.Some? ==> |r.value.1| < |s|
    decreases |s|, 0
  {
    if s == [] then None
    else
      match ReadLength(s[1..])
      case None => None
      case Some(h) =>
        var from := 1 + h.size;
        if |s| < from + h.length then None
        else
          var body, rest := s[from..from + h.length], s[from + h.length..];
          if Constructed(s[0]) then
            match ReadAll(body)
            case Some(parts) => Some((Cons(s[0], parts), rest))
            case None => None
          else Some((Prim(s[0], body), rest))
  }

  /** The text read as a sequence of values with nothing left over. */
  function ReadAll(s: seq<Byte>): Option<seq<Tlv>>
    decreases |s|, 1
  {
    if s == [] then Some([])
    else
      match ReadOne(s)
      case None => None
      case Some((first, rest)) =>
        match ReadAll(rest)
        case Some(others) => Some([first] + others)
        case None => None
  }

  /** A whole DER value, nothing left over. */
  function Read(s: seq<Byte>): Option<Tlv> {
    match ReadOne(s)
    case Some((v, rest)) => if rest == [] then Some(v) else None
    case None => None
  }

  // ---- Trees, written with the encoder and read back ----

  function Write(v: Tlv): seq<Byte>
    decreases v, 0
  {
    match v
    case Prim(tag, body) => DerTag(tag, body)
    case Cons(tag, parts) => DerTag(tag, WriteAll(parts))
  }

  function WriteAll(parts: seq<Tlv>): seq<Byte>
    decreases parts, 1
  {
    if parts == [] then [] else Write(parts[0]) + WriteAll(parts[1..])
  }

  function ContentLength(v: Tlv): nat {
    match v case Prim(_, body) => |body| case Cons(_, parts) => |WriteAll(parts)|
  }

  /** Tags agree with the shape and every content fits two length octets. */
  predicate Fits(v: Tlv)
    decreases v, 0
  {
    && ContentLength(v) < 65536
    && match v
       case Prim(tag, _) => !Constructed(tag)
       case Cons(tag, parts) => Constructed(tag) && AllFit(parts)
  }

  predicate AllFit(parts: seq<Tlv>)
    decreases parts, 1
  {
    parts == [] || (Fits(parts[0]) && AllFit(parts[1..]))
  }

  lemma LengthReads(len: nat, rest: seq<Byte>)
    requires len < 65536
    ensures ReadLength(DerLen(len) + rest) == Some(Header(len, |DerLen(len)|))
  {
    var s := DerLen(len) + rest;
    if len >= 128 && len < 256 {
      assert s[1..2] == [len];
      assert [len][..0] == [];
      assert BigEndian([len]) == len;
    } else if len >= 256 {
      var hi, lo := (len / 256) % 256, len % 256;
      assert s[1..3] == [hi, lo];
      assert [hi, lo][..1] == [hi] && [hi][..0] == [];
      assert BigEndian([hi]) == hi;
      assert BigEndian([hi, lo]) == hi * 256 + lo;
    }
  }

  /** Reading undoes writing for every tree whose contents fit. */
  lemma {:induction false} WriteReads(v: Tlv, rest: seq<Byte>)
    requires Fits(v)
    ensures ReadOne(Write(v) + rest) == Some((v, rest))
    decreases v, 0
  {
    var body := if v.Prim? then v.body else WriteAll(v.parts);
    TagReads(v.tag, body, rest);
    if v.Cons? {
      WriteAllReads(v.parts);
    }
  }

  lemma {:induction false} WriteAllReads(parts: seq<Tlv>)
    requires AllFit(parts)
    ensures ReadAll(WriteAll(parts)) == Some(parts)
    decreases parts, 1
  {
    if parts != [] {
      WriteReads(parts[0], WriteAll(parts[1..]));
      WriteAllReads(parts[1..]);
      assert [parts[0]] + parts[1..] == parts;
    }
  }

  lemma TagReads(tag: Byte, body: seq<Byte>, rest: seq<Byte>)
    requires |body| < 65536
    ensures var s := DerTag(tag, body) + rest;
            ReadOne(s) == if Constructed(tag) then
                            match ReadAll(body) case Some(parts) => Some((Cons(tag, parts), rest)) case None => None
                          else Some((Prim(tag, body), rest))
  {
    hide ReadAll, ReadOne, ReadLength, Constructed, DerLen, DerTag;
    TagShape(tag, body, rest);
    LengthReads(|body|, body + rest);
    ReadBody(DerTag(tag, body) + rest, |body|, |DerLen(|body|)|);
  }

  lemma TagShape(tag: Byte, body: seq<Byte>, rest: seq<Byte>)
    ensures var s, size := DerTag(tag, body) + rest, |DerLen(|body|)|;
            && 1 + size + |body| <= |s| && s[0] == tag
            && s[1..] == DerLen(|body|) + (body + rest)
            && s[1 + size..1 + size + |body|] == body && s[1 + size + |body|..] == rest
  {
    hide DerLen;
  }

  lemma ReadBody(s: seq<Byte>, length: nat, size: nat)
    requires s != [] && ReadLength(s[1..]) == Some(Header(length, size)) && 1 + size + length <= |s|
    ensures ReadOne(s) ==
      var body, rest := s[1 + size..1 + size + length], s[1 + size + length..];
      if Constructed(s[0]) then
        match ReadAll(body) case Some(parts) => Some((Cons(s[0], parts), rest)) case None => None
      else Some((Prim(s[0], body), rest))
  {
    hide ReadAll, ReadLength, Constructed;
  }

  // ---- The certificate ----

  const Ed25519Oid: seq<Byte> := [0x2b, 0x65, 0x70]
  const CommonNameOid: seq<Byte> := [0x55, 0x04, 0x03]
  /** "700101000000Z" and "491231235959Z" */
  const NotBefore: seq<Byte> := [0x37, 0x30, 0x30, 0x31, 0x30, 0x31, 0x30, 0x30, 0x30, 0x30, 0x30, 0x30, 0x5a]
  const NotAfter: seq<Byte> := [0x34, 0x39, 0x31, 0x32, 0x33, 0x31, 0x32, 0x33, 0x35, 0x39, 0x35, 0x39, 0x5a]

  const Algorithm := Cons(0x30, [Prim(0x06, Ed25519Oid)])

  /** Name: one relative name with the label as commonName. */
  function Name(name: seq<Byte>): Tlv {
    Cons(0x30, [Cons(0x31, [Cons(0x30, [Prim(0x06, CommonNameOid), Prim(0x0c, name)])])])
  }

  function Zeros(n: nat): seq<Byte> {
    seq(n, _ => 0)
  }

  /** TBSCertificate: version 3, serial 1, issuer and subject alike, the public key. */
  function TbsCertificate(publicKey: seq<Byte>, name: seq<Byte>): Tlv {
    Cons(0x30, [
      Cons(0xa0, [Prim(0x02, [2])]),
      Prim(0x02, [1]),
      Algorithm,
      Name(name),
      Cons(0x30, [Prim(0x17, NotBefore), Prim(0x17, NotAfter)]),
      Name(name),
      Cons(0x30, [Algorithm, Prim(0x03, [0] + publicKey)])])
  }

  function CertificateTree(publicKey: seq<Byte>, name: seq<Byte>): Tlv {
    Cons(0x30, [TbsCertificate(publicKey, name), Algorithm, Prim(0x03, [0] + Zeros(64))])
  }

  lemma WriteAllCons(a: Tlv, rest: seq<Tlv>)
    ensures WriteAll([a] + rest) == Write(a) + WriteAll(rest)
    ensures AllFit([a] + rest) <==> Fits(a) && AllFit(rest)
  {
    assert ([a] + rest)[1..] == rest;
  }

  lemma WriteAll1(a: Tlv)
    ensures WriteAll([a]) == Write(a)
    ensures AllFit([a]) <==> Fits(a)
  {
    WriteAllCons(a, []);
    assert [a] + [] == [a];
  }

  lemma WriteAll2(a: Tlv, b: Tlv)
    ensures WriteAll([a, b]) == Write(a) + Write(b)
    ensures AllFit([a, b]) <==> Fits(a) && Fits(b)
  {
    hide Write, Fits;
    WriteAllCons(a, [b]);
    assert [a] + [b] == [a, b];
    WriteAll1(b);
  }

  lemma WriteAll3(a: Tlv, b: Tlv, c: Tlv)
    ensures WriteAll([a, b, c]) == Write(a) + (Write(b) + Write(c))
    ensures AllFit([a, b, c]) <==> Fits(a) && Fits(b) && Fits(c)
  {
    hide Write, Fits;
    WriteAllCons(a, [b, c]);
    assert [a] + [b, c] == [a, b, c];
    WriteAll2(b, c);
  }

  lemma WriteAll5(a: Tlv, b: Tlv, c: Tlv, d: Tlv, e: Tlv)
    ensures WriteAll([a, b, c, d, e]) == Write(a) + (Write(b) + (Write(c) + (Write(d) + Write(e))))
    ensures AllFit([a, b, c, d, e]) <==> Fits(a) && Fits(b) && Fits(c) && Fits(d) && Fits(e)
  {
    hide Write, Fits, WriteAll, AllFit;
    WriteAllCons(a, [b, c, d, e]);
    assert [a] + [b, c, d, e] == [a, b, c, d, e];
    WriteAllCons(b, [c, d, e]);
    assert [b] + [c, d, e] == [b, c, d, e];
    WriteAll3(c, d, e);
  }

  lemma WriteAll7(a: Tlv, b: Tlv, c: Tlv, d: Tlv, e: Tlv, f: Tlv, g: Tlv)
    ensures WriteAll([a, b, c, d, e, f, g])
            == Write(a) + (Write(b) + (Write(c) + (Write(d) + (Write(e) + (Write(f) + Write(g))))))
    ensures AllFit([a, b, c, d, e, f, g]) <==>
      Fits(a) && Fits(b) && Fits(c) && Fits(d) && Fits(e) && Fits(f) && Fits(g)
  {
    hide Write, Fits, WriteAll, AllFit;
    WriteAllCons(a, [b, c, d, e, f, g]);
    assert [a] + [b, c, d, e, f, g] == [a, b, c, d, e, f, g];
    WriteAllCons(b, [c, d, e, f, g]);
    assert [b] + [c, d, e, f, g] == [b, c, d, e, f, g];
    WriteAll5(c, d, e, f, g);
  }

  /** create_self_signed_cert, step by step. */
  method CreateSelfSignedCert(publicKey: seq<Byte>, name: seq<Byte>) returns (cert: seq<Byte>)
    ensures cert == Write(CertificateTree(publicKey, name))
    ensures |publicKey| == 32 ==>
      (Read(cert).Some? && Certifies(Read(cert).value, publicKey, name) <==> |name| <= 32662)
  {
    hide DerTag, Read, Certifies;
    var algorithm := DerSeq([DerTag(0x06, Ed25519Oid)]);
    assert algorithm == Write(Algorithm) by { Concat1(DerTag(0x06, Ed25519Oid)); WriteAll1(Prim(0x06, Ed25519Oid)); }

    var cnAttr := DerSeq([DerTag(0x06, CommonNameOid), DerTag(0x0c, name)]);
    ghost var attr := Cons(0x30, [Prim(0x06, CommonNameOid), Prim(0x0c, name)]);
    assert cnAttr == Write(attr) by {
      Concat2(DerTag(0x06, CommonNameOid), DerTag(0x0c, name));
      WriteAll2(Prim(0x06, CommonNameOid), Prim(0x0c, name));
    }
    var cnSet := DerTag(0x31, cnAttr);
    assert cnSet == Write(Cons(0x31, [attr])) by { WriteAll1(attr); }
    var wholeName := DerSeq([cnSet]);
    assert wholeName == Write(Name(name)) by { Concat1(cnSet); WriteAll1(Cons(0x31, [attr])); }

    var validity := DerSeq([DerTag(0x17, NotBefore), DerTag(0x17, NotAfter)]);
    ghost var validityTree := Cons(0x30, [Prim(0x17, NotBefore), Prim(0x17, NotAfter)]);
    assert validity == Write(validityTree) by {
      Concat2(DerTag(0x17, NotBefore), DerTag(0x17, NotAfter));
      WriteAll2(Prim(0x17, NotBefore), Prim(0x17, NotAfter));
    }

    var bits := DerTag(0x03, [0] + publicKey);
    var spki := DerSeq([algorithm, bits]);
    ghost var spkiTree := Cons(0x30, [Algorithm, Prim(0x03, [0] + publicKey)]);
    assert spki == Write(spkiTree) by {
      Concat2(algorithm, bits);
      WriteAll2(Algorithm, Prim(0x03, [0] + publicKey));
    }

    var version := DerTag(0xa0, DerTag(0x02, [2]));
    ghost var versionTree := Cons(0xa0, [Prim(0x02, [2])]);
    assert version == Write(versionTree) by { WriteAll1(Prim(0x02, [2])); }
    var serial := DerTag(0x02, [1]);

    var tbs := DerSeq([version, serial, algorithm, wholeName, validity, wholeName, spki]);
    assert tbs == Write(TbsCertificate(publicKey, name)) by {
      Concat7(version, serial, algorithm, wholeName, validity, wholeName, spki);
      WriteAll7(versionTree, Prim(0x02, [1]), Algorithm, Name(name), validityTree, Name(name), spkiTree);
    }

    var signature := DerTag(0x03, [0] + Zeros(64));
    cert := DerSeq([tbs, algorithm, signature]);
    Concat3(tbs, algorithm, signature);
    WriteAll3(TbsCertificate(publicKey, name), Algorithm, Prim(0x03, [0] + Zeros(64)));
    if |publicKey| == 32 {
      CertificateSays(publicKey, name);
    }
  }

  lemma ConcatCons(a: seq<Byte>, rest: seq<seq<Byte>>)
    ensures Concat([a] + rest) == a + Concat(rest)
  {
    assert ([a] + rest)[1..] == rest;
  }

  lemma Concat1(a: seq<Byte>)
    ensures Concat([a]) == a
  {
    assert [a][1..] == [];
  }

  lemma Concat2(a: seq<Byte>, b: seq<Byte>)
    ensures Concat([a, b]) == a + b
  {
    ConcatCons(a, [b]);
    assert [a] + [b] == [a, b];
    Concat1(b);
  }

  lemma Concat3(a: seq<Byte>, b: seq<Byte>, c: seq<Byte>)
    ensures Concat([a, b, c]) == a + (b + c)
  {
    ConcatCons(a, [b, c]);
    assert [a] + [b, c] == [a, b, c];
    Concat2(b, c);
  }

  lemma Concat5(a: seq<Byte>, b: seq<Byte>, c: seq<Byte>, d: seq<Byte>, e: seq<Byte>)
    ensures Concat([a, b, c, d, e]) == a + (b + (c + (d + e)))
  {
    hide Concat;
    ConcatCons(a, [b, c, d, e]);
    assert [a] + [b, c, d, e] == [a, b, c, d, e];
    ConcatCons(b, [c, d, e]);
    assert [b] + [c, d, e] == [b, c, d, e];
    Concat3(c, d, e);
  }

  lemma Concat7(a: seq<Byte>, b: seq<Byte>, c: seq<Byte>, d: seq<Byte>, e: seq<Byte>, f: seq<Byte>, g: seq<Byte>)
    ensures Concat([a, b, c, d, e, f, g]) == a + (b + (c + (d + (e + (f + g)))))
  {
    hide Concat;
    ConcatCons(a, [b, c, d, e, f, g]);
    assert [a] + [b, c, d, e, f, g] == [a, b, c, d, e, f, g];
    ConcatCons(b, [c, d, e, f, g]);
    assert [b] + [c, d, e, f, g] == [b, c, d, e, f, g];
    Concat5(c, d, e, f, g);
  }

  // ---- When the certificate reads back ----

  /** Size of a value with this much content. */
  function Size(content: nat): nat {
    1 + |DerLen(content)| + content
  }

  lemma SizeOf(v: Tlv)
    ensures |Write(v)| == Size(ContentLength(v))
  {
  }

  function NameSize(n: nat): nat {
    Size(Size(Size(5 + Size(n))))
  }

  lemma NameLengths(name: seq<Byte>)
    ensures ContentLength(Name(name)) == Size(Size(5 + Size(|name|)))
    ensures Fits(Name(name)) <==> ContentLength(Name(name)) < 65536
    ensures |Write(Name(name))| == NameSize(|name|)
  {
    var oid, cn := Prim(0x06, CommonNameOid), Prim(0x0c, name);
    var attr := Cons(0x30, [oid, cn]);
    var rdn := Cons(0x31, [attr]);
    WriteAll2(oid, cn);
    WriteAll1(attr);
    WriteAll1(rdn);
    SizeOf(rdn);
    SizeOf(attr);
    SizeOf(cn);
  }

  lemma AlgorithmFits()
    ensures Fits(Algorithm) && |Write(Algorithm)| == 7
  {
    WriteAll1(Prim(0x06, Ed25519Oid));
  }

  lemma SmallParts(publicKey: seq<Byte>)
    requires |publicKey| == 32
    ensures var version := Cons(0xa0, [Prim(0x02, [2])]);
            var validity := Cons(0x30, [Prim(0x17, NotBefore), Prim(0x17, NotAfter)]);
            var spki := Cons(0x30, [Algorithm, Prim(0x03, [0] + publicKey)]);
            && Fits(version) && |Write(version)| == 5
            && Fits(validity) && |Write(validity)| == 32
            && Fits(spki) && |Write(spki)| == 44
  {
    AlgorithmFits();
    WriteAll1(Prim(0x02, [2]));
    WriteAll2(Prim(0x17, NotBefore), Prim(0x17, NotAfter));
    WriteAll2(Algorithm, Prim(0x03, [0] + publicKey));
  }

  lemma TbsLengths(publicKey: seq<Byte>, name: seq<Byte>)
    requires |publicKey| == 32
    ensures ContentLength(TbsCertificate(publicKey, name)) == 91 + 2 * NameSize(|name|)
    ensures Fits(TbsCertificate(publicKey, name)) <==> ContentLength(TbsCertificate(publicKey, name)) < 65536
  {
    hide Write, DerTag;
    var version := Cons(0xa0, [Prim(0x02, [2])]);
    var serial := Prim(0x02, [1]);
    var validity := Cons(0x30, [Prim(0x17, NotBefore), Prim(0x17, NotAfter)]);
    var spki := Cons(0x30, [Algorithm, Prim(0x03, [0] + publicKey)]);
    SmallParts(publicKey);
    AlgorithmFits();
    NameLengths(name);
    WriteAll7(version, serial, Algorithm, Name(name), validity, Name(name), spki);
    SizeOf(serial);
  }

  lemma CertificateLengths(publicKey: seq<Byte>, name: seq<Byte>)
    requires |publicKey| == 32
    ensures ContentLength(CertificateTree(publicKey, name)) == 74 + Size(91 + 2 * NameSize(|name|))
    ensures Fits(CertificateTree(publicKey, name)) <==> ContentLength(CertificateTree(publicKey, name)) < 65536
  {
    hide Write, DerTag;
    var tbs, sig := TbsCertificate(publicKey, name), Prim(0x03, [0] + Zeros(64));
    TbsLengths(publicKey, name);
    AlgorithmFits();
    WriteAll3(tbs, Algorithm, sig);
    SizeOf(tbs);
    SizeOf(sig);
  }

  /** With a label of 256 octets or more the outer content is 211 + 2 * length. */
  lemma OuterContent(n: nat)
    ensures n >= 256 ==> 74 + Size(91 + 2 * NameSize(n)) == 211 + 2 * n
    ensures n < 256 ==> 74 + Size(91 + 2 * NameSize(n)) < 65536
  {
  }

  /** A content of more than two length octets cannot be read back as a whole value. */
  lemma OversizeUnreadable(tag: Byte, body: seq<Byte>)
    requires |body| >= 65536
    ensures Read(DerTag(tag, body)) == None
  {
    hide ReadAll;
    var s := DerTag(tag, body);
    var t := DerLen(|body|) + body;
    assert s[1..] == t;
    var hi, lo := (|body| / 256) % 256, |body| % 256;
    assert t[1..3] == [hi, lo];
    assert [hi, lo][..1] == [hi] && [hi][..0] == [];
    assert BigEndian([hi]) == hi;
    assert BigEndian([hi, lo]) == hi * 256 + lo;
  }

  /** The certificate reads back as exactly the intended tree, with the key and with the
      label in issuer and subject, for every label up to 32662 octets and for no other. */
  lemma CertificateReadsBack(publicKey: seq<Byte>, name: seq<Byte>)
    requires |publicKey| == 32
    ensures Read(Write(CertificateTree(publicKey, name))) == Some(CertificateTree(publicKey, name)) <==> |name| <= 32662
  {
    var tree := CertificateTree(publicKey, name);
    CertificateLengths(publicKey, name);
    OuterContent(|name|);
    if |name| <= 32662 {
      WriteReads(tree, []);
      assert Write(tree) + [] == Write(tree);
    } else {
      OversizeUnreadable(tree.tag, WriteAll(tree.parts));
    }
  }

  // ---- What the certificate says ----

  predicate IsPrim(v: Tlv, tag: Byte, body: seq<Byte>) {
    v.Prim? && v.tag == tag && v.body == body
  }

  predicate IsCons(v: Tlv, tag: Byte, count: nat) {
    v.Cons? && v.tag == tag && |v.parts| == count
  }

  /** AlgorithmIdentifier of id-Ed25519, 1.3.101.112, without parameters. */
  predicate IsEd25519(v: Tlv) {
    IsCons(v, 0x30, 1) && IsPrim(v.parts[0], 0x06, [1 * 40 + 3, 101, 112])
  }

  /** A Name of one relative name of one attribute, commonName (2.5.4.3) in UTF-8. */
  predicate IsCommonName(v: Tlv, text: seq<Byte>) {
    && IsCons(v, 0x30, 1) && IsCons(v.parts[0], 0x31, 1) && IsCons(v.parts[0].parts[0], 0x30, 2)
    && IsPrim(v.parts[0].parts[0].parts[0], 0x06, [2 * 40 + 5, 4, 3])
    && IsPrim(v.parts[0].parts[0].parts[1], 0x0c, text)
  }

  /** The octets of decimal digits and a final Z, as a UTCTime. */
  predicate IsUtcTime(v: Tlv, digits: seq<nat>) {
    && v.Prim? && v.tag == 0x17 && |v.body| == |digits| + 1 && v.body[|digits|] == 0x5a
    && forall i :: 0 <= i < |digits| ==> v.body[i] == 0x30 + digits[i]
  }

  /** The tree is a certificate of version 3 with serial number 1, valid from 1970-01-01 to
      2049-12-31 23:59:59, for this key and label, by itself, with a signature of zeros. */
  predicate Certifies(v: Tlv, publicKey: seq<Byte>, subject: seq<Byte>) {
    && IsCons(v, 0x30, 3) && IsCons(v.parts[0], 0x30, 7)
    && var tbs := v.parts[0].parts;
       && IsCons(tbs[0], 0xa0, 1) && IsPrim(tbs[0].parts[0], 0x02, [2])
       && IsPrim(tbs[1], 0x02, [1])
       && IsEd25519(tbs[2])
       && IsCommonName(tbs[3], subject)
       && IsCons(tbs[4], 0x30, 2)
       && IsUtcTime(tbs[4].parts[0], [7, 0, 0, 1, 0, 1, 0, 0, 0, 0, 0, 0])
       && IsUtcTime(tbs[4].parts[1], [4, 9, 1, 2, 3, 1, 2, 3, 5, 9, 5, 9])
       && IsCommonName(tbs[5], subject)
       && IsCons(tbs[6], 0x30, 2) && IsEd25519(tbs[6].parts[0]) && IsPrim(tbs[6].parts[1], 0x03, [0] + publicKey)
       && IsEd25519(v.parts[1])
       && v.parts[2].Prim? && v.parts[2].tag == 0x03 && |v.parts[2].body| == 65
       && forall i :: 0 <= i < 65 ==> v.parts[2].body[i] == 0
  }

  lemma PartsSay(publicKey: seq<Byte>, subject: seq<Byte>)
    ensures IsEd25519(Algorithm) && IsCommonName(Name(subject), subject)
    ensures IsUtcTime(Prim(0x17, NotBefore), [7, 0, 0, 1, 0, 1, 0, 0, 0, 0, 0, 0])
    ensures IsUtcTime(Prim(0x17, NotAfter), [4, 9, 1, 2, 3, 1, 2, 3, 5, 9, 5, 9])
  {
  }

  lemma TbsSays(publicKey: seq<Byte>, subject: seq<Byte>)
    ensures var v := TbsCertificate(publicKey, subject);
            && IsCons(v, 0x30, 7)
            && IsCons(v.parts[0], 0xa0, 1) && IsPrim(v.parts[0].parts[0], 0x02, [2]) && IsPrim(v.parts[1], 0x02, [1])
            && v.parts[2] == Algorithm && v.parts[3] == v.parts[5] == Name(subject)
            && IsCons(v.parts[4], 0x30, 2)
            && v.parts[4].parts == [Prim(0x17, NotBefore), Prim(0x17, NotAfter)]
            && IsCons(v.parts[6], 0x30, 2) && v.parts[6].parts[0] == Algorithm
            && IsPrim(v.parts[6].parts[1], 0x03, [0] + publicKey)
  {
    hide Name, Algorithm, NotBefore, NotAfter;
  }

  lemma TreeCertifies(publicKey: seq<Byte>, subject: seq<Byte>)
    ensures Certifies(CertificateTree(publicKey, subject), publicKey, subject)
  {
    hide IsEd25519, IsCommonName, IsUtcTime, TbsCertificate;
    PartsSay(publicKey, subject);
    TbsSays(publicKey, subject);
  }

  /** A reader finds in the certificate exactly what it should say, for labels up to 32662
      octets and no others. */
  lemma CertificateSays(publicKey: seq<Byte>, name: seq<Byte>)
    requires |publicKey| == 32
    ensures var r := Read(Write(CertificateTree(publicKey, name)));
            r.Some? && Certifies(r.value, publicKey, name) <==> |name| <= 32662
  {
    hide Certifies, CertificateTree, Write, Read;
    CertificateReadsBack(publicKey, name);
    TreeCertifies(publicKey, name);
    if |name| > 32662 {
      TooLong(publicKey, name);
    }
  }

  lemma TooLong(publicKey: seq<Byte>, name: seq<Byte>)
    requires |publicKey| == 32 && |name| > 32662
    ensures Read(Write(CertificateTree(publicKey, name))) == None
  {
    hide TbsCertificate, Read, DerTag;
    var tree := CertificateTree(publicKey, name);
    CertificateLengths(publicKey, name);
    OuterContent(|name|);
    OversizeUnreadable(tree.tag, WriteAll(tree.parts));
  }
}
