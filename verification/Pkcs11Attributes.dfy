/** C_GetAttributeValue (crates/pkcs11-gpg/src/module.rs): a template of entries, each
    pointing into the caller's memory, answered in place. */
module Pkcs11Attributes {
  import opened Common
  import opened Identities
  import opened Pkcs11
  import Certificate

  const ATTRIBUTE_TYPE_INVALID := 0x12
  const UNAVAILABLE := 0xFFFF_FFFF_FFFF_FFFF

  const TOKEN := 1
  const PRIVATE := 2
  const LABEL := 3
  const VALUE := 0x11
  const CERTIFICATE_TYPE := 0x80
  const ISSUER := 0x81
  const SERIAL_NUMBER := 0x82
  const KEY_TYPE := 0x100
  const SUBJECT := 0x101
  const ID := 0x102
  const SIGN := 0x108
  const VERIFY := 0x10A
  const EC_PARAMS := 0x180
  const EC_POINT := 0x181
  const ALWAYS_AUTHENTICATE := 0x202

  const EC_EDWARDS := 0x40
  const X_509 := 0

  // ---- Attribute values ----

  /** A CK_ULONG in memory, on the little-endian machines the daemon runs on. */
  function LittleEndian(n: nat, width: nat): seq<Byte> {
    if width == 0 then [] else [n % 256] + LittleEndian(n / 256, width - 1)
  }

  /** An object: its identity, that identity's position in the list, and what it is. */
  datatype Object = Object(identity: Identity, position: nat, kind: Kind)

  function ClassOf(kind: Kind): nat {
    match kind
    case PrivateKey => CLASS_PRIVATE_KEY
    case PublicKey => CLASS_PUBLIC_KEY
    case CertificateObject => CLASS_CERTIFICATE
  }

  function Attribute(o: Object, t: nat): Option<seq<Byte>> {
    if t == TOKEN then Some([1])
    else if t == ID then Some([(o.position + 1) % 256])
    else if t == LABEL then Some(o.identity.name)
    else if t == ATTR_CLASS then Some(LittleEndian(ClassOf(o.kind), 8))
    else if t == PRIVATE then Some([if o.kind.PrivateKey? then 1 else 0])
    else if o.kind.CertificateObject? then
      if t == CERTIFICATE_TYPE then Some(LittleEndian(X_509, 8))
      else if t == VALUE then Some(o.identity.certDer)
      else if t == SUBJECT || t == ISSUER then Some([])
      else if t == SERIAL_NUMBER then Some([2, 1, 1])
      else None
    else if t == KEY_TYPE then Some(LittleEndian(EC_EDWARDS, 8))
    else if t == SIGN && o.kind.PrivateKey? then Some([1])
    else if t == VERIFY && o.kind.PublicKey? then Some([1])
    else if t == ALWAYS_AUTHENTICATE then Some([0])
    else if t == EC_PARAMS then Some([6, 3, 0x2b, 0x65, 0x70])
    else if t == EC_POINT then Some(o.identity.publicKey)
    else None
  }

  // ---- One entry ----

  /** A template entry; a null pointer is no address. */
  datatype Entry = Entry(attrType: nat, address: Option<nat>, length: nat)

  predicate Written(o: Object, e: Entry) {
    Attribute(o, e.attrType).Some? && e.address.Some? && |Attribute(o, e.attrType).value| <= e.length
  }

  function LengthAfter(o: Object, e: Entry): nat {
    match Attribute(o, e.attrType) case None => UNAVAILABLE case Some(v) => |v|
  }

  function Failure(o: Object, e: Entry): Option<nat> {
    match Attribute(o, e.attrType)
    case None => Some(ATTRIBUTE_TYPE_INVALID)
    case Some(v) => if e.address.Some? && e.length < |v| then Some(BUFFER_TOO_SMALL) else None
  }

  // ---- The whole template ----

  /** Every buffer lies in the caller's memory. */
  ghost predicate InMemory(template: seq<Entry>, size: nat) {
    forall k :: 0 <= k < |template| && template[k].address.Some? ==>
      template[k].address.value + template[k].length <= size
  }

  function WriteAt(memory: seq<Byte>, at: nat, bytes: seq<Byte>): seq<Byte>
    requires at + |bytes| <= |memory|
  {
    memory[..at] + bytes + memory[at + |bytes|..]
  }

  /** The memory after the template, entries in order. */
  ghost function Fill(o: Object, template: seq<Entry>, memory: seq<Byte>): (r: seq<Byte>)
    requires InMemory(template, |memory|)
    ensures |r| == |memory|
  {
    if template == [] then memory
    else
      var last := template[|template| - 1];
      var before := Fill(o, template[..|template| - 1], memory);
      if Written(o, last) then WriteAt(before, last.address.value, Attribute(o, last.attrType).value) else before
  }

  /** The last failure decides the return value. */
  function ReturnValue(o: Object, template: seq<Entry>): nat {
    if template == [] then OK
    else
      match Failure(o, template[|template| - 1])
      case Some(code) => code
      case None => ReturnValue(o, template[..|template| - 1])
  }

  ghost predicate Answered(o: Object, was: Entry, now: Entry) {
    now == Entry(was.attrType, was.address, LengthAfter(o, was))
  }

  /** The object a handle names. */
  function ObjectOf(t: Token, handle: nat): Option<Object> {
    match HandleToIndex(handle)
    case None => None
    case Some((i, kind)) => if i < |t.identities| then Some(Object(t.identities[i], i, kind)) else None
  }

  method C_GetAttributeValue(state: State, session: nat, handle: nat, template: array<Entry>, memory: array<Byte>)
    returns (rv: nat)
    requires InMemory(template[..], memory.Length)
    modifies template, memory
    ensures state.None? ==> rv == NOT_INITIALIZED
    ensures state.Some? && !InSession(state.value, session) ==> rv == SESSION_HANDLE_INVALID
    ensures state.Some? && InSession(state.value, session) && ObjectOf(state.value, handle).None? ==>
      rv == OBJECT_HANDLE_INVALID
    ensures state.None? || !InSession(state.value, session) || ObjectOf(state.value, handle).None? ==>
      template[..] == old(template[..]) && memory[..] == old(memory[..])
    ensures state.Some? && InSession(state.value, session) && ObjectOf(state.value, handle).Some? ==>
      var o := ObjectOf(state.value, handle).value;
      && rv == ReturnValue(o, old(template[..]))
      && memory[..] == Fill(o, old(template[..]), old(memory[..]))
      && forall k :: 0 <= k < template.Length ==> Answered(o, old(template[k]), template[k])
  {
    hide Attribute;
    if state.None? {
      return NOT_INITIALIZED;
    }
    var t := state.value;
    if !t.sessionOpen || session != t.sessionHandle {
      return SESSION_HANDLE_INVALID;
    }
    var decoded := HandleToIndex(handle);
    if decoded.None? || decoded.value.0 >= |t.identities| {
      return OBJECT_HANDLE_INVALID;
    }
    rv := Answer(Object(t.identities[decoded.value.0], decoded.value.0, decoded.value.1), template, memory);
  }

  method Answer(o: Object, template: array<Entry>, memory: array<Byte>) returns (rv: nat)
    requires InMemory(template[..], memory.Length)
    modifies template, memory
    ensures rv == ReturnValue(o, old(template[..]))
    ensures memory[..] == Fill(o, old(template[..]), old(memory[..]))
    ensures forall k :: 0 <= k < template.Length ==> Answered(o, old(template[k]), template[k])
  {
    hide Attribute;
    rv := OK;
    ghost var entries, bytes := template[..], memory[..];
    for k := 0 to template.Length
      invariant InMemory(entries[..k], |bytes|)
      invariant rv == ReturnValue(o, entries[..k])
      invariant memory[..] == Fill(o, entries[..k], bytes)
      invariant forall j :: 0 <= j < k ==> Answered(o, entries[j], template[j])
      invariant forall j :: k <= j < template.Length ==> template[j] == entries[j]
    {
      assert entries[..k + 1][..k] == entries[..k];
      var e := template[k];
      match Attribute(o, e.attrType) {
        case None =>
          template[k] := e.(length := UNAVAILABLE);
          rv := ATTRIBUTE_TYPE_INVALID;
        case Some(value) =>
          if e.address.None? {
            template[k] := e.(length := |value|);
          } else if e.length < |value| {
            template[k] := e.(length := |value|);
            rv := BUFFER_TOO_SMALL;
          } else {
            CopyTo(memory, e.address.value, value);
            template[k] := e.(length := |value|);
          }
      }
    }
    assert entries[..template.Length] == entries;
  }

  method CopyTo(memory: array<Byte>, at: nat, bytes: seq<Byte>)
    requires at + |bytes| <= memory.Length
    modifies memory
    ensures memory[..] == WriteAt(old(memory[..]), at, bytes)
  {
    ghost var was := memory[..];
    for i := 0 to |bytes|
      invariant forall a :: 0 <= a < memory.Length ==> memory[a] == if at <= a < at + i then bytes[a - at] else was[a]
    {
      memory[at + i] := bytes[i];
    }
  }

  // ---- What the caller can rely on ----

  /** No byte changes outside the stated buffers, whatever the template. */
  lemma {:induction false} OnlyStatedBuffersChange(o: Object, template: seq<Entry>, memory: seq<Byte>, a: nat)
    requires InMemory(template, |memory|) && a < |memory|
    requires forall k :: 0 <= k < |template| && template[k].address.Some? ==>
      !(template[k].address.value <= a < template[k].address.value + template[k].length)
    ensures Fill(o, template, memory)[a] == memory[a]
  {
    hide Attribute;
    if template != [] {
      OnlyStatedBuffersChange(o, template[..|template| - 1], memory, a);
    }
  }

  /** The buffer of entry k meets no other buffer. */
  ghost predicate Apart(template: seq<Entry>, k: nat)
    requires k < |template|
  {
    template[k].address.Some? &&
    forall j :: 0 <= j < |template| && j != k && template[j].address.Some? ==>
      template[j].address.value + template[j].length <= template[k].address.value
      || template[k].address.value + template[k].length <= template[j].address.value
  }

  /** An entry with room for its value gets it exactly, whatever the other entries ask for
      and however they fail. */
  lemma {:induction false} ValueArrives(o: Object, template: seq<Entry>, memory: seq<Byte>, k: nat)
    requires InMemory(template, |memory|) && k < |template| && Apart(template, k) && Written(o, template[k])
    ensures var e := template[k];
            var v := Attribute(o, e.attrType).value;
            Fill(o, template, memory)[e.address.value..e.address.value + |v|] == v
  {
    hide Attribute;
    if k < |template| - 1 {
      var init, last := template[..|template| - 1], template[|template| - 1];
      assert init[k] == template[k];
      ValueArrives(o, init, memory, k);
      var from, to := template[k].address.value, template[k].address.value + |Attribute(o, template[k].attrType).value|;
      var before, after := Fill(o, init, memory), Fill(o, template, memory);
      assert forall a :: from <= a < to ==> after[a] == before[a];
      assert after[from..to] == before[from..to];
    }
  }

  /** CKR_OK means every entry is answered, and only that. */
  lemma {:induction false} OkIffAllAnswered(o: Object, template: seq<Entry>)
    ensures ReturnValue(o, template) == OK <==>
      forall k :: 0 <= k < |template| ==>
        Attribute(o, template[k].attrType).Some? && (template[k].address.None? || Written(o, template[k]))
  {
    hide Attribute;
    if template != [] {
      var init := template[..|template| - 1];
      OkIffAllAnswered(o, init);
      assert forall k :: 0 <= k < |init| ==> init[k] == template[k];
    }
  }

  /** The template of the second pass: what the first pass reported, now with buffers. */
  ghost predicate SecondPass(o: Object, first: seq<Entry>, second: seq<Entry>) {
    && |first| == |second|
    && forall k :: 0 <= k < |first| ==>
         && first[k].address.None? && second[k].address.Some?
         && second[k].attrType == first[k].attrType && second[k].length == LengthAfter(o, first[k])
  }

  /** A pass without buffers, then one with buffers of the sizes it reported: the first is
      CKR_OK exactly when every type is supported, and then so is the second, with every
      value exact. */
  lemma TwoPassesAreExact(o: Object, first: seq<Entry>, second: seq<Entry>, memory: seq<Byte>)
    requires SecondPass(o, first, second) && InMemory(second, |memory|)
    requires forall k :: 0 <= k < |second| ==> Apart(second, k)
    ensures ReturnValue(o, first) == OK <==> forall k :: 0 <= k < |first| ==> Attribute(o, first[k].attrType).Some?
    ensures ReturnValue(o, first) == OK ==>
      && ReturnValue(o, second) == OK
      && forall k :: 0 <= k < |second| ==>
           Some(Fill(o, second, memory)[second[k].address.value..second[k].address.value + second[k].length])
           == Attribute(o, second[k].attrType)
  {
    hide Attribute, Fill, ReturnValue;
    OkIffAllAnswered(o, first);
    OkIffAllAnswered(o, second);
    if ReturnValue(o, first) == OK {
      forall k | 0 <= k < |second|
        ensures Some(Fill(o, second, memory)[second[k].address.value..second[k].address.value + second[k].length])
                == Attribute(o, second[k].attrType)
      {
        ValueArrives(o, second, memory, k);
      }
    }
  }

  // ---- What the values say ----

  function Bound(width: nat): nat {
    if width == 0 then 1 else 256 * Bound(width - 1)
  }

  lemma {:induction false} LittleEndianInjective(a: nat, b: nat, width: nat)
    requires a < Bound(width) && b < Bound(width)
    ensures LittleEndian(a, width) == LittleEndian(b, width) <==> a == b
  {
    if width > 0 && LittleEndian(a, width) == LittleEndian(b, width) {
      var x, y := LittleEndian(a, width), LittleEndian(b, width);
      assert x[0] == a % 256 && y[0] == b % 256;
      assert x[1..] == LittleEndian(a / 256, width - 1) && y[1..] == LittleEndian(b / 256, width - 1);
      LittleEndianInjective(a / 256, b / 256, width - 1);
    }
  }

  /** The identity of an object is that of its entry in the phone's list. */
  lemma ObjectIsListed(t: Token, h: nat)
    requires t.identities == Load(Keep(t.listed)) && ObjectOf(t, h).Some?
    ensures var id := ObjectOf(t, h).value.identity;
            && id.index < |t.listed| && KeyOf(t.listed[id.index]) == Some(id.publicKey)
              && t.listed[id.index].name == id.name
            && id.certDer == Certificate.Write(Certificate.CertificateTree(id.publicKey, id.name))
  {
    hide KeyOf, Keep, Load, HandleToIndex, Certificate.Write, Certificate.CertificateTree;
    var i := HandleToIndex(h).value.0;
    LoadedIdentity(Keep(t.listed), i);
    KeepMatches(t.listed);
    assert Matches(t.listed, Keep(t.listed)[i]);
  }

  lemma AttributeValues(o: Object)
    ensures Attribute(o, ATTR_CLASS) == Some(LittleEndian(ClassOf(o.kind), 8))
    ensures Attribute(o, ID) == Some([(o.position + 1) % 256]) && Attribute(o, LABEL) == Some(o.identity.name)
    ensures !o.kind.CertificateObject? ==> Attribute(o, EC_POINT) == Some(o.identity.publicKey)
    ensures o.kind.CertificateObject? ==> Attribute(o, VALUE) == Some(o.identity.certDer)
  {
    hide LittleEndian;
  }

  /** The attributes agree with the search and with the phone's list: an object is found
      under a class exactly when it reports it; its key or certificate holds the key of its
      entry in the phone's list, of 32 bytes; and objects carry the same CKA_ID exactly when
      their identities' positions agree modulo 256. */
  lemma AttributesDescribeTheObject(t: Token, h1: nat, h2: nat, class_: nat)
    requires t.identities == Load(Keep(t.listed))
    requires ObjectOf(t, h1).Some? && ObjectOf(t, h2).Some? && class_ < Bound(8)
    ensures var o1, o2 := ObjectOf(t, h1).value, ObjectOf(t, h2).value;
            && (Wanted(Some(class_), o1.kind) <==> Attribute(o1, ATTR_CLASS) == Some(LittleEndian(class_, 8)))
            && (Attribute(o1, ID) == Attribute(o2, ID) <==> o1.position % 256 == o2.position % 256)
            && o1.identity.index < |t.listed|
            && KeyOf(t.listed[o1.identity.index]) ==
                 (if o1.kind.CertificateObject? then Some(o1.identity.publicKey) else Attribute(o1, EC_POINT))
            && Attribute(o1, LABEL) == Some(t.listed[o1.identity.index].name)
            && (o1.kind.CertificateObject? ==>
                  Attribute(o1, VALUE)
                  == Some(Certificate.Write(Certificate.CertificateTree(o1.identity.publicKey, o1.identity.name))))
  {
    hide KeyOf, Keep, Load, LittleEndian, ObjectOf, Attribute, Certificate.Write, Certificate.CertificateTree;
    assert Bound(8) > 256;
    LittleEndianInjective(ClassOf(ObjectOf(t, h1).value.kind), class_, 8);
    AttributeValues(ObjectOf(t, h1).value);
    AttributeValues(ObjectOf(t, h2).value);
    ObjectIsListed(t, h1);
  }

  /** Handles 3i + 1, 3i + 2 and 3i + 3 name the private key, the public key and the
      certificate of the i-th kept entry of the phone's list. */
  lemma HandlesFollowTheList(t: Token, i: nat)
    requires t.identities == Load(Keep(t.listed))
    ensures |t.identities| == |Keep(t.listed)|
    ensures i < |t.identities| ==>
      && ObjectOf(t, 3 * i + 1) == Some(Object(t.identities[i], i, PrivateKey))
      && ObjectOf(t, 3 * i + 2) == Some(Object(t.identities[i], i, PublicKey))
      && ObjectOf(t, 3 * i + 3) == Some(Object(t.identities[i], i, CertificateObject))
      && t.identities[i].index == Keep(t.listed)[i].index && t.identities[i].publicKey == Keep(t.listed)[i].publicKey
      && t.identities[i].name == Keep(t.listed)[i].name
    ensures i >= |t.identities| ==>
      ObjectOf(t, 3 * i + 1) == None && ObjectOf(t, 3 * i + 2) == None && ObjectOf(t, 3 * i + 3) == None
    ensures ObjectOf(t, 0) == None
  {
    hide Load, Keep;
    LoadedLength(Keep(t.listed));
    if i < |t.identities| {
      LoadedIdentity(Keep(t.listed), i);
    }
  }

  /** C_SignInit accepts exactly the handles of private keys, those that say they sign and
      are private; and the key that C_Sign then signs with is the object's EC_POINT. */
  lemma SigningUsesTheNamedKey(t: Token, session: nat, h: nat)
    requires InSession(t, session)
    ensures SigningKey(t, h).Some? <==> exists i :: 0 <= i < |t.identities| && h == 3 * i + 1
    ensures SigningKey(t, h).Some? <==> ObjectOf(t, h).Some? && Attribute(ObjectOf(t, h).value, SIGN) == Some([1])
    ensures SigningKey(t, h).Some? <==> ObjectOf(t, h).Some? && Attribute(ObjectOf(t, h).value, PRIVATE) == Some([1])
    ensures SigningKey(t, h).Some? <==> Do(Some(t), SignInit(session, EDDSA, h)).1 == OK
    ensures SigningKey(t, h).Some? ==>
      var st := Do(Some(t), SignInit(session, EDDSA, h)).0;
      && Taken(st, session).Some?
      && Attribute(ObjectOf(t, h).value, EC_POINT) == Some(Taken(st, session).value.publicKey)
  {
    assert SigningKey(t, h).Some? ==> h == 3 * SigningKey(t, h).value + 1;
    forall i | 0 <= i < |t.identities| && h == 3 * i + 1
      ensures SigningKey(t, h).Some?
    {
      assert HandleToIndex(h) == Some((i, PrivateKey));
    }
  }

  /** The attributes of a certificate and its keys agree with what the certificate says. */
  lemma AttributesFitTheCertificate(o: Object)
    ensures o.kind.CertificateObject? ==>
      Attribute(o, SERIAL_NUMBER) == Some(Certificate.Write(Certificate.Prim(0x02, [1])))
    ensures !o.kind.CertificateObject? ==>
      Attribute(o, EC_PARAMS) == Some(Certificate.Write(Certificate.Prim(0x06, [1 * 40 + 3, 101, 112])))
  {
    assert Certificate.Write(Certificate.Prim(0x02, [1])) == [2, 1, 1];
    assert Certificate.Write(Certificate.Prim(0x06, [1 * 40 + 3, 101, 112])) == [6, 3, 0x2b, 0x65, 0x70];
  }
}
