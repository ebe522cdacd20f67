/** The token of crates/pkcs11-gpg/src/module.rs: one session, object search, one-shot
    signing. The static STATE is absent until C_Initialize; each call below runs under its
    lock, except that C_Sign releases it before talking to the daemon. */
module Pkcs11 {
  import opened Common
  import opened Identities
  import Certificate

  const OK := 0
  const GENERAL_ERROR := 5
  const DEVICE_ERROR := 0x30
  const SLOT_ID_INVALID := 0x65
  const MECHANISM_INVALID := 0x70
  const OBJECT_HANDLE_INVALID := 0x82
  const OPERATION_NOT_INITIALIZED := 0x91
  const SESSION_HANDLE_INVALID := 0xB3
  const BUFFER_TOO_SMALL := 0x150
  const NOT_INITIALIZED := 0x190
  const ALREADY_INITIALIZED := 0x191

  const CLASS_CERTIFICATE := 1
  const CLASS_PUBLIC_KEY := 2
  const CLASS_PRIVATE_KEY := 3
  const EDDSA := 0x1057
  const ATTR_CLASS := 0
  const SIGNATURE_LENGTH := 64

  // ---- Handles ----

  datatype Kind = PrivateKey | PublicKey | CertificateObject

  function HandleToIndex(h: nat): Option<(nat, Kind)> {
    if h == 0 then None
    else
      Some(((h - 1) / 3,
            match (h - 1) % 3 case 0 => PrivateKey case 1 => PublicKey case _ => CertificateObject))
  }

  function HandleOf(i: nat, kind: Kind): nat {
    match kind case PrivateKey => i * 3 + 1 case PublicKey => i * 3 + 2 case CertificateObject => i * 3 + 3
  }

  /** Handles and pairs of index and kind determine each other. */
  lemma HandleDecodesIff(h: nat, i: nat, kind: Kind)
    ensures HandleToIndex(h) == Some((i, kind)) <==> h == HandleOf(i, kind)
  {
  }

  // ---- State ----

  datatype Identity = Identity(publicKey: seq<Byte>, certDer: seq<Byte>, name: seq<Byte>, index: nat)

  function Load(kept: seq<Kept>): seq<Identity> {
    if kept == [] then []
    else
      var k := kept[|kept| - 1];
      Load(kept[..|kept| - 1])
      + [Identity(k.publicKey, Certificate.Write(Certificate.CertificateTree(k.publicKey, k.name)), k.name, k.index)]
  }

  datatype SignOp = SignOp(keyHandle: nat, mechanism: nat)

  datatype Search = Search(handles: seq<nat>, position: nat)

  type FindOp = f: Search | f.position <= |f.handles| witness Search([], 0)

  /** `listed` is the phone's list the identities were made from, kept for the proofs. */
  datatype Token = Token(
    listed: seq<Raw>,
    identities: seq<Identity>,
    sessionOpen: bool,
    sessionHandle: nat,
    signOp: Option<SignOp>,
    findOp: Option<FindOp>)

  type State = Option<Token>

  /** An entry of a search template: its class, when it is a class attribute with a value
      of the right size. */
  datatype Criterion = Criterion(attrType: nat, class_: Option<nat>)

  // ---- Object search ----

  /** The last class criterion wins. */
  function WantedClass(template: seq<Criterion>): Option<nat> {
    if template == [] then None
    else
      var last := template[|template| - 1];
      if last.attrType == ATTR_CLASS && last.class_.Some? then last.class_
      else WantedClass(template[..|template| - 1])
  }

  predicate NamesClass(c: Criterion) {
    c.attrType == ATTR_CLASS && c.class_.Some?
  }

  /** The last class attribute with a value of the right size decides; without one, no class
      is asked for. */
  lemma {:induction false} LastClassDecides(template: seq<Criterion>)
    ensures match WantedClass(template)
            case Some(c) =>
              exists i :: 0 <= i < |template| && template[i] == Criterion(ATTR_CLASS, Some(c))
                          && forall j :: i < j < |template| ==> !NamesClass(template[j])
            case None => forall j :: 0 <= j < |template| ==> !NamesClass(template[j])
  {
    hide NamesClass;
    if template != [] {
      var n := |template| - 1;
      LastClassDecides(template[..n]);
      LastIsClass(template);
      if !NamesClass(template[n]) && WantedClass(template).Some? {
        var c := WantedClass(template).value;
        assert WantedClass(template[..n]) == Some(c);
        var i :| 0 <= i < n && template[..n][i] == Criterion(ATTR_CLASS, Some(c))
                 && forall j :: i < j < n ==> !NamesClass(template[..n][j]);
        assert template[i] == Criterion(ATTR_CLASS, Some(c));
        forall j | i < j < |template|
          ensures !NamesClass(template[j])
        {
          assert j < n ==> template[..n][j] == template[j];
        }
      } else if !NamesClass(template[n]) {
        assert WantedClass(template[..n]).None?;
        forall j | 0 <= j < |template|
          ensures !NamesClass(template[j])
        {
          assert j < n ==> template[..n][j] == template[j];
        }
      }
    }
  }

  lemma LastIsClass(template: seq<Criterion>)
    requires template != []
    ensures var last := template[|template| - 1];
            && (NamesClass(last) ==> WantedClass(template) == last.class_ && last.class_.Some?
                                     && last == Criterion(ATTR_CLASS, last.class_))
            && (!NamesClass(last) ==> WantedClass(template) == WantedClass(template[..|template| - 1]))
  {
  }

  predicate Wanted(want: Option<nat>, kind: Kind) {
    match want
    case None => true
    case Some(c) =>
      match kind
      case PrivateKey => c == CLASS_PRIVATE_KEY
      case PublicKey => c == CLASS_PUBLIC_KEY
      case CertificateObject => c == CLASS_CERTIFICATE
  }

  function HandlesAt(i: nat, want: Option<nat>): seq<nat> {
    (if Wanted(want, PrivateKey) then [HandleOf(i, PrivateKey)] else [])
    + (if Wanted(want, PublicKey) then [HandleOf(i, PublicKey)] else [])
    + (if Wanted(want, CertificateObject) then [HandleOf(i, CertificateObject)] else [])
  }

  function MatchingHandles(n: nat, want: Option<nat>): seq<nat> {
    if n == 0 then [] else MatchingHandles(n - 1, want) + HandlesAt(n - 1, want)
  }

  lemma HandlesAtExact(i: nat, want: Option<nat>)
    ensures forall h :: h in HandlesAt(i, want) <==>
      HandleToIndex(h).Some? && HandleToIndex(h).value.0 == i && Wanted(want, HandleToIndex(h).value.1)
    ensures forall k :: 0 <= k < |HandlesAt(i, want)| ==> 3 * i < HandlesAt(i, want)[k] <= 3 * i + 3
    ensures forall j, k :: 0 <= j < k < |HandlesAt(i, want)| ==> HandlesAt(i, want)[j] < HandlesAt(i, want)[k]
  {
  }

  lemma {:induction false} HandlesIncrease(n: nat, want: Option<nat>)
    ensures forall i, j :: 0 <= i < j < |MatchingHandles(n, want)| ==>
      MatchingHandles(n, want)[i] < MatchingHandles(n, want)[j]
    ensures forall i :: 0 <= i < |MatchingHandles(n, want)| ==> MatchingHandles(n, want)[i] <= 3 * n
  {
    hide HandlesAt, Wanted, HandleToIndex;
    if n > 0 {
      HandlesIncrease(n - 1, want);
      HandlesAtExact(n - 1, want);
      var before, here := MatchingHandles(n - 1, want), HandlesAt(n - 1, want);
      assert forall i :: 0 <= i < |before| ==> before[i] <= 3 * (n - 1);
      assert forall i :: 0 <= i < |here| ==> 3 * (n - 1) < here[i] <= 3 * n;
      assert MatchingHandles(n, want) == before + here;
    }
  }

  /** The search list holds exactly the handles of existing objects of the wanted class,
      each once, in increasing order. */
  lemma {:induction false} MatchingHandlesExact(n: nat, want: Option<nat>)
    ensures forall h :: h in MatchingHandles(n, want) <==>
      HandleToIndex(h).Some? && HandleToIndex(h).value.0 < n && Wanted(want, HandleToIndex(h).value.1)
    ensures var hs := MatchingHandles(n, want); forall i, j :: 0 <= i < j < |hs| ==> hs[i] < hs[j]
  {
    hide HandlesAt, Wanted, HandleToIndex;
    if n > 0 {
      MatchingHandlesExact(n - 1, want);
      HandlesAtExact(n - 1, want);
    }
    HandlesIncrease(n, want);
  }

  function FindNext(op: FindOp, max: nat): (FindOp, seq<nat>)
  {
    var n := Min(|op.handles| - op.position, max);
    (Search(op.handles, op.position + n), op.handles[op.position..op.position + n])
  }

  /** Successive calls: the operation afterwards and everything returned, in order. */
  function FindMany(op: FindOp, maxes: seq<nat>): (r: (FindOp, seq<nat>))
    decreases |maxes|
  {
    if maxes == [] then (op, [])
    else
      var (next, out) := FindNext(op, maxes[0]);
      var (last, more) := FindMany(next, maxes[1..]);
      (last, out + more)
  }

  function Sum(ns: seq<nat>): nat {
    if ns == [] then 0 else ns[0] + Sum(ns[1..])
  }

  /** Whatever the caller's counts, the outputs together are the next handles in order,
      as many as the counts add up to or all that are left; then nothing more. */
  lemma {:induction false} FindReturnsEachOnce(op: FindOp, maxes: seq<nat>)
    ensures var (last, out) := FindMany(op, maxes);
            var end := Min(|op.handles|, op.position + Sum(maxes));
            && out == op.handles[op.position..end] && last == Search(op.handles, end)
            && (end == |op.handles| ==> forall max :: FindNext(last, max).1 == [])
    decreases |maxes|
  {
    if maxes != [] {
      var (next, out) := FindNext(op, maxes[0]);
      FindReturnsEachOnce(next, maxes[1..]);
      var end := Min(|op.handles|, op.position + Sum(maxes));
      assert end == Min(|next.handles|, next.position + Sum(maxes[1..]));
      assert op.handles[op.position..end] == out + op.handles[next.position..end];
    }
  }

  // ---- The calls ----

  datatype Call =
    | Initialize(fetched: Option<seq<Raw>>)
    | Finalize
    | OpenSession(slot: nat, serial: bool)
    | CloseSession(session: nat)
    | CloseAllSessions(slot: nat)
    | FindObjectsInit(session: nat, template: seq<Criterion>)
    | FindObjects(session: nat, max: nat)
    | FindObjectsFinal(session: nat)
    | SignInit(session: nat, mechanism: nat, key: nat)
    | SignBegin(session: nat)

  predicate InSession(t: Token, session: nat) {
    t.sessionOpen && session == t.sessionHandle
  }

  function Closed(t: Token): Token {
    Token(t.listed, t.identities, false, 0, None, None)
  }

  /** The private key object a sign call names, as position in the identity list. */
  function SigningKey(t: Token, key: nat): Option<nat> {
    match HandleToIndex(key)
    case Some((i, PrivateKey)) => if i < |t.identities| then Some(i) else None
    case _ => None
  }

  function Do(st: State, call: Call): (State, nat) {
    match st
    case None => (
      match call
      case Initialize(None) => (st, DEVICE_ERROR)
      case Initialize(Some(raws)) => (Some(Token(raws, Load(Keep(raws)), false, 0, None, None)), OK)
      case _ => (st, NOT_INITIALIZED))
    case Some(t) =>
      match call
      case Initialize(_) => (st, ALREADY_INITIALIZED)
      case Finalize => (None, OK)
      case OpenSession(slot, serial) =>
        if slot != 0 then (st, SLOT_ID_INVALID)
        else if !serial then (st, GENERAL_ERROR)
        else (Some(Token(t.listed, t.identities, true, 1, t.signOp, t.findOp)), OK)
      case CloseSession(session) =>
        if !InSession(t, session) then (st, SESSION_HANDLE_INVALID) else (Some(Closed(t)), OK)
      case CloseAllSessions(slot) =>
        if slot != 0 then (st, SLOT_ID_INVALID) else (Some(Closed(t)), OK)
      case FindObjectsInit(session, template) =>
        if !InSession(t, session) then (st, SESSION_HANDLE_INVALID)
        else
          (Some(Token(t.listed, t.identities, true, t.sessionHandle, t.signOp,
                      Some(Search(MatchingHandles(|t.identities|, WantedClass(template)), 0)))), OK)
      case FindObjects(session, max) =>
        if !InSession(t, session) then (st, SESSION_HANDLE_INVALID)
        else if t.findOp.None? then (st, OPERATION_NOT_INITIALIZED)
        else (Some(Token(t.listed, t.identities, true, t.sessionHandle, t.signOp,
          Some(FindNext(t.findOp.value, max).0))), OK)
      case FindObjectsFinal(session) =>
        if !InSession(t, session) then (st, SESSION_HANDLE_INVALID)
        else (Some(Token(t.listed, t.identities, true, t.sessionHandle, t.signOp, None)), OK)
      case SignInit(session, mechanism, key) =>
        if !InSession(t, session) then (st, SESSION_HANDLE_INVALID)
        else if SigningKey(t, key).None? then (st, OBJECT_HANDLE_INVALID)
        else if mechanism != EDDSA then (st, MECHANISM_INVALID)
        else (Some(Token(t.listed, t.identities, true, t.sessionHandle, Some(SignOp(key, mechanism)), t.findOp)), OK)
      case SignBegin(session) =>
        if !InSession(t, session) then (st, SESSION_HANDLE_INVALID)
        else if t.signOp.None? then (st, OPERATION_NOT_INITIALIZED)
        else if SigningKey(t, t.signOp.value.keyHandle).None? then (st, GENERAL_ERROR)
        else (Some(Token(t.listed, t.identities, true, t.sessionHandle, None, t.findOp)), OK)
  }

  /** The identity C_Sign takes out of the state, when it gets past its checks. */
  function Taken(st: State, session: nat): Option<Identity> {
    match st
    case None => None
    case Some(t) =>
      if !InSession(t, session) || t.signOp.None? then None
      else match SigningKey(t, t.signOp.value.keyHandle) case Some(i) => Some(t.identities[i]) case None => None
  }

  /** What holds of the state between calls. */
  ghost predicate Valid(st: State) {
    match st
    case None => true
    case Some(t) =>
      && t.identities == Load(Keep(t.listed))
      && (t.sessionOpen ==> t.sessionHandle == 1)
      && (t.signOp.Some? ==>
            && t.sessionOpen && t.signOp.value.mechanism == EDDSA
            && SigningKey(t, t.signOp.value.keyHandle).Some?)
      && (t.findOp.Some? ==>
            && t.sessionOpen
            && forall h :: h in t.findOp.value.handles ==>
                 HandleToIndex(h).Some? && HandleToIndex(h).value.0 < |t.identities|)
  }

  lemma {:induction false} LoadedIdentity(kept: seq<Kept>, i: nat)
    requires i < |Load(kept)|
    ensures |Load(kept)| == |kept|
    ensures Load(kept)[i].index == kept[i].index && Load(kept)[i].publicKey == kept[i].publicKey
      && Load(kept)[i].name == kept[i].name
    ensures Load(kept)[i].certDer == Certificate.Write(Certificate.CertificateTree(kept[i].publicKey, kept[i].name))
  {
    hide Certificate.Write, Certificate.CertificateTree;
    LoadedLength(kept);
    LoadedLength(kept[..|kept| - 1]);
    if i < |kept| - 1 {
      LoadedIdentity(kept[..|kept| - 1], i);
    }
  }

  lemma {:induction false} LoadedLength(kept: seq<Kept>)
    ensures |Load(kept)| == |kept|
  {
    if kept != [] {
      LoadedLength(kept[..|kept| - 1]);
    }
  }

  lemma IdentitiesAreGenuine(t: Token, i: nat)
    requires t.identities == Load(Keep(t.listed)) && i < |t.identities|
    ensures Genuine(ChosenOf(t, t.identities[i]))
  {
    hide KeyOf, Keep, Load;
    LoadedIdentity(Keep(t.listed), i);
    KeepMatches(t.listed);
    assert Matches(t.listed, Keep(t.listed)[i]);
  }

  lemma DoKeepsValid(st: State, call: Call)
    requires Valid(st)
    ensures Valid(Do(st, call).0)
  {
    if st.Some? && call.FindObjectsInit? {
      MatchingHandlesExact(|st.value.identities|, WantedClass(call.template));
    }
  }

  /** What C_FindObjects hands out. */
  function Found(st: State, session: nat, max: nat): seq<nat> {
    if st.None? || Do(st, FindObjects(session, max)).1 != OK then [] else FindNext(st.value.findOp.value, max).1
  }

  /** The handles of successive C_FindObjects calls, one after the other. */
  function FoundAll(st: State, session: nat, maxes: seq<nat>): seq<nat>
    decreases |maxes|
  {
    if maxes == [] then []
    else Found(st, session, maxes[0]) + FoundAll(Do(st, FindObjects(session, maxes[0])).0, session, maxes[1..])
  }

  lemma {:induction false} FoundAllIsFindMany(t: Token, session: nat, maxes: seq<nat>)
    requires InSession(t, session) && t.findOp.Some?
    ensures FoundAll(Some(t), session, maxes) == FindMany(t.findOp.value, maxes).1
    decreases |maxes|
  {
    if maxes != [] {
      FoundAllIsFindMany(Do(Some(t), FindObjects(session, maxes[0])).0.value, session, maxes[1..]);
    }
  }

  /** The handle of an existing object of the class asked for. */
  predicate Sought(t: Token, want: Option<nat>, h: nat) {
    match HandleToIndex(h)
    case Some((i, kind)) => i < |t.identities| && Wanted(want, kind)
    case None => false
  }

  lemma SearchIsPrefix(t: Token, session: nat, template: seq<Criterion>, maxes: seq<nat>)
    requires InSession(t, session)
    ensures var all := MatchingHandles(|t.identities|, WantedClass(template));
            FoundAll(Do(Some(t), FindObjectsInit(session, template)).0, session, maxes) == all[..Min(|all|, Sum(maxes))]
  {
    hide MatchingHandles, WantedClass, FoundAll, Sum;
    var st := Do(Some(t), FindObjectsInit(session, template)).0;
    FoundAllIsFindMany(st.value, session, maxes);
    FindReturnsEachOnce(st.value.findOp.value, maxes);
  }

  /** A whole search: after C_FindObjectsInit, whatever the caller's counts, C_FindObjects
      hands out the handles of the existing objects of the class asked for, increasing and
      so each once, as many as the counts add up to or all of them. */
  lemma SearchFindsTheObjects(t: Token, session: nat, template: seq<Criterion>, maxes: seq<nat>)
    requires InSession(t, session)
    ensures var want := WantedClass(template);
            var out := FoundAll(Do(Some(t), FindObjectsInit(session, template)).0, session, maxes);
            && (forall i, j :: 0 <= i < j < |out| ==> out[i] < out[j])
            && (forall h :: h in out ==> Sought(t, want, h))
            && |out| <= Sum(maxes)
            && (|out| < Sum(maxes) ==> forall h :: Sought(t, want, h) ==> h in out)
  {
    hide Do, FoundAll, Wanted, WantedClass, MatchingHandles, HandleToIndex, Sum;
    var all := MatchingHandles(|t.identities|, WantedClass(template));
    SearchIsPrefix(t, session, template, maxes);
    MatchingHandlesExact(|t.identities|, WantedClass(template));
    var out := all[..Min(|all|, Sum(maxes))];
    forall h | h in out
      ensures Sought(t, WantedClass(template), h)
    {
      assert h in all;
    }
    if |out| < Sum(maxes) {
      assert out == all;
    }
  }

  /** After C_FindObjectsFinal nothing is handed out. */
  lemma FinalEndsTheSearch(t: Token, session: nat, max: nat)
    requires InSession(t, session)
    ensures Do(Do(Some(t), FindObjectsFinal(session)).0, FindObjects(session, max)).1 == OPERATION_NOT_INITIALIZED
  {
  }

  /** Operations are one-shot, and end with their session, the session with the module. */
  lemma OperationsEnd(st: State, session: nat, other: nat)
    ensures Do(st, SignBegin(session)).1 == OK ==>
      Do(Do(st, SignBegin(session)).0, SignBegin(other)).1 in {OPERATION_NOT_INITIALIZED, SESSION_HANDLE_INVALID}
    ensures st.Some? && (Do(st, CloseSession(session)).1 == OK || other == 0) ==>
      var closed := if other == 0 then Do(st, CloseAllSessions(0)).0 else Do(st, CloseSession(session)).0;
      && Do(closed, SignBegin(session)).1 == SESSION_HANDLE_INVALID
      && Do(closed, FindObjects(session, 1)).1 == SESSION_HANDLE_INVALID
      && Do(Do(closed, OpenSession(0, true)).0, SignBegin(1)).1 == OPERATION_NOT_INITIALIZED
      && Do(Do(closed, OpenSession(0, true)).0, FindObjects(1, 1)).1 == OPERATION_NOT_INITIALIZED
    ensures st.Some? ==> Do(Do(st, Finalize).0, OpenSession(0, true)).1 == NOT_INITIALIZED
    ensures st.Some? <==> Do(st, Initialize(Some([]))).1 == ALREADY_INITIALIZED
  {
    hide MatchingHandles, Load, Keep;
  }

  // ---- The module as it runs ----

  method CopyInto(buffer: array<Byte>, bytes: seq<Byte>)
    requires |bytes| <= buffer.Length
    modifies buffer
    ensures buffer[..] == bytes + old(buffer[..])[|bytes|..]
  {
    for i := 0 to |bytes|
      invariant forall k :: 0 <= k < buffer.Length ==> buffer[k] == if k < i then bytes[k] else old(buffer[k])
    {
      buffer[i] := bytes[i];
    }
  }

  class Cryptoki {
    var state: State

    constructor ()
      ensures state == None
    {
      state := None;
    }

    /** `answer` is the identity list, None when connecting or asking failed. */
    method C_Initialize(answer: Option<seq<Raw>>) returns (rv: nat)
      modifies this
      ensures (state, rv) == Do(old(state), Initialize(answer))
    {
      if state.Some? {
        return ALREADY_INITIALIZED;
      }
      match answer {
        case None => return DEVICE_ERROR;
        case Some(raws) =>
          var kept := Keep(raws);
          var identities := [];
          for i := 0 to |kept|
            invariant identities == Load(kept[..i]) && state == old(state)
          {
            var cert := Certificate.CreateSelfSignedCert(kept[i].publicKey, kept[i].name);
            identities := identities + [Identity(kept[i].publicKey, cert, kept[i].name, kept[i].index)];
            assert kept[..i + 1][..i] == kept[..i];
          }
          assert kept[..|kept|] == kept;
          state := Some(Token(raws, identities, false, 0, None, None));
          return OK;
      }
    }

    method C_Finalize() returns (rv: nat)
      modifies this
      ensures (state, rv) == Do(old(state), Finalize)
    {
      if state.None? {
        return NOT_INITIALIZED;
      }
      state := None;
      return OK;
    }

    method C_OpenSession(slot: nat, serial: bool) returns (rv: nat)
      modifies this
      ensures (state, rv) == Do(old(state), OpenSession(slot, serial))
    {
      if state.None? {
        return NOT_INITIALIZED;
      }
      if slot != 0 {
        return SLOT_ID_INVALID;
      }
      if !serial {
        return GENERAL_ERROR;
      }
      state := Some(state.value.(sessionOpen := true, sessionHandle := 1));
      return OK;
    }

    method C_CloseSession(session: nat) returns (rv: nat)
      modifies this
      ensures (state, rv) == Do(old(state), CloseSession(session))
    {
      if state.None? {
        return NOT_INITIALIZED;
      }
      if !state.value.sessionOpen || session != state.value.sessionHandle {
        return SESSION_HANDLE_INVALID;
      }
      state := Some(state.value.(sessionOpen := false, sessionHandle := 0, signOp := None, findOp := None));
      return OK;
    }

    method C_FindObjectsInit(session: nat, template: seq<Criterion>) returns (rv: nat)
      modifies this
      ensures (state, rv) == Do(old(state), FindObjectsInit(session, template))
    {
      if state.None? {
        return NOT_INITIALIZED;
      }
      var t := state.value;
      if !t.sessionOpen || session != t.sessionHandle {
        return SESSION_HANDLE_INVALID;
      }
      var want: Option<nat> := None;
      for k := 0 to |template|
        invariant want == WantedClass(template[..k])
      {
        assert template[..k + 1][..k] == template[..k];
        if template[k].attrType == ATTR_CLASS && template[k].class_.Some? {
          want := template[k].class_;
        }
      }
      assert template[..|template|] == template;
      var handles := [];
      for i := 0 to |t.identities|
        invariant handles == MatchingHandles(i, want)
      {
        var privHandle, pubHandle, certHandle := i * 3 + 1, i * 3 + 2, i * 3 + 3;
        match want {
          case Some(c) =>
            if c == CLASS_PRIVATE_KEY {
              handles := handles + [privHandle];
            } else if c == CLASS_PUBLIC_KEY {
              handles := handles + [pubHandle];
            } else if c == CLASS_CERTIFICATE {
              handles := handles + [certHandle];
            }
          case None => handles := handles + [privHandle, pubHandle, certHandle];
        }
      }
      state := Some(t.(findOp := Some(Search(handles, 0))));
      return OK;
    }

    /** The caller's array has room for as many handles as it asks for. */
    method C_FindObjects(session: nat, objects: array<nat>, max: nat) returns (rv: nat, count: nat)
      requires Valid(state) && max <= objects.Length
      modifies this, objects
      ensures (state, rv) == Do(old(state), FindObjects(session, max))
      ensures count <= max
      ensures rv == OK ==> objects[..count] == FindNext(old(state).value.findOp.value, max).1
      ensures rv != OK ==> count == 0
      ensures objects[count..] == old(objects[count..])
    {
      if state.None? {
        return NOT_INITIALIZED, 0;
      }
      var t := state.value;
      if !t.sessionOpen || session != t.sessionHandle {
        return SESSION_HANDLE_INVALID, 0;
      }
      if t.findOp.None? {
        return OPERATION_NOT_INITIALIZED, 0;
      }
      var find := t.findOp.value;
      count := Min(|find.handles| - find.position, max);
      var i := 0;
      while i < count
        invariant 0 <= i <= count <= objects.Length
        invariant objects[..i] == find.handles[find.position..find.position + i]
        invariant forall k :: i <= k < objects.Length ==> objects[k] == old(objects[k])
        invariant state == old(state)
      {
        objects[i] := find.handles[find.position + i];
        i := i + 1;
      }
      state := Some(t.(findOp := Some(Search(find.handles, find.position + count))));
      return OK, count;
    }

    method C_SignInit(session: nat, mechanism: nat, key: nat) returns (rv: nat)
      modifies this
      ensures (state, rv) == Do(old(state), SignInit(session, mechanism, key))
    {
      if state.None? {
        return NOT_INITIALIZED;
      }
      var t := state.value;
      if !t.sessionOpen || session != t.sessionHandle {
        return SESSION_HANDLE_INVALID;
      }
      match HandleToIndex(key) {
        case None => return OBJECT_HANDLE_INVALID;
        case Some((i, kind)) =>
          if i >= |t.identities| || kind != PrivateKey {
            return OBJECT_HANDLE_INVALID;
          }
      }
      if mechanism != EDDSA {
        return MECHANISM_INVALID;
      }
      state := Some(t.(signOp := Some(SignOp(key, mechanism))));
      return OK;
    }

    /** The first half of C_Sign, up to the release of the lock: the operation is consumed,
        whatever the second half makes of the caller's buffer. */
    method C_SignBegin(session: nat) returns (rv: nat, identity: Option<Identity>)
      requires Valid(state)
      modifies this
      ensures (state, rv) == Do(old(state), SignBegin(session))
      ensures identity == Taken(old(state), session) && (rv == OK <==> identity.Some?)
    {
      if state.None? {
        return NOT_INITIALIZED, None;
      }
      var t := state.value;
      if !t.sessionOpen || session != t.sessionHandle {
        return SESSION_HANDLE_INVALID, None;
      }
      if t.signOp.None? {
        return OPERATION_NOT_INITIALIZED, None;
      }
      var i := HandleToIndex(t.signOp.value.keyHandle).value.0;
      state := Some(t.(signOp := None));
      return OK, Some(t.identities[i]);
    }

    /** C_Sign with no other thread in between. `remote` is what connecting and asking the
        phone for a signature comes to, None for any failure; `asked` the identity it is
        asked with. A size query and a short buffer consume the operation without asking. */
    method C_Sign(session: nat, signature: Option<array<Byte>>, room: nat, remote: Option<seq<Byte>>)
      returns (rv: nat, length: nat, asked: Option<Identity>)
      requires Valid(state)
      requires signature.Some? ==> room <= signature.value.Length
      modifies this, if signature.Some? then {signature.value} else {}
      ensures state == Do(old(state), SignBegin(session)).0
      ensures asked == if signature.Some? && room >= SIGNATURE_LENGTH then Taken(old(state), session) else None
      ensures rv == OK <==>
        Taken(old(state), session).Some? &&
        (signature.None? || (room >= SIGNATURE_LENGTH && remote.Some? && |remote.value| == SIGNATURE_LENGTH))
      ensures Taken(old(state), session).Some? && (asked.None? || rv == OK) ==> length == SIGNATURE_LENGTH
      ensures Taken(old(state), session).None? ==> length == room
      ensures signature.Some? ==>
        signature.value[..] ==
          if rv == OK then remote.value + old(signature.value[..])[SIGNATURE_LENGTH..] else old(signature.value[..])
    {
      length := room;
      var identity;
      rv, identity := C_SignBegin(session);
      if rv != OK {
        return rv, length, None;
      }
      match signature {
        case None => return OK, SIGNATURE_LENGTH, None;
        case Some(buffer) =>
          if room < SIGNATURE_LENGTH {
            return BUFFER_TOO_SMALL, SIGNATURE_LENGTH, None;
          }
          asked := identity;
          if remote.None? || |remote.value| != SIGNATURE_LENGTH {
            return DEVICE_ERROR, length, asked;
          }
          CopyInto(buffer, remote.value);
          return OK, SIGNATURE_LENGTH, asked;
      }
    }
  }

  // ---- Interleavings of any number of threads ----

  /** The key of a successful C_SignInit, with the phone's list as last fetched. */
  datatype Chosen = Chosen(index: nat, publicKey: seq<Byte>, listed: seq<Raw>)

  ghost predicate Genuine(c: Chosen) {
    c.index < |c.listed| && KeyOf(c.listed[c.index]) == Some(c.publicKey)
  }

  /** A C_Sign past its lock release. */
  datatype Flight = Flight(key: Chosen, data: seq<Byte>)

  datatype Rpc = Rpc(key: Chosen, data: seq<Byte>, init: nat)

  /** `entered` are the calls that found the module initialised and have yet to take the
      lock, with the data of a C_Sign. `inits` lists the successful C_SignInit calls;
      `current` is the one whose operation is pending; `inFlight` are the C_Sign calls past
      their lock release, under the number of the C_SignInit whose operation they consumed;
      `signs` is the data each of these was given; `used` are the numbers with an RPC. */
  datatype System = System(
    state: State,
    entered: map<nat, (Call, seq<Byte>)>,
    aborted: bool,
    inits: seq<Chosen>,
    current: Option<nat>,
    inFlight: map<nat, Flight>,
    signs: map<nat, seq<Byte>>,
    rpcs: seq<Rpc>,
    used: set<nat>)

  const Begin := System(None, map[], false, [], None, map[], map[], [], {})

  datatype Step =
    | Whole(call: Call)                                    // C_Initialize, C_Finalize
    | Enter(thread: nat, call: Call, data: seq<Byte>)      // any other call, up to its lock
    | Locked(thread: nat)                                  // what it does under the lock
    | SignCalls(init: nat)
    | SignReturns(init: nat)

  function ChosenOf(t: Token, id: Identity): Chosen {
    Chosen(id.index, id.publicKey, t.listed)
  }

  /** The call goes on to take the lock; a wrong slot or flag returns before that. */
  predicate Locks(call: Call) {
    match call
    case Initialize(_) => false
    case Finalize => false
    case OpenSession(slot, serial) => slot == 0 && serial
    case CloseAllSessions(slot) => slot == 0
    case _ => true
  }

  /** A call under the lock. */
  function Perform(s: System, call: Call, data: seq<Byte>): System {
    var (next, rv) := Do(s.state, call);
    if call.SignBegin? then
      var taken := Taken(s.state, call.session);
      if taken.Some? && s.current.Some? then
        var n := s.current.value;
        System(next, s.entered, s.aborted, s.inits, None,
               s.inFlight[n := Flight(ChosenOf(s.state.value, taken.value), data)], s.signs[n := data], s.rpcs, s.used)
      else System(next, s.entered, s.aborted, s.inits, s.current, s.inFlight, s.signs, s.rpcs, s.used)
    else if call.SignInit? && rv == OK && s.state.Some? && SigningKey(s.state.value, call.key).Some? then
      var id := s.state.value.identities[SigningKey(s.state.value, call.key).value];
      System(next, s.entered, s.aborted, s.inits + [ChosenOf(s.state.value, id)], Some(|s.inits|),
             s.inFlight, s.signs, s.rpcs, s.used)
    else
      System(next, s.entered, s.aborted, s.inits, if next.Some? && next.value.signOp.Some? then s.current else None,
             s.inFlight, s.signs, s.rpcs, s.used)
  }

  function WithEntered(s: System, entered: map<nat, (Call, seq<Byte>)>, aborted: bool): System {
    System(s.state, entered, aborted, s.inits, s.current, s.inFlight, s.signs, s.rpcs, s.used)
  }

  /** The lock finds the state gone when C_Finalize came in between: C_Sign reports that,
      every other call panics. */
  function Apply(s: System, step: Step): System {
    if s.aborted then s else
    match step
    case Whole(call) => if call.Initialize? || call.Finalize? then Perform(s, call, []) else s
    case Enter(t, call, data) =>
      if t in s.entered || s.state.None? || !Locks(call) then s
      else WithEntered(s, s.entered[t := (call, data)], false)
    case Locked(t) =>
      if t !in s.entered then s
      else if s.state.None? then WithEntered(s, s.entered - {t}, !s.entered[t].0.SignBegin?)
      else Perform(WithEntered(s, s.entered - {t}, false), s.entered[t].0, s.entered[t].1)
    case SignCalls(n) =>
      if n !in s.inFlight then s else
      System(s.state, s.entered, s.aborted, s.inits, s.current, s.inFlight - {n}, s.signs,
             s.rpcs + [Rpc(s.inFlight[n].key, s.inFlight[n].data, n)], s.used + {n})
    case SignReturns(n) =>
      System(s.state, s.entered, s.aborted, s.inits, s.current, s.inFlight - {n}, s.signs, s.rpcs, s.used)
  }

  function Run(s: System, steps: seq<Step>): System
    decreases |steps|
  {
    if steps == [] then s else Run(Apply(s, steps[0]), steps[1..])
  }

  ghost predicate PendingInv(s: System) {
    && Valid(s.state)
    && (s.current.Some? <==> s.state.Some? && s.state.value.signOp.Some?)
    && (s.current.Some? ==>
          && s.current.value < |s.inits| && s.current.value !in s.signs
          && var t := s.state.value;
             var id := t.identities[SigningKey(t, t.signOp.value.keyHandle).value];
             s.inits[s.current.value] == ChosenOf(t, id))
  }

  ghost predicate RpcInv(s: System) {
    && (forall n :: 0 <= n < |s.inits| ==> Genuine(s.inits[n]))
    && (forall n :: n in s.signs ==> n < |s.inits|)
    && (forall n :: n in s.inFlight ==>
          n in s.signs && n !in s.used && s.inFlight[n] == Flight(s.inits[n], s.signs[n]))
    && (forall n :: n in s.used ==> n in s.signs)
    && (forall k :: 0 <= k < |s.rpcs| ==>
          var r := s.rpcs[k]; r.init in s.used && r.key == s.inits[r.init] && r.data == s.signs[r.init])
    && |s.rpcs| == |s.used|
  }

  /** No call but C_SignInit and C_Sign replaces a pending sign operation. */
  lemma KeepsSignOp(st: State, call: Call)
    requires (!call.SignInit? && !call.SignBegin?) || Do(st, call).1 != OK
    ensures var next := Do(st, call).0;
            next.Some? && next.value.signOp.Some? ==>
              st.Some? && next.value.signOp == st.value.signOp && next.value.identities == st.value.identities
  {
  }

  lemma PlainKeepsPending(s: System, call: Call)
    requires PendingInv(s) && RpcInv(s) && !call.SignBegin?
    ensures PendingInv(Perform(s, call, []))
  {
    hide MatchingHandles, WantedClass, FindNext, HandleToIndex, Load, Keep, Genuine, Valid;
    DoKeepsValid(s.state, call);
    if !(call.SignInit? && Do(s.state, call).1 == OK) {
      KeepsSignOp(s.state, call);
    }
  }

  lemma PlainKeepsRpcs(s: System, call: Call)
    requires PendingInv(s) && RpcInv(s) && !call.SignBegin?
    ensures RpcInv(Perform(s, call, []))
  {
    hide Do, HandleToIndex, Load, Keep, Genuine;
    if s.state.Some? && call.SignInit? && SigningKey(s.state.value, call.key).Some? {
      IdentitiesAreGenuine(s.state.value, SigningKey(s.state.value, call.key).value);
    }
  }

  lemma SignKeepsInv(s: System, session: nat, data: seq<Byte>)
    requires PendingInv(s) && RpcInv(s)
    ensures PendingInv(Perform(s, SignBegin(session), data)) && RpcInv(Perform(s, SignBegin(session), data))
  {
    hide MatchingHandles, WantedClass, FindNext, HandleToIndex, Load, Keep, Genuine;
    DoKeepsValid(s.state, SignBegin(session));
  }

  lemma PerformKeepsInv(s: System, call: Call, data: seq<Byte>)
    requires PendingInv(s) && RpcInv(s)
    ensures PendingInv(Perform(s, call, data)) && RpcInv(Perform(s, call, data))
  {
    hide PendingInv, RpcInv, Do;
    if call.SignBegin? {
      SignKeepsInv(s, call.session, data);
    } else {
      PlainKeepsPending(s, call);
      PlainKeepsRpcs(s, call);
      assert Perform(s, call, data) == Perform(s, call, []);
    }
  }

  lemma LockedKeepsInv(s: System, t: nat)
    requires PendingInv(s) && RpcInv(s)
    ensures PendingInv(Apply(s, Locked(t))) && RpcInv(Apply(s, Locked(t)))
  {
    hide Perform, Genuine, Valid, SigningKey;
    if t in s.entered {
      PerformKeepsInv(WithEntered(s, s.entered - {t}, false), s.entered[t].0, s.entered[t].1);
    }
  }

  lemma StepKeepsInv(s: System, step: Step)
    requires PendingInv(s) && RpcInv(s)
    ensures PendingInv(Apply(s, step)) && RpcInv(Apply(s, step))
  {
    hide Perform, Genuine, Valid, SigningKey;
    match step
    case Whole(call) => PerformKeepsInv(s, call, []);
    case Enter(_, _, _) =>
    case Locked(t) => LockedKeepsInv(s, t);
    case SignCalls(n) =>
    case SignReturns(n) =>
  }

  lemma {:induction false} RunKeepsInv(s: System, steps: seq<Step>)
    requires PendingInv(s) && RpcInv(s)
    ensures PendingInv(Run(s, steps)) && RpcInv(Run(s, steps))
    decreases |steps|
  {
    hide PendingInv, RpcInv, Apply;
    if steps != [] {
      StepKeepsInv(s, steps[0]);
      RunKeepsInv(Apply(s, steps[0]), steps[1..]);
    }
  }

  lemma {:induction false} BoundedSet(s: set<nat>, n: nat)
    requires forall x :: x in s ==> x < n
    ensures |s| <= n
  {
    if n > 0 {
      BoundedSet(s - {n - 1}, n - 1);
      assert s <= (s - {n - 1}) + {n - 1};
    } else {
      assert s == {};
    }
  }

  /** In every interleaving: a pending search or signature implies an open session, a
      pending signature names an existing private key, every signing RPC carries the data
      of its own C_Sign with the index and public key chosen by the C_SignInit whose
      operation that consumed, a matching pair of the phone's list as fetched by
      C_Initialize, and RPCs never outnumber successful C_SignInit calls. */
  lemma SigningFollowsSignInit(steps: seq<Step>)
    ensures var s := Run(Begin, steps);
            && (s.state.Some? && (s.state.value.signOp.Some? || s.state.value.findOp.Some?) ==>
              s.state.value.sessionOpen)
            && (s.state.Some? && s.state.value.signOp.Some? ==>
                  SigningKey(s.state.value, s.state.value.signOp.value.keyHandle).Some?)
            && (forall k :: 0 <= k < |s.rpcs| ==>
                  var r := s.rpcs[k];
                  && r.init < |s.inits| && r.key == s.inits[r.init] && Genuine(r.key)
                  && r.init in s.signs && r.data == s.signs[r.init])
            && |s.rpcs| <= |s.inits|
  {
    hide Run, Genuine;
    var s := Run(Begin, steps);
    RunKeepsInv(Begin, steps);
    BoundedSet(s.used, |s.inits|);
  }

  // ---- Whose list it is ----

  lemma {:induction false} RunSnoc(s: System, steps: seq<Step>, last: Step)
    ensures Run(s, steps + [last]) == Apply(Run(s, steps), last)
    decreases |steps|
  {
    hide Apply;
    if steps == [] {
      assert [last][1..] == [] && steps + [last] == [last];
    } else {
      assert (steps + [last])[1..] == steps[1..] + [last];
      RunSnoc(Apply(s, steps[0]), steps[1..], last);
    }
  }

  /** The list given to the latest C_Initialize that succeeded. */
  function LatestList(steps: seq<Step>): Option<seq<Raw>> {
    if steps == [] then None
    else
      var init, last := steps[..|steps| - 1], steps[|steps| - 1];
      if last.Whole? && last.call.Initialize? && last.call.fetched.Some?
         && Run(Begin, init).state.None? && !Run(Begin, init).aborted
      then last.call.fetched
      else LatestList(init)
  }

  lemma PerformKeepsList(s: System, call: Call, data: seq<Byte>)
    ensures var next := Perform(s, call, data).state;
            next.Some? ==>
              (s.state.Some? && next.value.listed == s.state.value.listed)
              || (s.state.None? && call == Initialize(Some(next.value.listed)))
  {
    hide MatchingHandles, WantedClass, FindNext, HandleToIndex, Load, Keep, SigningKey;
  }

  /** Over every run, the module works on the list of the latest successful C_Initialize. */
  lemma {:induction false} ListedIsLatest(steps: seq<Step>)
    ensures var s := Run(Begin, steps); s.state.Some? ==> LatestList(steps) == Some(s.state.value.listed)
    decreases |steps|
  {
    hide Run, Perform;
    if steps == [] {
      AtTheBeginning();
    } else {
      var n := |steps| - 1;
      var init := steps[..n];
      var s := Run(Begin, init);
      ListedIsLatest(init);
      assert steps == init + [steps[n]];
      RunSnoc(Begin, init, steps[n]);
      match steps[n]
      case Whole(call) => PerformKeepsList(s, call, []);
      case Locked(t) =>
        if t in s.entered {
          PerformKeepsList(WithEntered(s, s.entered - {t}, false), s.entered[t].0, s.entered[t].1);
          EnteredAreNotInitialize(init);
        }
      case _ =>
    }
  }

  /** C_Initialize does not wait for the lock after a check of its own. */
  lemma {:induction false} EnteredAreNotInitialize(steps: seq<Step>)
    ensures forall t :: t in Run(Begin, steps).entered ==> !Run(Begin, steps).entered[t].0.Initialize?
    decreases |steps|
  {
    hide Run, Perform;
    if steps == [] {
      AtTheBeginning();
    } else {
      var n := |steps| - 1;
      var s := Run(Begin, steps[..n]);
      EnteredAreNotInitialize(steps[..n]);
      assert steps == steps[..n] + [steps[n]];
      RunSnoc(Begin, steps[..n], steps[n]);
      match steps[n]
      case Whole(call) => StateStays(s, call, []);
      case Locked(t) =>
        if t in s.entered {
          StateStays(WithEntered(s, s.entered - {t}, false), s.entered[t].0, s.entered[t].1);
        }
      case _ =>
    }
  }

  /** A C_SignInit that succeeds chooses from that list. */
  lemma ChosenFromTheLatestList(steps: seq<Step>, last: Step)
    ensures var s, t := Run(Begin, steps), Run(Begin, steps + [last]);
            s.inits <= t.inits && |t.inits| <= |s.inits| + 1
            && (|t.inits| > |s.inits| ==> Some(t.inits[|s.inits|].listed) == LatestList(steps))
  {
    hide Run, LatestList, Perform;
    RunSnoc(Begin, steps, last);
    ListedIsLatest(steps);
    var s := Run(Begin, steps);
    match last
    case Whole(call) => PerformChooses(s, call, []);
    case Locked(t) =>
      if t in s.entered {
        PerformChooses(WithEntered(s, s.entered - {t}, false), s.entered[t].0, s.entered[t].1);
      }
    case _ =>
  }

  lemma PerformChooses(s: System, call: Call, data: seq<Byte>)
    ensures var t := Perform(s, call, data);
            s.inits <= t.inits && |t.inits| <= |s.inits| + 1
            && (|t.inits| > |s.inits| ==> s.state.Some? && t.inits[|s.inits|].listed == s.state.value.listed)
  {
    hide Do, SigningKey, Taken;
  }

  // ---- C_Finalize between a call's check and its lock ----

  /** Some call other than C_Sign is between its check and its lock. */
  ghost predicate InBetween(s: System) {
    exists t :: t in s.entered && !s.entered[t].0.SignBegin?
  }

  ghost predicate Quiet(s: System) {
    && !s.aborted && (s.state.None? ==> !InBetween(s))
    && (forall t :: t in s.entered ==> Locks(s.entered[t].0))
  }

  /** The module panics only if some C_Finalize comes between the check and the lock of
      another call. */
  lemma {:induction false} PanicNeedsFinalizeInBetween(steps: seq<Step>)
    requires forall i :: 0 <= i < |steps| && steps[i] == Whole(Finalize) ==> !InBetween(Run(Begin, steps[..i]))
    ensures Quiet(Run(Begin, steps)) && !Run(Begin, steps).aborted
    decreases |steps|
  {
    hide Apply, Perform, Run, InBetween;
    if steps != [] {
      var n := |steps| - 1;
      var init := steps[..n];
      forall i | 0 <= i < |init| && init[i] == Whole(Finalize)
        ensures !InBetween(Run(Begin, init[..i]))
      {
        assert steps[i] == Whole(Finalize) && steps[..i] == init[..i];
      }
      PanicNeedsFinalizeInBetween(init);
      assert steps == init + [steps[n]];
      RunSnoc(Begin, init, steps[n]);
      QuietStep(Run(Begin, init), steps[n]);
    } else {
      AtTheBeginning();
    }
  }

  lemma AtTheBeginning()
    ensures Run(Begin, []) == Begin && !InBetween(Begin)
  {
  }

  /** Only C_Finalize drops the state. */
  lemma StateStays(s: System, call: Call, data: seq<Byte>)
    ensures var t := Perform(s, call, data);
            && t.entered == s.entered && t.aborted == s.aborted
            && (s.state.Some? && !call.Finalize? ==> t.state.Some?)
  {
    hide MatchingHandles, WantedClass, FindNext, HandleToIndex, Load, Keep, Taken, SigningKey;
  }

  lemma QuietStep(s: System, step: Step)
    requires Quiet(s) && (step == Whole(Finalize) ==> !InBetween(s))
    ensures Quiet(Apply(s, step))
  {
    hide Perform;
    match step
    case Whole(call) => StateStays(s, call, []);
    case Locked(t) =>
      if t in s.entered {
        StateStays(WithEntered(s, s.entered - {t}, false), s.entered[t].0, s.entered[t].1);
      }
    case _ =>
  }

  /** And whenever one does, the caught call panics if it takes its lock next. */
  lemma FinalizeInBetweenPanics(steps: seq<Step>, t: nat)
    requires var s := Run(Begin, steps);
             !s.aborted && t in s.entered && !s.entered[t].0.SignBegin?
    ensures Run(Begin, steps + [Whole(Finalize)] + [Locked(t)]).aborted
  {
    hide Run;
    RunSnoc(Begin, steps, Whole(Finalize));
    RunSnoc(Begin, steps + [Whole(Finalize)], Locked(t));
  }

  /** So the concurrent calls of two threads can take the module down. */
  lemma PanicIsReachable(identities: seq<Raw>)
    ensures Run(Begin, [Whole(Initialize(Some(identities)))] + [Enter(0, OpenSession(0, true), [])]
                       + [Whole(Finalize)] + [Locked(0)]).aborted
  {
    hide Run, Load, Keep;
    var start := [Whole(Initialize(Some(identities)))];
    RunSnoc(Begin, [], start[0]);
    assert [] + start == start;
    AtTheBeginning();
    RunSnoc(Begin, start, Enter(0, OpenSession(0, true), []));
    FinalizeInBetweenPanics(start + [Enter(0, OpenSession(0, true), [])], 0);
  }
}
