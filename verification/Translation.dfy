/** The per-method translation of km-nostr-sa (crates/km-nostr-sa/src/main.rs) between the
    typed client (crates/km-nostr-client/src/lib.rs), which writes byte fields in hex, and
    the phone, which reads and writes them in Base64. */
module Translation {
  import opened Common
  import opened JsonValues
  import opened Encodings

  // ---- One field ----

  function HexToBase64(v: Json): Json {
    match v
    case Str(s) => (match HexDecode(s) case Some(bytes) => Str(Base64Encode(bytes)) case None => v)
    case _ => v
  }

  function Base64ToHex(v: Json): Json {
    match v
    case Str(s) => (match Base64Decode(s) case Some(bytes) => Str(HexEncode(bytes)) case None => v)
    case _ => v
  }

  /** The object with the named fields recoded and every other field as it was. */
  function Recode(v: Json, names: set<string>, f: Json -> Json): Json {
    if v.Obj? then Obj(map k | k in v.fields :: if k in names then f(v.fields[k]) else v.fields[k]) else v
  }

  lemma RecodeTwice(v: Json, a: string, b: string, f: Json -> Json)
    requires a != b
    ensures Recode(Recode(v, {a}, f), {b}, f) == Recode(v, {a, b}, f)
  {
    if v.Obj? {
      assert Recode(Recode(v, {a}, f), {b}, f).fields == Recode(v, {a, b}, f).fields;
    }
  }

  lemma RecodeNone(v: Json, f: Json -> Json)
    ensures Recode(v, {}, f) == v
  {
    if v.Obj? {
      assert Recode(v, {}, f).fields == v.fields;
    }
  }

  // ---- Which fields hold bytes ----

  function RequestByteFields(name: string): set<string> {
    if name == "sign_event" then {"public_key", "event_hash"}
    else if name in {"nip04_encrypt", "nip04_decrypt", "nip44_encrypt", "nip44_decrypt"} then
      {"public_key", "peer_public_key"}
    else if name == "get_mls_pubkey" then {"nostr_pubkey"}
    else if name == "mls_sign" then {"mls_pubkey", "data"}
    else if name == "sign_account_identity_proof" then {"account_identity", "mls_signature_public_key"}
    else if name == "mls_hpke_pubkey_at" then {"mls_pubkey"}
    else if name in {"mls_hpke_dh", "mls_hpke_decap"} then {"hpke_pubkey", "peer_public"}
    else if name == "mls_next_hpke_init_key" then {"mls_pubkey", "current_hpke_pubkey"}
    else {}
  }

  function ResultByteFields(name: string): set<string> {
    if name in {"sign_event", "mls_sign", "sign_account_identity_proof"} then {"signature"}
    else if name == "get_mls_pubkey" then {"mls_pubkey"}
    else if name in {"mls_hpke_pubkey_at", "mls_next_hpke_init_key"} then {"hpke_pubkey"}
    else if name in {"mls_hpke_dh", "mls_hpke_decap"} then {"dh_result"}
    else {}
  }

  function TranslateRequest(name: string, params: Json): Json {
    Recode(params, RequestByteFields(name), HexToBase64)
  }

  function TranslateResult(name: string, result: Json): Json {
    if name == "get_public_keys" then
      if result.Arr? then
        Arr(seq(|result.items|, i requires 0 <= i < |result.items| =>
          Recode(result.items[i], {"public_key"}, Base64ToHex)))
      else result
    else Recode(result, ResultByteFields(name), Base64ToHex)
  }

  // ---- The translation as the bridge runs it, field by field and in place ----

  /** The JSON value a bridge iteration holds and rewrites. */
  class Slot {
    var value: Json

    constructor (v: Json)
      ensures value == v
    {
      value := v;
    }

    method HexToBase64Field(field: string)
      modifies this
      ensures value == Recode(old(value), {field}, HexToBase64)
    {
      match GetStr(value, field) {
        case Some(text) =>
          match HexDecode(text) {
            case Some(bytes) => value := Obj(value.fields[field := Str(Base64Encode(bytes))]);
            case None =>
          }
        case None =>
      }
      assert value.Obj? ==> value.fields == Recode(old(value), {field}, HexToBase64).fields;
    }

    method Base64ToHexField(field: string)
      modifies this
      ensures value == Recode(old(value), {field}, Base64ToHex)
    {
      match GetStr(value, field) {
        case Some(text) =>
          match Base64Decode(text) {
            case Some(bytes) => value := Obj(value.fields[field := Str(HexEncode(bytes))]);
            case None =>
          }
        case None =>
      }
      assert value.Obj? ==> value.fields == Recode(old(value), {field}, Base64ToHex).fields;
    }

    method BothToBase64(first: string, second: string)
      requires first != second
      modifies this
      ensures value == Recode(old(value), {first, second}, HexToBase64)
    {
      RecodeTwice(value, first, second, HexToBase64);
      HexToBase64Field(first);
      HexToBase64Field(second);
    }

    method TranslateRequestParams(name: string)
      modifies this
      ensures value == TranslateRequest(name, old(value))
    {
      hide HexToBase64;
      RecodeNone(value, HexToBase64);
      match name {
        case "get_public_keys" =>
        case "sign_event" => BothToBase64("public_key", "event_hash");
        case "nip04_encrypt" => BothToBase64("public_key", "peer_public_key");
        case "nip04_decrypt" => BothToBase64("public_key", "peer_public_key");
        case "nip44_encrypt" => BothToBase64("public_key", "peer_public_key");
        case "nip44_decrypt" => BothToBase64("public_key", "peer_public_key");
        case "get_mls_pubkey" => HexToBase64Field("nostr_pubkey");
        case "mls_sign" => BothToBase64("mls_pubkey", "data");
        case "sign_account_identity_proof" => BothToBase64("account_identity", "mls_signature_public_key");
        case "mls_hpke_pubkey_at" => HexToBase64Field("mls_pubkey");
        case "mls_hpke_dh" => BothToBase64("hpke_pubkey", "peer_public");
        case "mls_hpke_decap" => BothToBase64("hpke_pubkey", "peer_public");
        case "mls_next_hpke_init_key" => BothToBase64("mls_pubkey", "current_hpke_pubkey");
        case _ =>
      }
    }

    method TranslateResponseResult(name: string)
      modifies this
      ensures value == TranslateResult(name, old(value))
    {
      RecodeNone(value, Base64ToHex);
      match name {
        case "get_public_keys" =>
          if value.Arr? {
            var items := value.items;
            var i := 0;
            while i < |items|
              invariant 0 <= i <= |items| == |old(value).items|
              invariant value == old(value)
              invariant forall j :: 0 <= j < i ==> items[j] == Recode(old(value).items[j], {"public_key"}, Base64ToHex)
              invariant forall j :: i <= j < |items| ==> items[j] == old(value).items[j]
            {
              var item := new Slot(items[i]);
              item.Base64ToHexField("public_key");
              items := items[i := item.value];
              i := i + 1;
            }
            assert items == TranslateResult(name, old(value)).items;
            value := Arr(items);
          }
        case "sign_event" => Base64ToHexField("signature");
        case "get_mls_pubkey" => Base64ToHexField("mls_pubkey");
        case "mls_sign" => Base64ToHexField("signature");
        case "sign_account_identity_proof" => Base64ToHexField("signature");
        case "mls_hpke_pubkey_at" => Base64ToHexField("hpke_pubkey");
        case "mls_next_hpke_init_key" => Base64ToHexField("hpke_pubkey");
        case "mls_hpke_dh" => Base64ToHexField("dh_result");
        case "mls_hpke_decap" => Base64ToHexField("dh_result");
        case _ =>
      }
    }
  }

  // ---- The typed client ----

  type Key = k: seq<Byte> | |k| == 32 witness seq(32, _ => 0)

  datatype Call =
    | GetPublicKeys
    | SignEvent(key: Key, hash: Key)
    | Nip44Encrypt(key: Key, peer: Key, plaintext: string)
    | Nip44Decrypt(key: Key, peer: Key, ciphertext: string)
    | GetMlsPubkey(key: Key)
    | MlsSign(key: Key, data: seq<Byte>)
    | SignAccountIdentityProof(account: Key, mls: Key, ciphersuite: nat, scheme: nat)
    | MlsHpkePubkeyAt(key: Key, keyType: nat, index: nat)
    | MlsHpkeDh(key: Key, peer: Key)
    | MlsHpkeDecap(key: Key, peer: Key)
    | MlsNextHpkeInitKey(key: Key, current: Option<Key>)

  function CallName(call: Call): string {
    match call
    case GetPublicKeys => "get_public_keys"
    case SignEvent(_, _) => "sign_event"
    case Nip44Encrypt(_, _, _) => "nip44_encrypt"
    case Nip44Decrypt(_, _, _) => "nip44_decrypt"
    case GetMlsPubkey(_) => "get_mls_pubkey"
    case MlsSign(_, _) => "mls_sign"
    case SignAccountIdentityProof(_, _, _, _) => "sign_account_identity_proof"
    case MlsHpkePubkeyAt(_, _, _) => "mls_hpke_pubkey_at"
    case MlsHpkeDh(_, _) => "mls_hpke_dh"
    case MlsHpkeDecap(_, _) => "mls_hpke_decap"
    case MlsNextHpkeInitKey(_, _) => "mls_next_hpke_init_key"
  }

  datatype Field = Bytes(b: seq<Byte>) | Plain(v: Json)

  /** The fields of a call: which are bytes and which are not. */
  function Fields(call: Call): map<string, Field> {
    match call
    case GetPublicKeys => map[]
    case SignEvent(key, hash) => map["public_key" := Bytes(key), "event_hash" := Bytes(hash)]
    case Nip44Encrypt(key, peer, text) =>
      map["public_key" := Bytes(key), "peer_public_key" := Bytes(peer), "plaintext" := Plain(Str(text))]
    case Nip44Decrypt(key, peer, text) =>
      map["public_key" := Bytes(key), "peer_public_key" := Bytes(peer), "ciphertext" := Plain(Str(text))]
    case GetMlsPubkey(key) => map["nostr_pubkey" := Bytes(key), "device_id" := Plain(Null)]
    case MlsSign(key, data) => map["mls_pubkey" := Bytes(key), "data" := Bytes(data)]
    case SignAccountIdentityProof(account, mls, suite, scheme) =>
      map["account_identity" := Bytes(account), "mls_signature_public_key" := Bytes(mls),
          "ciphersuite" := Plain(Int(suite)), "signature_scheme" := Plain(Int(scheme))]
    case MlsHpkePubkeyAt(key, keyType, index) =>
      map["mls_pubkey" := Bytes(key), "key_type" := Plain(Int(keyType)), "index" := Plain(Int(index))]
    case MlsHpkeDh(key, peer) => map["hpke_pubkey" := Bytes(key), "peer_public" := Bytes(peer)]
    case MlsHpkeDecap(key, peer) => map["hpke_pubkey" := Bytes(key), "peer_public" := Bytes(peer)]
    case MlsNextHpkeInitKey(key, current) =>
      map["mls_pubkey" := Bytes(key),
          "current_hpke_pubkey" := match current case Some(k) => Bytes(k) case None => Plain(Null)]
  }

  function FieldText(f: Field, text: seq<Byte> -> string): Json {
    match f case Bytes(b) => Str(text(b)) case Plain(v) => v
  }

  function Written(fields: map<string, Field>, text: seq<Byte> -> string): Json {
    Obj(map k | k in fields :: FieldText(fields[k], text))
  }

  function ClientParams(call: Call): Json {
    Written(Fields(call), HexEncode)
  }

  lemma HexFieldArrives(bytes: seq<Byte>)
    ensures HexToBase64(Str(HexEncode(bytes))) == Str(Base64Encode(bytes))
    ensures Base64ToHex(Str(Base64Encode(bytes))) == Str(HexEncode(bytes))
  {
    HexRoundTrip(bytes);
    Base64RoundTrip(bytes);
  }

  /** The table names exactly the byte fields of the call, up to fields that are null. */
  lemma ByteFieldsOfCall(call: Call)
    ensures forall k :: k in Fields(call) ==>
      (Fields(call)[k].Bytes? ==> k in RequestByteFields(CallName(call)))
      && (Fields(call)[k].Plain? && k in RequestByteFields(CallName(call)) ==> Fields(call)[k].v == Null)
  {
  }

  /** Every byte field the client writes in hex reaches the phone as Base64 of the same
      bytes, and every other field unchanged. */
  lemma RequestBytesArrive(call: Call)
    ensures TranslateRequest(CallName(call), ClientParams(call)) == Written(Fields(call), Base64Encode)
  {
    hide HexEncode, Base64Encode, Fields, CallName, RequestByteFields;
    var fields, names := Fields(call), RequestByteFields(CallName(call));
    ByteFieldsOfCall(call);
    var left, right := TranslateRequest(CallName(call), ClientParams(call)), Written(fields, Base64Encode);
    forall k | k in fields ensures left.fields[k] == right.fields[k] {
      if fields[k].Bytes? {
        HexFieldArrives(fields[k].b);
      }
    }
    assert left.fields == right.fields;
  }

  // ---- The phone's reading of a request ----

  /** A member holding a 32-byte key in Base64. */
  function KeyIn(params: Json, field: string): Option<Key> {
    match BytesIn(params, field)
    case Some(bytes) => if |bytes| == 32 then Some(bytes) else None
    case None => None
  }

  function BytesIn(params: Json, field: string): Option<seq<Byte>> {
    match Get(params, field) case Some(Str(text)) => Base64Decode(text) case _ => None
  }

  function NumberIn(params: Json, field: string): Option<nat> {
    match Get(params, field) case Some(Int(n)) => if n >= 0 then Some(n) else None case _ => None
  }

  function TwoKeys(params: Json, first: string, second: string): Option<(Key, Key)> {
    match (KeyIn(params, first), KeyIn(params, second)) case (Some(a), Some(b)) => Some((a, b)) case _ => None
  }

  /** What a phone makes of a method name and its parameters: every key in Base64 under the
      name that the method gives it. */
  function PhoneReads(name: string, params: Json): Option<Call> {
    if name == "get_public_keys" then Some(GetPublicKeys)
    else if name == "sign_event" then (
      match TwoKeys(params, "public_key", "event_hash")
      case Some((k, h)) => Some(SignEvent(k, h))
      case None => None)
    else if name == "nip44_encrypt" then (
      match (TwoKeys(params, "public_key", "peer_public_key"), GetStr(params, "plaintext"))
      case (Some((k, p)), Some(text)) => Some(Nip44Encrypt(k, p, text))
      case _ => None)
    else if name == "nip44_decrypt" then (
      match (TwoKeys(params, "public_key", "peer_public_key"), GetStr(params, "ciphertext"))
      case (Some((k, p)), Some(text)) => Some(Nip44Decrypt(k, p, text))
      case _ => None)
    else if name == "get_mls_pubkey" then (
      match KeyIn(params, "nostr_pubkey")
      case Some(k) => Some(GetMlsPubkey(k))
      case None => None)
    else if name == "mls_sign" then (
      match (KeyIn(params, "mls_pubkey"), BytesIn(params, "data"))
      case (Some(k), Some(data)) => Some(MlsSign(k, data))
      case _ => None)
    else if name == "sign_account_identity_proof" then (
      match (TwoKeys(params, "account_identity", "mls_signature_public_key"),
             NumberIn(params, "ciphersuite"), NumberIn(params, "signature_scheme"))
      case (Some((a, m)), Some(suite), Some(scheme)) => Some(SignAccountIdentityProof(a, m, suite, scheme))
      case _ => None)
    else if name == "mls_hpke_pubkey_at" then (
      match (KeyIn(params, "mls_pubkey"), NumberIn(params, "key_type"), NumberIn(params, "index"))
      case (Some(k), Some(keyType), Some(index)) => Some(MlsHpkePubkeyAt(k, keyType, index))
      case _ => None)
    else if name == "mls_hpke_dh" then (
      match TwoKeys(params, "hpke_pubkey", "peer_public")
      case Some((k, p)) => Some(MlsHpkeDh(k, p))
      case None => None)
    else if name == "mls_hpke_decap" then (
      match TwoKeys(params, "hpke_pubkey", "peer_public")
      case Some((k, p)) => Some(MlsHpkeDecap(k, p))
      case None => None)
    else if name == "mls_next_hpke_init_key" then (
      match (KeyIn(params, "mls_pubkey"), Get(params, "current_hpke_pubkey"))
      case (Some(k), Some(Null)) => Some(MlsNextHpkeInitKey(k, None))
      case (Some(k), Some(Str(_))) => (
        match KeyIn(params, "current_hpke_pubkey")
        case Some(current) => Some(MlsNextHpkeInitKey(k, Some(current)))
        case None => None)
      case _ => None)
    else None
  }

  lemma MembersOf(fields: map<string, Field>, field: string)
    requires field in fields
    ensures var params := Written(fields, Base64Encode);
            && (fields[field].Bytes? ==> BytesIn(params, field) == Some(fields[field].b))
            && (fields[field].Plain? ==> Get(params, field) == Some(fields[field].v))
            && (fields[field].Bytes? ==> Get(params, field) == Some(Str(Base64Encode(fields[field].b))))
  {
    hide Base64Encode, Base64Decode;
    if fields[field].Bytes? {
      Base64RoundTrip(fields[field].b);
    }
  }

  /** The members of a call's parameters, as the phone finds them. */
  ghost predicate MembersArrive(call: Call, params: Json) {
    forall field :: field in Fields(call) ==>
      var f := Fields(call)[field];
      && (f.Bytes? ==> BytesIn(params, field) == Some(f.b) && Get(params, field) == Some(Str(Base64Encode(f.b))))
      && (f.Plain? ==> Get(params, field) == Some(f.v))
  }

  lemma AllMembersArrive(call: Call)
    ensures MembersArrive(call, TranslateRequest(CallName(call), ClientParams(call)))
  {
    hide TranslateRequest, ClientParams, Written, Get, BytesIn, CallName, Fields;
    RequestBytesArrive(call);
    forall field | field in Fields(call)
      ensures var params := Written(Fields(call), Base64Encode); var f := Fields(call)[field];
              && (f.Bytes? ==> BytesIn(params, field) == Some(f.b))
              && (f.Bytes? ==> Get(params, field) == Some(Str(Base64Encode(f.b))))
              && (f.Plain? ==> Get(params, field) == Some(f.v))
    {
      MembersOf(Fields(call), field);
    }
  }

  predicate MemberArrives(call: Call, params: Json, field: string)
    requires field in Fields(call)
  {
    var f := Fields(call)[field];
    && (f.Bytes? ==> BytesIn(params, field) == Some(f.b) && Get(params, field) == Some(Str(Base64Encode(f.b))))
    && (f.Plain? ==> Get(params, field) == Some(f.v))
  }

  lemma PairIsRead(call: Call, params: Json, first: string, second: string)
    requires MembersArrive(call, params) && first in Fields(call) && second in Fields(call)
    requires Fields(call)[first].Bytes? && |Fields(call)[first].b| == 32
    requires Fields(call)[second].Bytes? && |Fields(call)[second].b| == 32
    ensures TwoKeys(params, first, second) == Some((Fields(call)[first].b, Fields(call)[second].b))
  {
    hide BytesIn, Get, Fields;
  }

  lemma SignEventPair(call: Call, params: Json)
    requires MembersArrive(call, params) && call.SignEvent?
    ensures TwoKeys(params, "public_key", "event_hash") == Some((call.key, call.hash))
  {
    hide TwoKeys, MembersArrive;
    PairIsRead(call, params, "public_key", "event_hash");
  }

  lemma HpkePair(call: Call, params: Json)
    requires MembersArrive(call, params) && (call.MlsHpkeDh? || call.MlsHpkeDecap?)
    ensures TwoKeys(params, "hpke_pubkey", "peer_public") == Some((call.key, call.peer))
  {
    hide TwoKeys, MembersArrive;
    PairIsRead(call, params, "hpke_pubkey", "peer_public");
  }

  lemma PeerPair(call: Call, params: Json)
    requires MembersArrive(call, params) && (call.Nip44Encrypt? || call.Nip44Decrypt?)
    ensures TwoKeys(params, "public_key", "peer_public_key") == Some((call.key, call.peer))
    ensures call.Nip44Encrypt? ==> Get(params, "plaintext") == Some(Str(call.plaintext))
    ensures call.Nip44Decrypt? ==> Get(params, "ciphertext") == Some(Str(call.ciphertext))
  {
    hide TwoKeys, Get, BytesIn;
    PairIsRead(call, params, "public_key", "peer_public_key");
    var field := if call.Nip44Encrypt? then "plaintext" else "ciphertext";
    assert field in Fields(call) && MemberArrives(call, params, field);
  }

  lemma ProofMembers(call: Call, params: Json)
    requires MembersArrive(call, params) && call.SignAccountIdentityProof?
    ensures TwoKeys(params, "account_identity", "mls_signature_public_key") == Some((call.account, call.mls))
    ensures NumberIn(params, "ciphersuite") == Some(call.ciphersuite)
    ensures NumberIn(params, "signature_scheme") == Some(call.scheme)
  {
    hide TwoKeys, Get, BytesIn;
    PairIsRead(call, params, "account_identity", "mls_signature_public_key");
    assert "ciphersuite" in Fields(call) && MemberArrives(call, params, "ciphersuite");
    assert "signature_scheme" in Fields(call) && MemberArrives(call, params, "signature_scheme");
  }

  lemma TwoKeyCalls(call: Call, params: Json)
    requires MembersArrive(call, params)
    requires call.GetPublicKeys? || call.SignEvent? || call.MlsHpkeDh? || call.MlsHpkeDecap?
    ensures PhoneReads(CallName(call), params) == Some(call)
  {
    hide TwoKeys, KeyIn, BytesIn, Get, MembersArrive, Fields;
    if call.SignEvent? {
      SignEventPair(call, params);
    } else if !call.GetPublicKeys? {
      HpkePair(call, params);
    }
  }

  lemma TextCalls(call: Call, params: Json)
    requires MembersArrive(call, params) && (call.Nip44Encrypt? || call.Nip44Decrypt?)
    ensures PhoneReads(CallName(call), params) == Some(call)
  {
    hide TwoKeys, KeyIn, BytesIn, Get, MembersArrive, Fields;
    PeerPair(call, params);
  }

  lemma ProofCalls(call: Call, params: Json)
    requires MembersArrive(call, params) && call.SignAccountIdentityProof?
    ensures PhoneReads(CallName(call), params) == Some(call)
  {
    hide TwoKeys, NumberIn, KeyIn, BytesIn, Get, MembersArrive, Fields;
    ProofMembers(call, params);
  }

  lemma MlsPubkeyCalls(call: Call, params: Json)
    requires MembersArrive(call, params) && call.GetMlsPubkey?
    ensures PhoneReads(CallName(call), params) == Some(call)
  {
    hide TwoKeys, BytesIn, Get, Base64Encode;
    assert "nostr_pubkey" in Fields(call) && MemberArrives(call, params, "nostr_pubkey");
  }

  lemma MlsSignCalls(call: Call, params: Json)
    requires MembersArrive(call, params) && call.MlsSign?
    ensures PhoneReads(CallName(call), params) == Some(call)
  {
    hide TwoKeys, BytesIn, Get, Base64Encode;
    assert "mls_pubkey" in Fields(call) && MemberArrives(call, params, "mls_pubkey");
    assert "data" in Fields(call) && MemberArrives(call, params, "data");
  }

  lemma HpkeIndexCalls(call: Call, params: Json)
    requires MembersArrive(call, params) && call.MlsHpkePubkeyAt?
    ensures PhoneReads(CallName(call), params) == Some(call)
  {
    hide TwoKeys, BytesIn, Get, Base64Encode;
    assert "mls_pubkey" in Fields(call) && MemberArrives(call, params, "mls_pubkey");
    assert "key_type" in Fields(call) && MemberArrives(call, params, "key_type");
    assert "index" in Fields(call) && MemberArrives(call, params, "index");
  }

  lemma InitKeyCalls(call: Call, params: Json)
    requires MembersArrive(call, params) && call.MlsNextHpkeInitKey?
    ensures PhoneReads(CallName(call), params) == Some(call)
  {
    hide TwoKeys, BytesIn, Get, Base64Encode;
    assert "mls_pubkey" in Fields(call) && MemberArrives(call, params, "mls_pubkey");
    assert "current_hpke_pubkey" in Fields(call) && MemberArrives(call, params, "current_hpke_pubkey");
  }

  /** The phone reads exactly the call the client made. */
  lemma CallsArrive(call: Call)
    ensures PhoneReads(CallName(call), TranslateRequest(CallName(call), ClientParams(call))) == Some(call)
  {
    hide PhoneReads, TranslateRequest, ClientParams, CallName, MembersArrive;
    var params := TranslateRequest(CallName(call), ClientParams(call));
    AllMembersArrive(call);
    match call {
      case Nip44Encrypt(_, _, _) => TextCalls(call, params);
      case Nip44Decrypt(_, _, _) => TextCalls(call, params);
      case SignAccountIdentityProof(_, _, _, _) => ProofCalls(call, params);
      case GetMlsPubkey(_) => MlsPubkeyCalls(call, params);
      case MlsSign(_, _) => MlsSignCalls(call, params);
      case MlsHpkePubkeyAt(_, _, _) => HpkeIndexCalls(call, params);
      case MlsNextHpkeInitKey(_, _) => InitKeyCalls(call, params);
      case _ => TwoKeyCalls(call, params);
    }
  }

  // ---- Results ----

  datatype Outcome =
    | Keys(keys: seq<Key>)
    | Value(bytes: seq<Byte>)
    | Text(text: string)
    | InitKey(bytes: seq<Byte>, index: nat)

  /** What the phone may answer to the call: byte strings of the size the client expects. */
  predicate Fits(call: Call, o: Outcome) {
    match call
    case GetPublicKeys => o.Keys?
    case Nip44Encrypt(_, _, _) => o.Text?
    case Nip44Decrypt(_, _, _) => o.Text?
    case MlsNextHpkeInitKey(_, _) => o.InitKey? && |o.bytes| == 32 && o.index < 0x1_0000_0000
    case _ => o.Value? && |o.bytes| == ValueSize(call)
  }

  function ValueSize(call: Call): nat {
    if call.SignEvent? || call.MlsSign? || call.SignAccountIdentityProof? then 64 else 32
  }

  function ValueField(call: Call): string {
    match call
    case GetMlsPubkey(_) => "mls_pubkey"
    case MlsHpkePubkeyAt(_, _, _) => "hpke_pubkey"
    case MlsHpkeDh(_, _) => "dh_result"
    case MlsHpkeDecap(_, _) => "dh_result"
    case _ => "signature"
  }

  /** The member in which the phone returns the bytes of a method's result. */
  function PhoneField(name: string): string {
    if name == "get_mls_pubkey" then "mls_pubkey"
    else if name == "mls_hpke_pubkey_at" then "hpke_pubkey"
    else if name == "mls_hpke_dh" || name == "mls_hpke_decap" then "dh_result"
    else "signature"
  }

  /** The phone's result for an outcome: byte strings in Base64. */
  function PhoneResult(call: Call, o: Outcome): Json {
    match o
    case Keys(keys) =>
      Arr(seq(|keys|, i requires 0 <= i < |keys| => Obj(map["public_key" := Str(Base64Encode(keys[i]))])))
    case Value(bytes) => Obj(map[PhoneField(CallName(call)) := Str(Base64Encode(bytes))])
    case Text(text) => Obj(map[(if call.Nip44Encrypt? then "ciphertext" else "plaintext") := Str(text)])
    case InitKey(bytes, index) => Obj(map["hpke_pubkey" := Str(Base64Encode(bytes)), "index" := Int(index)])
  }

  /** hex_to_32 and hex_to_64 of a string field. */
  function ReadBytes(v: Json, field: string, size: nat): Option<seq<Byte>> {
    match GetStr(v, field)
    case None => None
    case Some(text) =>
      match HexDecode(text)
      case Some(bytes) => if |bytes| == size then Some(bytes) else None
      case None => None
  }

  function ReadKeys(items: seq<Json>): Option<seq<Key>> {
    if items == [] then Some([])
    else
      match (ReadBytes(items[0], "public_key", 32), ReadKeys(items[1..]))
      case (Some(key), Some(rest)) => if |key| == 32 then Some([key] + rest) else None
      case _ => None
  }

  /** What the typed method returns for the result it is given; nothing for an error. */
  function ReadResult(call: Call, v: Json): Option<Outcome> {
    match call
    case GetPublicKeys =>
      if v.Arr? then (match ReadKeys(v.items) case Some(keys) => Some(Keys(keys)) case None => None) else None
    case Nip44Encrypt(_, _, _) => (match GetStr(v, "ciphertext") case Some(s) => Some(Text(s)) case None => None)
    case Nip44Decrypt(_, _, _) => (match GetStr(v, "plaintext") case Some(s) => Some(Text(s)) case None => None)
    case MlsNextHpkeInitKey(_, _) => (
      match (ReadBytes(v, "hpke_pubkey", 32), Get(v, "index"))
      case (Some(bytes), Some(Int(n))) =>
        if 0 <= n < 0x1_0000_0000_0000_0000 then Some(InitKey(bytes, n % 0x1_0000_0000)) else None
      case _ => None)
    case _ =>
      match ReadBytes(v, ValueField(call), ValueSize(call))
      case Some(bytes) => Some(Value(bytes))
      case None => None
  }

  lemma {:induction false} KeysArrive(keys: seq<Key>, items: seq<Json>)
    requires |items| == |keys|
    requires forall i :: 0 <= i < |keys| ==> GetStr(items[i], "public_key") == Some(HexEncode(keys[i]))
    ensures ReadKeys(items) == Some(keys)
  {
    hide HexEncode, HexDecode;
    if keys != [] {
      HexRoundTrip(keys[0]);
      KeysArrive(keys[1..], items[1..]);
      assert [keys[0]] + keys[1..] == keys;
    }
  }

  lemma SameField(call: Call)
    requires !call.GetPublicKeys? && !call.Nip44Encrypt? && !call.Nip44Decrypt? && !call.MlsNextHpkeInitKey?
    ensures PhoneField(CallName(call)) == ValueField(call)
  {
  }

  lemma ValueArrives(call: Call, bytes: seq<Byte>)
    requires !call.GetPublicKeys? && !call.Nip44Encrypt? && !call.Nip44Decrypt? && !call.MlsNextHpkeInitKey?
    ensures GetStr(TranslateResult(CallName(call), PhoneResult(call, Value(bytes))), ValueField(call))
      == Some(HexEncode(bytes))
  {
    hide HexEncode, Base64Encode, Base64ToHex;
    HexFieldArrives(bytes);
    SameField(call);
    assert ValueField(call) in ResultByteFields(CallName(call));
  }

  lemma KeysOfResult(call: Call, keys: seq<Key>)
    requires call.GetPublicKeys? && Fits(call, Keys(keys))
    ensures ReadResult(call, TranslateResult(CallName(call), PhoneResult(call, Keys(keys)))) == Some(Keys(keys))
  {
    hide HexEncode, Base64Encode, Base64ToHex, HexDecode;
    var v := TranslateResult(CallName(call), PhoneResult(call, Keys(keys)));
    forall i | 0 <= i < |keys|
      ensures GetStr(v.items[i], "public_key") == Some(HexEncode(keys[i]))
    {
      HexFieldArrives(keys[i]);
    }
    KeysArrive(keys, v.items);
  }

  lemma ValueOfResult(call: Call, bytes: seq<Byte>)
    requires !call.GetPublicKeys? && !call.Nip44Encrypt? && !call.Nip44Decrypt? && !call.MlsNextHpkeInitKey?
    requires |bytes| == ValueSize(call)
    ensures ReadResult(call, TranslateResult(CallName(call), PhoneResult(call, Value(bytes)))) == Some(Value(bytes))
  {
    hide HexEncode, HexDecode, TranslateResult, PhoneResult, CallName, ValueField;
    ValueArrives(call, bytes);
    HexRoundTrip(bytes);
  }

  lemma InitKeyOfResult(call: Call, bytes: seq<Byte>, index: nat)
    requires call.MlsNextHpkeInitKey? && Fits(call, InitKey(bytes, index))
    ensures ReadResult(call, TranslateResult(CallName(call), PhoneResult(call, InitKey(bytes, index))))
      == Some(InitKey(bytes, index))
  {
    hide HexEncode, Base64Encode, Base64ToHex, HexDecode;
    HexFieldArrives(bytes);
    HexRoundTrip(bytes);
  }

  lemma TextOfResult(call: Call, text: string)
    requires call.Nip44Encrypt? || call.Nip44Decrypt?
    ensures ReadResult(call, TranslateResult(CallName(call), PhoneResult(call, Text(text)))) == Some(Text(text))
  {
    hide HexEncode, Base64Encode, Base64ToHex, HexDecode;
  }

  /** Every byte result the phone returns in Base64 is read by the client as the same
      bytes; texts and indices arrive unchanged. */
  lemma ResultBytesArrive(call: Call, o: Outcome)
    requires Fits(call, o)
    ensures ReadResult(call, TranslateResult(CallName(call), PhoneResult(call, o))) == Some(o)
  {
    hide ReadResult, TranslateResult, PhoneResult, CallName;
    match call {
      case GetPublicKeys => KeysOfResult(call, o.keys);
      case Nip44Encrypt(_, _, _) => TextOfResult(call, o.text);
      case Nip44Decrypt(_, _, _) => TextOfResult(call, o.text);
      case MlsNextHpkeInitKey(_, _) => InitKeyOfResult(call, o.bytes, o.index);
      case _ => ValueOfResult(call, o.bytes);
    }
  }
}
