/** The agent side of km-ssh-sa (crates/km-ssh-sa/src/ssh_agent.rs): strings of section 5
    of RFC 4251 inside the messages of the SSH agent protocol. */
module SshAgent {
  import opened Common

  const REQUEST_IDENTITIES := 11
  const IDENTITIES_ANSWER := 12
  const SIGN_REQUEST := 13
  const SIGN_RESPONSE := 14
  const FAILURE := 5

  const MAX_MESSAGE := 256 * 1024
  const TWO_32 := 0x1_0000_0000

  // ---- Numbers and strings ----

  /** `(n as u32).to_be_bytes()`: the cast keeps the low 32 bits. */
  function U32(n: nat): (r: seq<Byte>)
    ensures |r| == 4
  {
    [n / 256 / 256 / 256 % 256, n / 256 / 256 % 256, n / 256 % 256, n % 256]
  }

  function FromU32(s: seq<Byte>): (n: nat)
    requires |s| == 4
    ensures n < TWO_32
  {
    Four(s[0], s[1], s[2], s[3])
  }

  function Four(a: int, b: int, c: int, d: int): int {
    ((a * 256 + b) * 256 + c) * 256 + d
  }

  lemma ByteDigit(n: int, q: int, r: int)
    requires n == q * 256 + r && 0 <= r < 256
    ensures n % 256 == r && n / 256 == q
  {
  }

  lemma LowBits(n: int, q: int, r: int)
    requires n == q * TWO_32 + r && 0 <= r < TWO_32
    ensures n % TWO_32 == r
  {
  }

  lemma U32ReadsBack(n: nat)
    ensures FromU32(U32(n)) == n % TWO_32
  {
    var q1, q2, q3, q4 := n / 256, n / 256 / 256, n / 256 / 256 / 256, n / 256 / 256 / 256 / 256;
    LowBits(n, q4, Four(q3 % 256, q2 % 256, q1 % 256, n % 256));
  }

  /** Big-endian: the first octet counts most. */
  lemma U32IsBigEndian(n: nat)
    requires n < TWO_32
    ensures var r := U32(n);
            r[0] as int * 0x100_0000 + r[1] as int * 0x1_0000 + r[2] as int * 0x100 + r[3] as int == n
  {
  }

  lemma U32Injective(s: seq<Byte>)
    requires |s| == 4
    ensures U32(FromU32(s)) == s
  {
    var n := FromU32(s);
    var ab: int := s[0] as int * 256 + s[1];
    ByteDigit(n, ab * 256 + s[2], s[3]);
    ByteDigit(ab * 256 + s[2], ab, s[2]);
    ByteDigit(ab, s[0], s[1]);
  }

  function SshString(s: seq<Byte>): seq<Byte> {
    U32(|s|) + s
  }

  /** read_string: the string at an offset and the offset after it. */
  function StringAt(buf: seq<Byte>, offset: nat): (r: Option<(seq<Byte>, nat)>)
    ensures r.Some? ==> r.value.1 == offset + 4 + |r.value.0| <= |buf|
  {
    if offset + 4 > |buf| then None
    else
      var len := FromU32(buf[offset..offset + 4]);
      if offset + 4 + len > |buf| then None
      else Some((buf[offset + 4..offset + 4 + len], offset + 4 + len))
  }

  /** On failure the offset may already be past the length field. */
  method ReadString(buf: seq<Byte>, offset: nat) returns (data: Option<seq<Byte>>, next: nat)
    ensures data.Some? ==> StringAt(buf, offset) == Some((data.value, next))
    ensures data.None? ==> StringAt(buf, offset) == None && next <= offset + 4
  {
    next := offset;
    if next + 4 > |buf| {
      return None, next;
    }
    var len := FromU32([buf[next], buf[next + 1], buf[next + 2], buf[next + 3]]);
    assert [buf[next], buf[next + 1], buf[next + 2], buf[next + 3]] == buf[offset..offset + 4];
    next := next + 4;
    if next + len > |buf| {
      return None, next;
    }
    data := Some(buf[next..next + len]);
    next := next + len;
  }

  /** Reading yields a string exactly when its encoding stands at the offset, and then the
      new offset is where the encoding ends. */
  lemma StringAtIff(buf: seq<Byte>, offset: nat, d: seq<Byte>, next: nat)
    ensures StringAt(buf, offset) == Some((d, next)) <==>
      |d| < TWO_32 && next == offset + 4 + |d| && next <= |buf| && buf[offset..next] == SshString(d)
  {
    hide U32, FromU32;
    if offset + 4 <= |buf| {
      var head := buf[offset..offset + 4];
      U32Injective(head);
      U32ReadsBack(|d|);
      if next == offset + 4 + |d| && next <= |buf| {
        assert buf[offset..next] == head + buf[offset + 4..next];
        if buf[offset..next] == SshString(d) {
          assert head == buf[offset..next][..4] == U32(|d|);
          assert d == SshString(d)[4..] == buf[offset + 4..next];
        }
      }
    }
  }

  /** A string encoded anywhere in a buffer is read from there. */
  lemma StringReads(before: seq<Byte>, d: seq<Byte>, after: seq<Byte>)
    requires |d| < TWO_32
    ensures StringAt(before + SshString(d) + after, |before|) == Some((d, |before| + 4 + |d|))
  {
    var buf, end := before + SshString(d) + after, |before| + 4 + |d|;
    assert buf[|before|..end] == SshString(d);
    StringAtIff(buf, |before|, d, end);
  }

  // ---- Sign requests ----

  datatype SignRequest = SignRequest(keyBlob: seq<Byte>, data: seq<Byte>, flags: nat)

  /** Flags missing or cut short are zero. */
  function FlagsOf(tail: seq<Byte>): nat {
    if |tail| >= 4 then FromU32(tail[..4]) else 0
  }

  function SignRequestIn(body: seq<Byte>): Option<SignRequest> {
    match StringAt(body, 0)
    case None => None
    case Some((keyBlob, afterKey)) =>
      match StringAt(body, afterKey)
      case None => None
      case Some((data, afterData)) =>
        if afterData <= |body| then Some(SignRequest(keyBlob, data, FlagsOf(body[afterData..]))) else None
  }

  method ParseSignRequest(body: seq<Byte>) returns (request: Option<SignRequest>)
    ensures request == SignRequestIn(body)
  {
    var offset := 0;
    var keyBlob, data;
    keyBlob, offset := ReadString(body, offset);
    if keyBlob.None? {
      return None;
    }
    data, offset := ReadString(body, offset);
    if data.None? {
      return None;
    }
    var flags := 0;
    if offset + 4 <= |body| {
      assert body[offset..][..4] == [body[offset], body[offset + 1], body[offset + 2], body[offset + 3]];
      flags := FromU32([body[offset], body[offset + 1], body[offset + 2], body[offset + 3]]);
    }
    return Some(SignRequest(keyBlob.value, data.value, flags));
  }

  /** Parsing undoes the encoding, and accepts nothing else: the body starts with the two
      strings, and what follows gives the flags. */
  lemma SignRequestIff(body: seq<Byte>, r: SignRequest)
    ensures SignRequestIn(body) == Some(r) <==>
      && |r.keyBlob| < TWO_32 && |r.data| < TWO_32
      && SshString(r.keyBlob) + SshString(r.data) <= body
      && r.flags == FlagsOf(body[8 + |r.keyBlob| + |r.data|..])
  {
    hide SshString, FlagsOf, StringAt;
    SshStringLength(r.keyBlob);
    SshStringLength(r.data);
    var mid, end := 4 + |r.keyBlob|, 8 + |r.keyBlob| + |r.data|;
    StringAtIff(body, 0, r.keyBlob, mid);
    StringAtIff(body, mid, r.data, end);
    if end <= |body| {
      assert body[..end] == body[0..mid] + body[mid..end];
    }
    if SignRequestIn(body) == Some(r) {
      var first := StringAt(body, 0).value;
      StringAtIff(body, 0, first.0, first.1);
      var second := StringAt(body, first.1).value;
      StringAtIff(body, first.1, second.0, second.1);
    }
  }

  lemma SshStringLength(s: seq<Byte>)
    ensures |SshString(s)| == 4 + |s|
  {
  }

  // ---- Identities answers ----

  datatype Key = Key(keyBlob: seq<Byte>, comment: seq<Byte>)

  function EncodeKeys(keys: seq<Key>): seq<Byte> {
    if keys == [] then []
    else SshString(keys[0].keyBlob) + SshString(keys[0].comment) + EncodeKeys(keys[1..])
  }

  function IdentitiesAnswer(keys: seq<Key>): seq<Byte> {
    [IDENTITIES_ANSWER] + U32(|keys|) + EncodeKeys(keys)
  }

  lemma {:induction false} EncodeKeysSnoc(keys: seq<Key>, last: Key)
    ensures EncodeKeys(keys + [last]) == EncodeKeys(keys) + SshString(last.keyBlob) + SshString(last.comment)
  {
    hide SshString;
    if keys == [] {
      assert [last][1..] == [];
    } else {
      EncodeKeysSnoc(keys[1..], last);
      assert (keys + [last])[1..] == keys[1..] + [last];
    }
  }

  lemma NoKeys()
    ensures EncodeKeys([]) == []
  {
  }

  method BuildIdentitiesAnswer(keys: seq<Key>) returns (buf: seq<Byte>)
    ensures buf == IdentitiesAnswer(keys)
  {
    hide U32, EncodeKeys;
    buf := [IDENTITIES_ANSWER];
    buf := buf + U32(|keys|);
    assert EncodeKeys(keys[..0]) == [] by { NoKeys(); }
    for i := 0 to |keys|
      invariant buf == [IDENTITIES_ANSWER] + U32(|keys|) + EncodeKeys(keys[..i])
    {
      EncodeKeysSnoc(keys[..i], keys[i]);
      assert keys[..i + 1] == keys[..i] + [keys[i]];
      buf := buf + U32(|keys[i].keyBlob|);
      buf := buf + keys[i].keyBlob;
      buf := buf + U32(|keys[i].comment|);
      buf := buf + keys[i].comment;
    }
    assert keys[..|keys|] == keys;
  }

  /** A client's reading of `count` keys from an offset to the very end. */
  function KeysAt(buf: seq<Byte>, offset: nat, count: nat): Option<seq<Key>>
    decreases count
  {
    if count == 0 then if offset == |buf| then Some([]) else None
    else
      match StringAt(buf, offset)
      case None => None
      case Some((keyBlob, afterKey)) =>
        match StringAt(buf, afterKey)
        case None => None
        case Some((comment, afterComment)) =>
          match KeysAt(buf, afterComment, count - 1)
          case None => None
          case Some(rest) => Some([Key(keyBlob, comment)] + rest)
  }

  function ReadIdentitiesAnswer(buf: seq<Byte>): Option<seq<Key>> {
    if |buf| < 5 || buf[0] != 12 then None else KeysAt(buf, 5, FromU32(buf[1..5]))
  }

  ghost predicate KeysFit(keys: seq<Key>) {
    forall i :: 0 <= i < |keys| ==> |keys[i].keyBlob| < TWO_32 && |keys[i].comment| < TWO_32
  }

  lemma OneKeyReads(before: seq<Byte>, k: Key, rest: seq<Byte>)
    requires |k.keyBlob| < TWO_32 && |k.comment| < TWO_32
    ensures var buf := before + (SshString(k.keyBlob) + SshString(k.comment) + rest);
            var mid, next := |before| + 4 + |k.keyBlob|, |before| + 8 + |k.keyBlob| + |k.comment|;
            && StringAt(buf, |before|) == Some((k.keyBlob, mid)) && StringAt(buf, mid) == Some((k.comment, next))
            && buf == before + SshString(k.keyBlob) + SshString(k.comment) + rest
            && |before + SshString(k.keyBlob) + SshString(k.comment)| == next
  {
    hide SshString, StringAt;
    var buf := before + (SshString(k.keyBlob) + SshString(k.comment) + rest);
    var mid := before + SshString(k.keyBlob);
    SshStringLength(k.keyBlob);
    SshStringLength(k.comment);
    StringReads(before, k.keyBlob, SshString(k.comment) + rest);
    assert buf == before + SshString(k.keyBlob) + (SshString(k.comment) + rest);
    StringReads(mid, k.comment, rest);
    assert buf == mid + SshString(k.comment) + rest;
  }

  lemma {:induction false} KeysRead(before: seq<Byte>, keys: seq<Key>)
    requires KeysFit(keys)
    ensures KeysAt(before + EncodeKeys(keys), |before|, |keys|) == Some(keys)
    decreases |keys|
  {
    hide SshString, StringAt;
    if keys != [] {
      var k := keys[0];
      OneKeyReads(before, k, EncodeKeys(keys[1..]));
      KeysRead(before + SshString(k.keyBlob) + SshString(k.comment), keys[1..]);
      assert keys == [k] + keys[1..];
    }
  }

  lemma {:induction false} KeysAtFit(buf: seq<Byte>, offset: nat, count: nat)
    ensures var r := KeysAt(buf, offset, count); r.Some? ==> |r.value| == count && KeysFit(r.value)
    decreases count
  {
    if count > 0 && KeysAt(buf, offset, count).Some? {
      KeysAtFit(buf, StringAt(buf, StringAt(buf, offset).value.1).value.1, count - 1);
    }
  }

  /** A client recovers every key and comment, in order and with nothing left over, exactly
      when the count and every length fit 32 bits. */
  lemma IdentitiesAnswerReadsBack(keys: seq<Key>)
    ensures ReadIdentitiesAnswer(IdentitiesAnswer(keys)) == Some(keys) <==> |keys| < TWO_32 && KeysFit(keys)
  {
    hide KeysAt, EncodeKeys, U32, FromU32;
    var buf := IdentitiesAnswer(keys);
    assert buf[1..5] == U32(|keys|);
    U32ReadsBack(|keys|);
    KeysAtFit(buf, 5, FromU32(buf[1..5]));
    if |keys| < TWO_32 && KeysFit(keys) {
      KeysRead([IDENTITIES_ANSWER] + U32(|keys|), keys);
    }
  }

  // ---- Sign responses ----

  function SignResponse(signature: seq<Byte>, keyType: seq<Byte>): seq<Byte> {
    [SIGN_RESPONSE] + SshString(SshString(keyType) + SshString(signature))
  }

  method BuildSignResponse(signature: seq<Byte>, keyType: seq<Byte>) returns (buf: seq<Byte>)
    ensures buf == SignResponse(signature, keyType)
  {
    var blob := U32(|keyType|);
    blob := blob + keyType;
    blob := blob + U32(|signature|);
    blob := blob + signature;
    assert blob == SshString(keyType) + SshString(signature);
    buf := [SIGN_RESPONSE];
    buf := buf + U32(|blob|);
    buf := buf + blob;
  }

  /** A client's reading: one string, holding two and nothing else. */
  function ReadSignResponse(buf: seq<Byte>): Option<(seq<Byte>, seq<Byte>)> {
    if buf == [] || buf[0] != 14 then None
    else
      match StringAt(buf, 1)
      case None => None
      case Some((blob, end)) =>
        if end != |buf| then None
        else
          match StringAt(blob, 0)
          case None => None
          case Some((keyType, mid)) =>
            match StringAt(blob, mid)
            case None => None
            case Some((signature, last)) => if last == |blob| then Some((keyType, signature)) else None
  }

  /** Algorithm and signature come back exactly when the inner blob's length fits. */
  lemma SignResponseReadsBack(signature: seq<Byte>, keyType: seq<Byte>)
    ensures ReadSignResponse(SignResponse(signature, keyType)) == Some((keyType, signature)) <==>
      8 + |keyType| + |signature| < TWO_32
  {
    hide SshString, StringAt;
    var blob := SshString(keyType) + SshString(signature);
    var buf := SignResponse(signature, keyType);
    SshStringLength(keyType);
    SshStringLength(signature);
    SshStringLength(blob);
    if 8 + |keyType| + |signature| < TWO_32 {
      StringReads([SIGN_RESPONSE], blob, []);
      assert [SIGN_RESPONSE] + SshString(blob) + [] == buf;
      StringReads([], keyType, SshString(signature));
      assert [] + SshString(keyType) + SshString(signature) == blob;
      StringReads(SshString(keyType), signature, []);
      assert SshString(keyType) + SshString(signature) + [] == blob;
    } else if ReadSignResponse(buf) == Some((keyType, signature)) {
      var outer := StringAt(buf, 1).value;
      StringAtIff(buf, 1, outer.0, outer.1);
    }
  }

  // ---- One connection ----

  datatype AgentRequest = RequestIdentities | Sign(request: SignRequest)

  datatype SignReply = SignReply(signature: Option<seq<Byte>>, keyType: seq<Byte>)

  /** What the bridge replies to the n-th message, None when its channel is closed, the
      reply is dropped or 30 seconds pass; and how many octets of the n-th response the peer
      takes before a write fails. */
  datatype Bridge = Bridge(identities: nat -> Option<seq<Key>>, sign: nat -> Option<SignReply>, room: nat -> nat)

  /** What a message asks of the bridge. */
  function RequestOf(payload: seq<Byte>): Option<AgentRequest>
    requires payload != []
  {
    if payload[0] == REQUEST_IDENTITIES then Some(RequestIdentities)
    else if payload[0] != SIGN_REQUEST then None
    else match SignRequestIn(payload[1..]) case Some(r) => Some(Sign(r)) case None => None
  }

  function Response(payload: seq<Byte>, n: nat, bridge: Bridge): seq<Byte>
    requires payload != []
  {
    match RequestOf(payload)
    case None => [FAILURE]
    case Some(RequestIdentities) => (
      match bridge.identities(n) case Some(keys) => IdentitiesAnswer(keys) case None => [FAILURE])
    case Some(Sign(_)) =>
      match bridge.sign(n)
      case Some(SignReply(Some(signature), keyType)) => SignResponse(signature, keyType)
      case _ => [FAILURE]
  }

  /** The body of a sign request for r, with anything behind that gives its flags. */
  predicate IsSignBody(body: seq<Byte>, r: SignRequest) {
    && |r.keyBlob| < TWO_32 && |r.data| < TWO_32
    && SshString(r.keyBlob) + SshString(r.data) <= body
    && r.flags == (var tail := body[8 + |r.keyBlob| + |r.data|..]; if |tail| >= 4 then FromU32(tail[..4]) else 0)
  }

  /** What a client can read from the response to a message: the bridge's keys, the bridge's
      signature with its algorithm, or a failure when the bridge has none or the message is
      no such request. And what the bridge is asked for it. */
  lemma ResponsesSay(payload: seq<Byte>, n: nat, bridge: Bridge, r: SignRequest)
    requires payload != []
    ensures payload[0] == 11 ==>
      && Asked(payload) == [RequestIdentities]
      && match bridge.identities(n)
         case Some(keys) =>
           ReadIdentitiesAnswer(Response(payload, n, bridge)) == Some(keys) <==> |keys| < TWO_32 && KeysFit(keys)
         case None => Response(payload, n, bridge) == [5]
    ensures payload[0] == 13 && IsSignBody(payload[1..], r) ==>
      && Asked(payload) == [Sign(r)]
      && match bridge.sign(n)
         case Some(SignReply(Some(signature), keyType)) =>
           ReadSignResponse(Response(payload, n, bridge)) == Some((keyType, signature))
           <==> 8 + |keyType| + |signature| < TWO_32
         case _ => Response(payload, n, bridge) == [5]
    ensures payload[0] == 13 && (forall q :: !IsSignBody(payload[1..], q)) ==>
      Asked(payload) == [] && Response(payload, n, bridge) == [5]
    ensures payload[0] != 11 && payload[0] != 13 ==>
      Asked(payload) == [] && Response(payload, n, bridge) == [5]
  {
    hide SignRequestIn, ReadIdentitiesAnswer, ReadSignResponse, IdentitiesAnswer, SignResponse, SshString, KeysFit;
    SignBodyIff(payload[1..], r);
    if payload[0] == SIGN_REQUEST && SignRequestIn(payload[1..]).Some? {
      SignBodyIff(payload[1..], SignRequestIn(payload[1..]).value);
    }
    match bridge.identities(n) {
      case Some(keys) => IdentitiesAnswerReadsBack(keys);
      case None =>
    }
    match bridge.sign(n) {
      case Some(SignReply(Some(signature), keyType)) => SignResponseReadsBack(signature, keyType);
      case _ =>
    }
  }

  lemma SignBodyIff(body: seq<Byte>, r: SignRequest)
    ensures SignRequestIn(body) == Some(r) <==> IsSignBody(body, r)
  {
    hide SignRequestIn, FromU32;
    SignRequestIff(body, r);
  }

  type Payload = p: seq<Byte> | 0 < |p| <= MAX_MESSAGE witness [0]

  /** A whole frame of acceptable length: an SSH string of 1 to 256 KiB. */
  function FrameAt(input: seq<Byte>, offset: nat): Option<(Payload, nat)> {
    match StringAt(input, offset)
    case Some((payload, next)) => if 0 < |payload| <= MAX_MESSAGE then Some((payload, next)) else None
    case None => None
  }

  /** The messages read before the connection closes. */
  function FramesFrom(input: seq<Byte>, offset: nat): seq<Payload>
    requires offset <= |input|
    decreases |input| - offset
  {
    match FrameAt(input, offset)
    case None => []
    case Some((payload, next)) => [payload] + FramesFrom(input, next)
  }

  /** The responses to messages, the first being message number `n`. */
  function ResponsesFrom(frames: seq<Payload>, n: nat, bridge: Bridge): (r: seq<seq<Byte>>)
    ensures |r| == |frames|
  {
    if frames == [] then [] else [Response(frames[0], n, bridge)] + ResponsesFrom(frames[1..], n + 1, bridge)
  }

  function Asked(payload: seq<Byte>): seq<AgentRequest>
    requires payload != []
  {
    match RequestOf(payload) case Some(r) => [r] case None => []
  }

  /** Messages on the wire, each behind its length. */
  function Encode(messages: seq<seq<Byte>>): seq<Byte> {
    if messages == [] then [] else SshString(messages[0]) + Encode(messages[1..])
  }

  /** The n-th response does not get through whole; the connection ends. */
  predicate WriteFails(payload: seq<Byte>, n: nat, bridge: Bridge)
    requires payload != []
  {
    bridge.room(n) < |SshString(Response(payload, n, bridge))|
  }

  /** Everything written for these frames, the first being message number `n`. */
  function OutputFrom(frames: seq<Payload>, n: nat, bridge: Bridge): seq<Byte> {
    if frames == [] then []
    else
      var frame := SshString(Response(frames[0], n, bridge));
      if WriteFails(frames[0], n, bridge) then frame[..bridge.room(n)]
      else frame + OutputFrom(frames[1..], n + 1, bridge)
  }

  /** Everything asked of the bridge for them. */
  function RequestsFrom(frames: seq<Payload>, n: nat, bridge: Bridge): seq<AgentRequest> {
    if frames == [] then []
    else if WriteFails(frames[0], n, bridge) then Asked(frames[0])
    else Asked(frames[0]) + RequestsFrom(frames[1..], n + 1, bridge)
  }

  lemma FrameStep(input: seq<Byte>, offset: nat, n: nat, bridge: Bridge)
    requires offset <= |input| && FrameAt(input, offset).Some?
    ensures var (payload, next) := FrameAt(input, offset).value;
            var frame := SshString(Response(payload, n, bridge));
            && OutputFrom(FramesFrom(input, offset), n, bridge)
               == (if bridge.room(n) < |frame| then frame[..bridge.room(n)]
                   else frame + OutputFrom(FramesFrom(input, next), n + 1, bridge))
            && RequestsFrom(FramesFrom(input, offset), n, bridge)
               == (if bridge.room(n) < |frame| then Asked(payload)
                   else Asked(payload) + RequestsFrom(FramesFrom(input, next), n + 1, bridge))
  {
    hide SshString, StringAt, Response, Asked;
  }

  /** The loop over one connection: what it writes, and what it asks of the bridge. */
  method HandleConnection(input: seq<Byte>, bridge: Bridge) returns (output: seq<Byte>, requests: seq<AgentRequest>)
    ensures output == OutputFrom(FramesFrom(input, 0), 0, bridge)
    ensures requests == RequestsFrom(FramesFrom(input, 0), 0, bridge)
  {
    hide SshString, StringAt, Response, Asked, OutputFrom, RequestsFrom;
    output, requests := [], [];
    var offset, n := 0, 0;
    while true
      invariant offset <= |input|
      invariant OutputFrom(FramesFrom(input, 0), 0, bridge) == output + OutputFrom(FramesFrom(input, offset), n, bridge)
      invariant RequestsFrom(FramesFrom(input, 0), 0, bridge)
                == requests + RequestsFrom(FramesFrom(input, offset), n, bridge)
      decreases |input| - offset
    {
      var payload, next := ReadString(input, offset);
      if payload.None? || |payload.value| == 0 || |payload.value| > MAX_MESSAGE {
        break;
      }
      FrameStep(input, offset, n, bridge);
      var request, response := Handle(payload.value, n, bridge);
      requests := requests + request;
      var frame := SshString(response);
      if bridge.room(n) < |frame| {
        output := output + frame[..bridge.room(n)];
        return;
      }
      output := output + frame;
      offset, n := next, n + 1;
    }
    NoMore(n, bridge);
  }

  lemma NoMore(n: nat, bridge: Bridge)
    ensures OutputFrom([], n, bridge) == [] && RequestsFrom([], n, bridge) == []
  {
  }

  method Handle(payload: seq<Byte>, n: nat, bridge: Bridge) returns (asked: seq<AgentRequest>, response: seq<Byte>)
    requires payload != []
    ensures response == Response(payload, n, bridge)
    ensures asked == Asked(payload)
  {
    asked, response := [], [FAILURE];
    if payload[0] == REQUEST_IDENTITIES {
      asked := [RequestIdentities];
      match bridge.identities(n) {
        case Some(keys) => response := BuildIdentitiesAnswer(keys);
        case None =>
      }
    } else if payload[0] == SIGN_REQUEST {
      var request := ParseSignRequest(payload[1..]);
      if request.Some? {
        asked := [Sign(request.value)];
        match bridge.sign(n) {
          case Some(SignReply(Some(signature), keyType)) => response := BuildSignResponse(signature, keyType);
          case _ =>
        }
      }
    }
  }

  lemma ShiftedFrame(before: seq<Byte>, tail: seq<Byte>)
    ensures FrameAt(before + tail, |before|).None? <==> FrameAt(tail, 0).None?
  {
    hide FromU32;
    var input, n := before + tail, |before|;
    if |tail| >= 4 {
      assert input[n..n + 4] == tail[0..4];
      var len := FromU32(tail[0..4]);
      if 4 + len <= |tail| {
        assert input[n + 4..n + 4 + len] == tail[4..4 + len];
      }
    }
  }

  /** Well-formed messages are all read, whatever follows them, up to the first frame that
      is cut short, empty or longer than 256 KiB. */
  lemma {:induction false} FramesOfEncoding(before: seq<Byte>, messages: seq<Payload>, tail: seq<Byte>)
    requires FrameAt(tail, 0) == None
    ensures var input := before + Encode(messages) + tail; FramesFrom(input, |before|) == messages
    decreases |messages|
  {
    hide SshString, StringAt;
    var input := before + Encode(messages) + tail;
    if messages == [] {
      assert input == before + tail;
      ShiftedFrame(before, tail);
    } else {
      var rest := Encode(messages[1..]) + tail;
      StringReads(before, messages[0], rest);
      assert input == before + SshString(messages[0]) + rest;
      SshStringLength(messages[0]);
      FramesOfEncoding(before + SshString(messages[0]), messages[1..], tail);
      assert input == before + SshString(messages[0]) + Encode(messages[1..]) + tail;
      assert messages == [messages[0]] + messages[1..];
    }
  }

  /** A client's reading of the whole messages the agent wrote. */
  function MessagesFrom(output: seq<Byte>, offset: nat): seq<seq<Byte>>
    requires offset <= |output|
    decreases |output| - offset
  {
    match StringAt(output, offset)
    case None => []
    case Some((message, next)) => [message] + MessagesFrom(output, next)
  }

  /** How many responses get through before a write fails. */
  function Delivered(frames: seq<Payload>, n: nat, bridge: Bridge): (m: nat)
    ensures m <= |frames|
  {
    if frames == [] || WriteFails(frames[0], n, bridge) then 0 else 1 + Delivered(frames[1..], n + 1, bridge)
  }

  lemma CutFrameIsNoMessage(before: seq<Byte>, message: seq<Byte>, room: nat)
    requires |message| < TWO_32 && room < |SshString(message)|
    ensures StringAt(before + SshString(message)[..room], |before|) == None
  {
    hide U32, FromU32;
    var cut := SshString(message)[..room];
    var output := before + cut;
    if room >= 4 {
      assert output[|before|..|before| + 4] == U32(|message|);
      U32ReadsBack(|message|);
    }
  }

  lemma {:induction false} DeliveredAreRead(before: seq<Byte>, frames: seq<Payload>, n: nat, bridge: Bridge)
    requires forall i :: 0 <= i < |frames| ==> |Response(frames[i], n + i, bridge)| < TWO_32
    ensures MessagesFrom(before + OutputFrom(frames, n, bridge), |before|)
            == ResponsesFrom(frames, n, bridge)[..Delivered(frames, n, bridge)]
    decreases |frames|
  {
    hide SshString, StringAt, Response;
    if frames == [] {
      assert before + [] == before;
      assert StringAt(before, |before|) == None by { NothingAtTheEnd(before); }
    } else {
      var response := Response(frames[0], n, bridge);
      if WriteFails(frames[0], n, bridge) {
        CutFrameIsNoMessage(before, response, bridge.room(n));
      } else {
        var rest := OutputFrom(frames[1..], n + 1, bridge);
        StringReads(before, response, rest);
        SshStringLength(response);
        assert before + OutputFrom(frames, n, bridge) == before + SshString(response) + rest;
        forall i | 0 <= i < |frames[1..]|
          ensures |Response(frames[1..][i], n + 1 + i, bridge)| < TWO_32
        {
          assert frames[1..][i] == frames[i + 1] && n + 1 + i == n + (i + 1);
        }
        DeliveredAreRead(before + SshString(response), frames[1..], n + 1, bridge);
        var m := Delivered(frames[1..], n + 1, bridge);
        assert ResponsesFrom(frames, n, bridge)[..m + 1] == [response] + ResponsesFrom(frames[1..], n + 1, bridge)[..m];
      }
    }
  }

  lemma NothingAtTheEnd(s: seq<Byte>)
    ensures StringAt(s, |s|) == None
  {
  }

  lemma {:induction false} DeliveredAll(frames: seq<Payload>, n: nat, bridge: Bridge)
    ensures Delivered(frames, n, bridge) == |frames| <==>
      forall i :: 0 <= i < |frames| ==> !WriteFails(frames[i], n + i, bridge)
  {
    hide WriteFails;
    if frames != [] {
      DeliveredAll(frames[1..], n + 1, bridge);
      if Delivered(frames, n, bridge) == |frames| {
        forall i | 0 < i < |frames|
          ensures !WriteFails(frames[i], n + i, bridge)
        {
          assert frames[i] == frames[1..][i - 1] && n + i == n + 1 + (i - 1);
        }
      } else if !WriteFails(frames[0], n, bridge) {
        var i :| 0 <= i < |frames[1..]| && WriteFails(frames[1..][i], n + 1 + i, bridge);
        assert WriteFails(frames[i + 1], n + (i + 1), bridge);
      }
    }
  }

  /** A client that sends well-formed messages reads back one response per message, in
      order, up to the first write that fails: all of them exactly when none does. No
      response may exceed the 32-bit length field. */
  lemma EveryMessageIsAnsweredInOrder(messages: seq<Payload>, bridge: Bridge)
    requires forall i :: 0 <= i < |messages| ==> |Response(messages[i], i, bridge)| < TWO_32
    ensures FramesFrom(Encode(messages), 0) == messages
    ensures MessagesFrom(OutputFrom(messages, 0, bridge), 0)
            == ResponsesFrom(messages, 0, bridge)[..Delivered(messages, 0, bridge)]
    ensures Delivered(messages, 0, bridge) == |messages| <==>
      forall i :: 0 <= i < |messages| ==> !WriteFails(messages[i], i, bridge)
  {
    hide SshString, Response, FramesFrom, MessagesFrom, Encode, OutputFrom, WriteFails;
    FramesOfEncoding([], messages, []);
    assert [] + Encode(messages) + [] == Encode(messages);
    DeliveredAreRead([], messages, 0, bridge);
    assert [] + OutputFrom(messages, 0, bridge) == OutputFrom(messages, 0, bridge);
    DeliveredAll(messages, 0, bridge);
  }
}
