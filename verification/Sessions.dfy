/** Sessions of the daemon: SessionManager (crates/avatar/src/session.rs) and the attach
    and detach handlers (crates/avatar/src/main.rs). The event loop handles one event at a
    time, so a run is a sequence of handled events.

    Key derivation is a pair of functions that may fail; a shutdown channel is a number,
    and `signalled` holds the ones that carry `true`. `listeners` and `origin` are history:
    the listener tasks ever started, with identity and session, and what a session was
    created from. */
module Sessions {
  import opened Common
  import opened JsonValues
  import Encodings
  import L = LocalApi

  type EventId = nat
  type PubKey = nat
  type Xpub = nat
  type Key = nat
  type Signal = nat

  datatype Service = Service(kind: string, seqNo: nat)

  datatype Derivation = Derivation(
    avatarKeys: (string, nat) -> Option<Key>,
    phonePubkey: (Xpub, string, nat) -> Option<PubKey>)

  datatype Channel = Channel(serviceType: string, avatarKeys: Key, phoneServicePubkey: PubKey, realmPubkey: PubKey)

  datatype RootSession = RootSession(
    id: EventId,
    keymaster: PubKey,
    services: seq<string>,
    identity: string,
    realmXpub: Option<Xpub>,
    channels: map<string, Channel>,
    shutdown: Option<Signal>,
    apiShutdown: Option<Signal>)

  datatype Config = Config(derivation: Derivation, allowlist: set<string>, users: set<string>)

  /** What the connector checks come to: go on, answer with an error, or give up unanswered. */
  datatype Verdict = Pass | Refuse | Fail

  /** An attach event as its handler reads it. */
  datatype Request = Request(
    event: EventId,
    sender: PubKey,
    services: seq<Service>,
    identity: string,
    realmXpub: Option<Xpub>,
    verdict: Verdict)

  datatype Reply = Accepted(services: seq<Service>) | Refused | DetachOk | NoReply

  /** What a session was created from: the services asked for, and whether the listener's
      socket could be bound. */
  datatype Origin = Origin(services: seq<Service>, bindOk: bool)

  datatype State = State(
    sessions: map<EventId, RootSession>,
    signalled: set<Signal>,
    listeners: map<Signal, (string, EventId)>,
    nextSignal: Signal,
    origin: map<EventId, Origin>)

  const Start := State(map[], {}, map[], 0, map[])

  // ---- Reading an attach message ----

  datatype SignatureCheck = ValidSignature | BadSignature | BadKey

  /** `canonical` is the canonical text of a connector, `verify` Schnorr verification of a
      signature over the hash of a text by a key, which may be no point of the curve. */
  datatype Checks = Checks(
    loginXpub: string,
    canonical: Json -> string,
    verify: (seq<Byte>, string, seq<Byte>) -> SignatureCheck,
    parseXpub: string -> Option<Xpub>)

  function AttachParams(message: Json): Json {
    if message.Arr? then (if message.items == [] then Obj(map[]) else message.items[0])
    else if message.Obj? then message
    else Obj(map[])
  }

  /** `as_u64`, then `as u32`. */
  function SeqNoOf(item: Json): nat {
    match Get(item, "seq")
    case Some(Int(n)) => if 0 <= n < 0x1_0000_0000_0000_0000 then n % 0x1_0000_0000 else 0
    case _ => 0
  }

  function ServiceOf(item: Json): Option<Service> {
    match GetStr(item, "type")
    case Some(kind) => Some(Service(kind, SeqNoOf(item)))
    case None => if item.Str? then Some(Service(item.s, 0)) else None
  }

  function ServicesIn(items: seq<Json>): seq<Service> {
    if items == [] then []
    else (match ServiceOf(items[0]) case Some(svc) => [svc] case None => []) + ServicesIn(items[1..])
  }

  function ServicesOf(params: Json): seq<Service> {
    match Get(params, "services")
    case Some(Arr(items)) => ServicesIn(items)
    case _ => []
  }

  function ConnectorStr(params: Json, field: string): Option<string> {
    match Get(params, "connector") case Some(c) => GetStr(c, field) case None => None
  }

  function IdentityOf(params: Json): string {
    match ConnectorStr(params, "identity_npub")
    case Some(npub) => npub
    case None => match GetStr(params, "identity") case Some(identity) => identity case None => "default"
  }

  function RealmXpubOf(checks: Checks, params: Json): Option<Xpub> {
    match ConnectorStr(params, "realm_xpub") case Some(text) => checks.parseXpub(text) case None => None
  }

  function SignatureVerdict(checks: Checks, connector: Json, text: string): Verdict {
    match (Encodings.HexDecode(text), Encodings.HexDecode(L.OrEmpty(GetStr(connector, "identity_npub"))))
    case (Some(signature), Some(key)) =>
      if |signature| != 64 || |key| != 32 then Refuse
      else (
        match checks.verify(signature, checks.canonical(connector), key)
        case BadKey => Fail
        case BadSignature => Refuse
        case ValidSignature => Pass)
    case _ => Refuse
  }

  function VerdictOf(checks: Checks, params: Json): Verdict {
    match Get(params, "connector")
    case None => Pass
    case Some(connector) =>
      var xpub := GetStr(connector, "login_xpub");
      if xpub.Some? && xpub.value != checks.loginXpub then Refuse
      else
        match GetStr(params, "connector_sig")
        case None => Pass
        case Some(text) => SignatureVerdict(checks, connector, text)
  }

  function RequestOf(checks: Checks, event: EventId, sender: PubKey, message: Json): Request {
    var params := AttachParams(message);
    Request(event, sender, ServicesOf(params), IdentityOf(params), RealmXpubOf(checks, params),
      VerdictOf(checks, params))
  }

  /** The identity is a 32-byte key in hex, and the signature verifies under it over the
      canonical text of the connector. */
  ghost predicate SignedBy(checks: Checks, connector: Json, text: string, identity: string) {
    exists signature, key ::
      && Encodings.HexDecode(text) == Some(signature) && |signature| == 64
      && Encodings.HexDecode(identity) == Some(key) && |key| == 32
      && checks.verify(signature, checks.canonical(connector), key) == ValidSignature
  }

  /** Whoever comes with a connector and a signature gets past the checks exactly when the
      connector does not name another daemon and the identity it is attached under signed
      it; a message without signature, or without connector, is not checked at all. */
  lemma IdentitiesAreSignedFor(checks: Checks, event: EventId, sender: PubKey, message: Json)
    ensures var params := AttachParams(message); var req := RequestOf(checks, event, sender, message);
            match (Get(params, "connector"), GetStr(params, "connector_sig"))
            case (Some(connector), Some(text)) =>
              (req.verdict == Pass <==>
                && (GetStr(connector, "login_xpub").Some? ==> GetStr(connector, "login_xpub").value == checks.loginXpub)
                && GetStr(connector, "identity_npub") == Some(req.identity)
                && SignedBy(checks, connector, text, req.identity))
            case (Some(connector), None) =>
              (req.verdict == Pass <==>
                GetStr(connector, "login_xpub").None? || GetStr(connector, "login_xpub").value == checks.loginXpub)
            case (None, _) => req.verdict == Pass
  {
    assert Encodings.HexDecode("") == Some([]);
  }

  /** What a phone may list as a service, and anything else. */
  datatype Item = Full(kind: string, seqNo: int) | Bare(kind: string) | Flat(kind: string) | Junk(v: Json)

  function ItemJson(item: Item): Json {
    match item
    case Full(kind, n) => Obj(map["type" := Str(kind), "seq" := Int(n)])
    case Bare(kind) => Obj(map["type" := Str(kind)])
    case Flat(kind) => Str(kind)
    case Junk(v) => v
  }

  ghost predicate Sensible(item: Item) {
    item.Junk? ==> !item.v.Str? && GetStr(item.v, "type").None?
  }

  /** The services meant: seq numbers of 64 bits are cut to 32, others are zero. */
  function Meant(items: seq<Item>): seq<Service> {
    if items == [] then []
    else
      (match items[0]
       case Full(kind, n) => [Service(kind, if 0 <= n < 0x1_0000_0000_0000_0000 then n % 0x1_0000_0000 else 0)]
       case Bare(kind) => [Service(kind, 0)]
       case Flat(kind) => [Service(kind, 0)]
       case Junk(_) => [])
      + Meant(items[1..])
  }

  function ItemsJson(items: seq<Item>): seq<Json> {
    if items == [] then [] else [ItemJson(items[0])] + ItemsJson(items[1..])
  }

  lemma {:induction false} ItemsAreRead(items: seq<Item>)
    requires forall i :: 0 <= i < |items| ==> Sensible(items[i])
    ensures ServicesIn(ItemsJson(items)) == Meant(items)
  {
    if items != [] {
      ItemsAreRead(items[1..]);
      assert Sensible(items[0]);
      assert ItemsJson(items)[1..] == ItemsJson(items[1..]);
      ItemIsRead(items[0]);
    }
  }

  lemma ItemIsRead(item: Item)
    requires Sensible(item)
    ensures ServiceOf(ItemJson(item)) ==
      match item
      case Full(kind, n) => Some(Service(kind, if 0 <= n < 0x1_0000_0000_0000_0000 then n % 0x1_0000_0000 else 0))
      case Bare(kind) => Some(Service(kind, 0))
      case Flat(kind) => Some(Service(kind, 0))
      case Junk(_) => None
  {
    KindIsNoSeq();
  }

  lemma KindIsNoSeq()
    ensures "type" != "seq"
  {
  }

  function AttachMessage(items: seq<Item>, identity: string, realm: string): Json {
    Obj(map["services" := Arr(ItemsJson(items)),
            "connector" := Obj(map["identity_npub" := Str(identity), "realm_xpub" := Str(realm)])])
  }

  lemma MessageMembers(items: seq<Item>, identity: string, realm: string)
    ensures var m := AttachMessage(items, identity, realm);
            && m.Obj? && Get(m, "services") == Some(Arr(ItemsJson(items))) && Get(m, "connector_sig").None?
            && Get(m, "connector").Some?
            && var c := Get(m, "connector").value;
               GetStr(c, "identity_npub") == Some(identity) && GetStr(c, "realm_xpub") == Some(realm)
               && GetStr(c, "login_xpub").None?
  {
    hide ItemsJson;
    NamesDiffer();
  }

  /** What a phone writes into an attach message is what its handler reads, whether the
      parameters come as an object or as the first element of a list. */
  lemma AttachMessageIsRead(checks: Checks, event: EventId, sender: PubKey, items: seq<Item>, identity: string,
                            realm: string, more: seq<Json>)
    requires forall i :: 0 <= i < |items| ==> Sensible(items[i])
    ensures RequestOf(checks, event, sender, AttachMessage(items, identity, realm))
            == Request(event, sender, Meant(items), identity, checks.parseXpub(realm), Pass)
    ensures RequestOf(checks, event, sender, Arr([AttachMessage(items, identity, realm)] + more))
            == RequestOf(checks, event, sender, AttachMessage(items, identity, realm))
  {
    hide ServicesIn, ItemsJson, Meant, AttachMessage, Get, Encodings.HexDecode;
    ItemsAreRead(items);
    MessageMembers(items, identity, realm);
    assert ([AttachMessage(items, identity, realm)] + more)[0] == AttachMessage(items, identity, realm);
    NoSignature(AttachMessage(items, identity, realm), "connector_sig");
  }

  lemma NoSignature(m: Json, field: string)
    ensures Get(m, field).None? ==> GetStr(m, field).None?
  {
  }

  lemma NamesDiffer()
    ensures "services" != "connector" && "connector_sig" != "services" && "connector_sig" != "connector"
    ensures "identity_npub" != "realm_xpub" && "login_xpub" != "identity_npub" && "login_xpub" != "realm_xpub"
  {
    assert "services"[0] == 's' && "connector"[0] == 'c' && |"connector_sig"| == 13 && |"connector"| == 9;
    assert "identity_npub"[0] == 'i' && "realm_xpub"[0] == 'r' && "login_xpub"[0] == 'l';
  }

  // ---- Channels of a service list ----

  function DeriveOne(d: Derivation, sender: PubKey, xpub: Option<Xpub>, svc: Service): Option<Channel> {
    match d.avatarKeys(svc.kind, svc.seqNo)
    case None => None
    case Some(keys) =>
      match xpub
      case None => Some(Channel(svc.kind, keys, sender, sender))
      case Some(x) =>
        match d.phonePubkey(x, svc.kind, svc.seqNo)
        case None => None
        case Some(pk) => Some(Channel(svc.kind, keys, pk, sender))
  }

  /** The channels registered for a service list, and whether derivation reached its end. */
  function Channels(d: Derivation, sender: PubKey, xpub: Option<Xpub>, services: seq<Service>,
                    done: map<string, Channel>)
    : (map<string, Channel>, bool)
  {
    if services == [] then (done, true)
    else
      match DeriveOne(d, sender, xpub, services[0])
      case None => (done, false)
      case Some(ch) => Channels(d, sender, xpub, services[1..], done[services[0].kind := ch])
  }

  function Kinds(services: seq<Service>): seq<string> {
    seq(|services|, i requires 0 <= i < |services| => services[i].kind)
  }

  // ---- Handled events as functions ----

  function OptionSet(s: Option<Signal>): set<Signal> {
    match s case Some(x) => {x} case None => {}
  }

  function SignalsOf(s: RootSession): set<Signal> {
    OptionSet(s.shutdown) + OptionSet(s.apiShutdown)
  }

  /** Removing the sessions of a phone signals everything they hold. */
  function Evict(st: State, km: PubKey): State {
    State(map id | id in st.sessions && st.sessions[id].keymaster != km :: st.sessions[id],
          st.signalled + (set id, x | id in st.sessions && st.sessions[id].keymaster == km
            && x in SignalsOf(st.sessions[id]) :: x),
          st.listeners, st.nextSignal, st.origin)
  }

  predicate Admitted(cfg: Config, req: Request) {
    req.verdict == Pass && (cfg.allowlist == {} || req.identity in cfg.allowlist)
  }

  predicate IsReattach(st: State, req: Request) {
    exists id :: id in st.sessions && st.sessions[id].keymaster == req.sender
      && st.sessions[id].realmXpub == req.realmXpub
  }

  predicate Complete(cfg: Config, req: Request) {
    Channels(cfg.derivation, req.sender, req.realmXpub, req.services, map[]).1
  }

  /** The session the full attach path creates. */
  function NewSession(cfg: Config, req: Request, shutdown: Signal, api: Option<Signal>): RootSession {
    RootSession(req.event, req.sender, Kinds(req.services), req.identity, req.realmXpub,
                Channels(cfg.derivation, req.sender, req.realmXpub, req.services, map[]).0, Some(shutdown), api)
  }

  /** A listener is started once all channels are there, for a known user. */
  predicate Listens(cfg: Config, req: Request, bindOk: bool) {
    Starts(cfg, req.sender, req.realmXpub, req.identity, Origin(req.services, bindOk))
  }

  predicate Starts(cfg: Config, sender: PubKey, xpub: Option<Xpub>, identity: string, from: Origin) {
    Channels(cfg.derivation, sender, xpub, from.services, map[]).1 && identity in cfg.users && from.bindOk
  }

  /** The full attach path: evict, create, derive, listen. */
  function CreateSession(cfg: Config, st: State, req: Request, bindOk: bool): State {
    var evicted := Evict(st, req.sender);
    var shutdown := st.nextSignal;
    if Listens(cfg, req, bindOk) then
      State(evicted.sessions[req.event := NewSession(cfg, req, shutdown, Some(shutdown + 1))],
            evicted.signalled, st.listeners[shutdown + 1 := (req.identity, req.event)], shutdown + 2,
            st.origin[req.event := Origin(req.services, bindOk)])
    else
      State(evicted.sessions[req.event := NewSession(cfg, req, shutdown, None)],
            evicted.signalled, st.listeners, shutdown + 1,
            st.origin[req.event := Origin(req.services, bindOk)])
  }

  function Attach(cfg: Config, st: State, req: Request, bindOk: bool): (State, Reply) {
    if !Admitted(cfg, req) then (st, if req.verdict == Fail then NoReply else Refused)
    else if IsReattach(st, req) then (st, Accepted(req.services))
    else (CreateSession(cfg, st, req, bindOk), if Complete(cfg, req) then Accepted(req.services) else NoReply)
  }

  datatype Event = AttachEvent(req: Request, bindOk: bool) | DetachEvent(sender: PubKey)

  function Handle(cfg: Config, st: State, e: Event): State {
    match e
    case AttachEvent(req, bindOk) => Attach(cfg, st, req, bindOk).0
    case DetachEvent(sender) => Evict(st, sender)
  }

  function Run(cfg: Config, st: State, events: seq<Event>): State
    decreases |events|
  {
    if events == [] then st else Run(cfg, Handle(cfg, st, events[0]), events[1..])
  }

  // ---- The handlers as the daemon runs them ----

  function WithChannel(s: RootSession, channel: Channel): RootSession {
    s.(channels := s.channels[channel.serviceType := channel])
  }

  class SessionManager {
    var sessions: map<EventId, RootSession>
    var signalled: set<Signal>

    constructor ()
      ensures sessions == map[] && signalled == {}
    {
      sessions := map[];
      signalled := {};
    }

    method CreateRootSession(id: EventId, km: PubKey, services: seq<string>, identity: string,
                             xpub: Option<Xpub>, shutdown: Option<Signal>)
      modifies this
      ensures sessions == old(sessions)[id := RootSession(id, km, services, identity, xpub, map[], shutdown, None)]
      ensures signalled == old(signalled)
    {
      sessions := sessions[id := RootSession(id, km, services, identity, xpub, map[], shutdown, None)];
    }

    method SetApiSocketShutdown(id: EventId, shutdown: Signal)
      modifies this
      ensures signalled == old(signalled)
      ensures sessions == if id in old(sessions)
                          then old(sessions)[id := old(sessions)[id].(apiShutdown := Some(shutdown))]
                          else old(sessions)
    {
      if id in sessions {
        sessions := sessions[id := sessions[id].(apiShutdown := Some(shutdown))];
      }
    }

    method AddServiceChannel(id: EventId, channel: Channel)
      modifies this
      ensures signalled == old(signalled)
      ensures sessions == if id in old(sessions)
                          then old(sessions)[id := WithChannel(old(sessions)[id], channel)]
                          else old(sessions)
    {
      if id in sessions {
        var s := sessions[id];
        sessions := sessions[id := s.(channels := s.channels[channel.serviceType := channel])];
      }
    }

    /** Some session of the phone, in whatever order the map is walked. */
    method FindSessionByKmPubkey(km: PubKey) returns (found: Option<RootSession>)
      ensures found.Some? ==> exists id :: id in sessions && sessions[id] == found.value && found.value.keymaster == km
      ensures found.None? ==> forall id :: id in sessions ==> sessions[id].keymaster != km
    {
      var rest := sessions.Keys;
      while rest != {}
        invariant rest <= sessions.Keys
        invariant forall id :: id in sessions && id !in rest ==> sessions[id].keymaster != km
        decreases |rest|
      {
        var id :| id in rest;
        if sessions[id].keymaster == km {
          return Some(sessions[id]);
        }
        rest := rest - {id};
      }
      return None;
    }

    method RealmXpubMatches(km: PubKey, xpub: Option<Xpub>) returns (matches: Option<bool>)
      ensures matches.None? ==> forall id :: id in sessions ==> sessions[id].keymaster != km
      ensures matches.Some? ==> exists id :: id in sessions && sessions[id].keymaster == km
                                             && (matches.value <==> sessions[id].realmXpub == xpub)
    {
      var found := FindSessionByKmPubkey(km);
      match found {
        case Some(s) => matches := Some(s.realmXpub == xpub);
        case None => matches := None;
      }
    }

    method RemoveSession(id: EventId)
      modifies this
      ensures sessions == old(sessions) - {id}
      ensures signalled == old(signalled) + (if id in old(sessions) then SignalsOf(old(sessions)[id]) else {})
    {
      if id in sessions {
        var s := sessions[id];
        if s.shutdown.Some? {
          signalled := signalled + {s.shutdown.value};
        }
        if s.apiShutdown.Some? {
          signalled := signalled + {s.apiShutdown.value};
        }
      }
      sessions := sessions - {id};
    }

    /** Some channel of the service, in a session of the identity when one is given. */
    method FindServiceChannel(service: string, identity: Option<string>) returns (found: Option<Channel>)
      ensures found.Some? ==> ChannelFor(sessions, service, identity, found.value)
      ensures found.None? ==> forall ch :: !ChannelFor(sessions, service, identity, ch)
    {
      var rest := sessions.Keys;
      while rest != {}
        invariant rest <= sessions.Keys
        invariant forall id :: id in sessions && id !in rest ==> !Serves(sessions[id], service, identity)
        decreases |rest|
      {
        var id :| id in rest;
        var s := sessions[id];
        if identity.None? || s.identity == identity.value {
          if service in s.channels {
            return Some(s.channels[service]);
          }
        }
        rest := rest - {id};
      }
      return None;
    }
  }

  predicate Serves(s: RootSession, service: string, identity: Option<string>) {
    (identity.None? || s.identity == identity.value) && service in s.channels
  }

  ghost predicate ChannelFor(sessions: map<EventId, RootSession>, service: string, identity: Option<string>,
                             ch: Channel)
  {
    exists id :: id in sessions && Serves(sessions[id], service, identity) && sessions[id].channels[service] == ch
  }

  /** Each session is filed under its own id, and no two belong to the same phone. */
  ghost predicate Filed(sessions: map<EventId, RootSession>) {
    && (forall id :: id in sessions ==> sessions[id].id == id)
    && (forall a, b :: a in sessions && b in sessions && sessions[a].keymaster == sessions[b].keymaster ==> a == b)
  }

  class Daemon {
    const config: Config
    const checks: Checks
    const mgr: SessionManager
    var listeners: map<Signal, (string, EventId)>
    var nextSignal: Signal
    ghost var origin: map<EventId, Origin>

    constructor (config: Config, checks: Checks)
      ensures fresh(mgr) && this.config == config && this.checks == checks && Snapshot() == Start
    {
      this.config := config;
      this.checks := checks;
      mgr := new SessionManager();
      listeners := map[];
      nextSignal := 0;
      origin := map[];
    }

    ghost function Snapshot(): State
      reads this, mgr
    {
      State(mgr.sessions, mgr.signalled, listeners, nextSignal, origin)
    }

    /** remove_session on the phone's session, if it has one. */
    method EvictSession(km: PubKey)
      requires Filed(mgr.sessions)
      modifies mgr
      ensures Snapshot() == Evict(old(Snapshot()), km)
    {
      var found := mgr.FindSessionByKmPubkey(km);
      ghost var before := Snapshot();
      match found {
        case Some(s) =>
          mgr.RemoveSession(s.id);
          OneEvicted(before, km, s.id);
        case None =>
          NoneEvicted(before, km);
      }
    }

    /** Derives and registers the channels of a fresh session; false when derivation fails. */
    method RegisterChannels(req: Request) returns (ok: bool)
      requires req.event in mgr.sessions && mgr.sessions[req.event].channels == map[]
      modifies mgr
      ensures mgr.signalled == old(mgr.signalled)
      ensures var built := Channels(config.derivation, req.sender, req.realmXpub, req.services, map[]);
              && ok == built.1
              && mgr.sessions == old(mgr.sessions)[req.event := old(mgr.sessions)[req.event].(channels := built.0)]
    {
      var i := 0;
      ghost var base := mgr.sessions;
      assert base == base[req.event := base[req.event].(channels := map[])];
      while i < |req.services|
        invariant 0 <= i <= |req.services|
        invariant mgr.signalled == old(mgr.signalled)
        invariant req.event in mgr.sessions
        invariant mgr.sessions == base[req.event := base[req.event].(channels := mgr.sessions[req.event].channels)]
        invariant Channels(config.derivation, req.sender, req.realmXpub, req.services, map[])
                  == Channels(config.derivation, req.sender, req.realmXpub, req.services[i..],
                    mgr.sessions[req.event].channels)
      {
        var svc := req.services[i];
        var keys := config.derivation.avatarKeys(svc.kind, svc.seqNo);
        if keys.None? {
          return false;
        }
        var pubkey := req.sender;
        if req.realmXpub.Some? {
          var derived := config.derivation.phonePubkey(req.realmXpub.value, svc.kind, svc.seqNo);
          if derived.None? {
            return false;
          }
          pubkey := derived.value;
        }
        assert req.services[i..][1..] == req.services[i + 1..];
        mgr.AddServiceChannel(req.event, Channel(svc.kind, keys.value, pubkey, req.sender));
        i := i + 1;
      }
      return true;
    }

    /** Evicts what the phone has and creates its session with all channels; the listener
        comes last. */
    method OpenSession(req: Request, ghost bindOk: bool) returns (ok: bool, shutdown: Signal)
      requires Filed(mgr.sessions)
      modifies this, mgr
      ensures shutdown == old(nextSignal) && nextSignal == shutdown + 1 && listeners == old(listeners)
      ensures ok == Complete(config, req)
      ensures origin == old(origin)[req.event := Origin(req.services, bindOk)]
      ensures mgr.signalled == Evict(old(Snapshot()), req.sender).signalled
      ensures mgr.sessions
              == Evict(old(Snapshot()), req.sender).sessions[req.event := NewSession(config, req, shutdown, None)]
    {
      hide Channels, Filed;
      shutdown := nextSignal;
      nextSignal := nextSignal + 1;
      EvictSession(req.sender);
      ghost var evicted := mgr.sessions;
      mgr.CreateRootSession(req.event, req.sender, Kinds(req.services), req.identity, req.realmXpub, Some(shutdown));
      origin := origin[req.event := Origin(req.services, bindOk)];
      ok := RegisterChannels(req);
      assert mgr.sessions == evicted[req.event := NewSession(config, req, shutdown, None)];
    }

    /** handle_attach from the allowlist check on. */
    method AttachVerified(req: Request, bindOk: bool) returns (reply: Reply)
      requires Filed(mgr.sessions) && req.verdict == Pass
      modifies this, mgr
      ensures (Snapshot(), reply) == Attach(config, old(Snapshot()), req, bindOk)
    {
      hide Channels, Evict;
      if config.allowlist != {} && req.identity !in config.allowlist {
        return Refused;
      }
      var matches := mgr.RealmXpubMatches(req.sender, req.realmXpub);
      if matches == Some(true) {
        return Accepted(req.services);
      }
      ghost var evicted := Evict(Snapshot(), req.sender);
      assert !IsReattach(Snapshot(), req);
      var ok, shutdown := OpenSession(req, bindOk);
      if !ok {
        return NoReply;
      }
      if req.identity in config.users && bindOk {
        var api := nextSignal;
        nextSignal := nextSignal + 1;
        listeners := listeners[api := (req.identity, req.event)];
        mgr.SetApiSocketShutdown(req.event, api);
        assert mgr.sessions == evicted.sessions[req.event := NewSession(config, req, shutdown, Some(api))];
      }
      return Accepted(req.services);
    }

    /** The whole handler, from the message's parameters. */
    method HandleAttach(event: EventId, sender: PubKey, message: Json, bindOk: bool) returns (reply: Reply)
      requires Filed(mgr.sessions)
      modifies this, mgr
      ensures (Snapshot(), reply) == Attach(config, old(Snapshot()), RequestOf(checks, event, sender, message), bindOk)
    {
      hide Channels, CreateSession, IsReattach, Encodings.HexDecode;
      var params := AttachParams(message);
      var services, identity := ServicesOf(params), IdentityOf(params);
      match Get(params, "connector") {
        case None =>
        case Some(connector) =>
          var xpub := GetStr(connector, "login_xpub");
          if xpub.Some? && xpub.value != checks.loginXpub {
            return Refused;
          }
          match GetStr(params, "connector_sig") {
            case None =>
            case Some(text) =>
              var signature := Encodings.HexDecode(text);
              if signature.None? || |signature.value| != 64 {
                return Refused;
              }
              var key := Encodings.HexDecode(L.OrEmpty(GetStr(connector, "identity_npub")));
              if key.None? || |key.value| != 32 {
                return Refused;
              }
              var check := checks.verify(signature.value, checks.canonical(connector), key.value);
              if check == BadKey {
                return NoReply;
              }
              if check == BadSignature {
                return Refused;
              }
          }
      }
      reply := AttachVerified(Request(event, sender, services, identity, RealmXpubOf(checks, params), Pass), bindOk);
    }

    method HandleDetach(sender: PubKey) returns (reply: Reply)
      requires Filed(mgr.sessions)
      modifies mgr
      ensures Snapshot() == Handle(config, old(Snapshot()), DetachEvent(sender)) && reply == DetachOk
    {
      EvictSession(sender);
      return DetachOk;
    }
  }

  lemma OneEvicted(st: State, km: PubKey, id: EventId)
    requires Filed(st.sessions) && id in st.sessions && st.sessions[id].keymaster == km
    ensures Evict(st, km).sessions == st.sessions - {id}
    ensures Evict(st, km).signalled == st.signalled + SignalsOf(st.sessions[id])
  {
  }

  lemma NoneEvicted(st: State, km: PubKey)
    requires forall id :: id in st.sessions ==> st.sessions[id].keymaster != km
    ensures Evict(st, km) == st
  {
    assert Evict(st, km).sessions == st.sessions;
    assert Evict(st, km).signalled == st.signalled;
  }

  // ---- The invariant over every run ----

  /** Events are named by a hash over their author: an id determines its sender. */
  predicate Named(author: EventId -> PubKey, e: Event) {
    e.AttachEvent? ==> author(e.req.event) == e.req.sender
  }

  ghost predicate SessionOk(cfg: Config, author: EventId -> PubKey, st: State, id: EventId, s: RootSession) {
    && author(id) == s.keymaster
    && id in st.origin && s.services == Kinds(st.origin[id].services)
    && s.channels == Channels(cfg.derivation, s.keymaster, s.realmXpub, st.origin[id].services, map[]).0
    && (s.apiShutdown.Some? <==> Starts(cfg, s.keymaster, s.realmXpub, s.identity, st.origin[id]))
    && (s.shutdown.Some? ==> s.shutdown.value !in st.listeners && s.shutdown.value < st.nextSignal)
    && (s.apiShutdown.Some? ==>
          s.apiShutdown.value in st.listeners && s.apiShutdown.value !in st.signalled
          && st.listeners[s.apiShutdown.value] == (s.identity, id))
  }

  /** A listener that is not signalled is held by the session it was started for. */
  ghost predicate ListenerOk(st: State, l: Signal)
    requires l in st.listeners
  {
    && l < st.nextSignal
    && (l !in st.signalled ==>
          var (identity, owner) := st.listeners[l];
          owner in st.sessions && st.sessions[owner].apiShutdown == Some(l) && st.sessions[owner].identity == identity)
  }

  ghost predicate Inv(cfg: Config, author: EventId -> PubKey, st: State) {
    && Filed(st.sessions)
    && (forall id :: id in st.sessions ==> SessionOk(cfg, author, st, id, st.sessions[id]))
    && (forall l :: l in st.listeners ==> ListenerOk(st, l))
    && (forall x :: x in st.signalled ==> x < st.nextSignal)
  }

  lemma EvictKeepsInv(cfg: Config, author: EventId -> PubKey, st: State, km: PubKey)
    requires Inv(cfg, author, st)
    ensures Inv(cfg, author, Evict(st, km))
  {
    hide Channels, Starts;
    var t := Evict(st, km);
    forall id | id in t.sessions ensures SessionOk(cfg, author, t, id, t.sessions[id]) {
      assert SessionOk(cfg, author, st, id, st.sessions[id]);
      if t.sessions[id].apiShutdown.Some? {
        NotSignalledByEviction(cfg, author, st, km, id);
      }
    }
    forall l | l in t.listeners ensures ListenerOk(t, l) {
      assert ListenerOk(st, l);
      if l !in t.signalled {
        assert l in SignalsOf(st.sessions[st.listeners[l].1]);
      }
    }
    forall x | x in t.signalled ensures x < t.nextSignal {
      if x !in st.signalled {
        var id :| id in st.sessions && st.sessions[id].keymaster == km && x in SignalsOf(st.sessions[id]);
        assert SessionOk(cfg, author, st, id, st.sessions[id]);
        if st.sessions[id].apiShutdown == Some(x) { assert ListenerOk(st, x); }
      }
    }
  }

  /** Evicting one phone signals no other phone's listener. */
  lemma NotSignalledByEviction(cfg: Config, author: EventId -> PubKey, st: State, km: PubKey, id: EventId)
    requires Inv(cfg, author, st) && id in st.sessions && st.sessions[id].keymaster != km
    requires st.sessions[id].apiShutdown.Some?
    ensures st.sessions[id].apiShutdown.value !in Evict(st, km).signalled
  {
    hide Channels;
    var l := st.sessions[id].apiShutdown.value;
    assert SessionOk(cfg, author, st, id, st.sessions[id]);
    forall other | other in st.sessions && st.sessions[other].keymaster == km
      ensures l !in SignalsOf(st.sessions[other])
    {
      assert SessionOk(cfg, author, st, other, st.sessions[other]);
    }
  }

  lemma CreateKeepsInv(cfg: Config, author: EventId -> PubKey, st: State, req: Request, bindOk: bool)
    requires Inv(cfg, author, st) && author(req.event) == req.sender
    ensures Inv(cfg, author, CreateSession(cfg, st, req, bindOk))
  {
    hide Inv, NewSession, Starts, Evict;
    var mid := Evict(st, req.sender);
    EvictKeepsInv(cfg, author, st, req.sender);
    EvictedPhoneHasNone(st, req.sender);
    EvictFrame(st, req.sender);
    var api := if Listens(cfg, req, bindOk) then Some(st.nextSignal + 1) else None;
    InsertKeepsInv(cfg, author, mid, req, bindOk, api, CreateSession(cfg, st, req, bindOk));
  }

  /** Filing the new session of a phone that has none. */
  lemma InsertKeepsInv(cfg: Config, author: EventId -> PubKey, mid: State, req: Request, bindOk: bool,
                       api: Option<Signal>, t: State)
    requires api.Some? <==> Listens(cfg, req, bindOk)
    requires Inv(cfg, author, mid) && author(req.event) == req.sender
    requires forall id :: id in mid.sessions ==> mid.sessions[id].keymaster != req.sender
    requires api.Some? ==> api.value == mid.nextSignal + 1
    requires t.sessions == mid.sessions[req.event := NewSession(cfg, req, mid.nextSignal, api)]
    requires t.signalled == mid.signalled && t.origin == mid.origin[req.event := Origin(req.services, bindOk)]
    requires t.nextSignal == mid.nextSignal + if api.Some? then 2 else 1
    requires t.listeners == if api.Some? then mid.listeners[api.value := (req.identity, req.event)] else mid.listeners
    ensures Inv(cfg, author, t)
  {
    hide Channels, Kinds, Starts, NewSession, SessionOk, ListenerOk;
    MidFacts(cfg, author, mid, req.event, req.sender);
    InsertedOk(cfg, author, mid, req, bindOk, api, t);
    forall id | id in t.sessions ensures SessionOk(cfg, author, t, id, t.sessions[id]) {
      if id != req.event {
        hide Filed;
        OtherSessionOk(cfg, author, mid, req, api, t, id);
      }
    }
    hide Filed;
    forall l | l in t.listeners ensures ListenerOk(t, l) {
      if l in mid.listeners {
        OtherListenerOk(mid, req, t, l);
      }
    }
  }

  /** The event id is new, and so are the signals. */
  lemma MidFacts(cfg: Config, author: EventId -> PubKey, mid: State, event: EventId, sender: PubKey)
    requires Inv(cfg, author, mid) && author(event) == sender
    requires forall id :: id in mid.sessions ==> mid.sessions[id].keymaster != sender
    ensures event !in mid.sessions
    ensures forall l :: l in mid.listeners ==> l < mid.nextSignal
  {
    hide Channels, Starts, Filed;
    forall id | id in mid.sessions
      ensures SessionOk(cfg, author, mid, id, mid.sessions[id])
    {
    }
    forall l | l in mid.listeners
      ensures ListenerOk(mid, l)
    {
    }
  }

  lemma InsertedOk(cfg: Config, author: EventId -> PubKey, mid: State, req: Request, bindOk: bool,
                   api: Option<Signal>, t: State)
    requires (api.Some? <==> Listens(cfg, req, bindOk)) && (api.Some? ==> api.value == mid.nextSignal + 1)
    requires author(req.event) == req.sender && Filed(mid.sessions)
    requires forall id :: id in mid.sessions ==> mid.sessions[id].keymaster != req.sender
    requires forall l :: l in mid.listeners ==> l < mid.nextSignal
    requires forall x :: x in mid.signalled ==> x < mid.nextSignal
    requires t.sessions == mid.sessions[req.event := NewSession(cfg, req, mid.nextSignal, api)]
    requires t.signalled == mid.signalled && t.origin == mid.origin[req.event := Origin(req.services, bindOk)]
    requires t.nextSignal == mid.nextSignal + if api.Some? then 2 else 1
    requires t.listeners == if api.Some? then mid.listeners[api.value := (req.identity, req.event)] else mid.listeners
    ensures Filed(t.sessions) && SessionOk(cfg, author, t, req.event, t.sessions[req.event])
    ensures api.Some? ==> ListenerOk(t, api.value)
  {
    hide Channels, Kinds, Starts;
  }

  lemma OtherSessionOk(cfg: Config, author: EventId -> PubKey, mid: State, req: Request, api: Option<Signal>, t: State,
                       id: EventId)
    requires id in mid.sessions && id != req.event && SessionOk(cfg, author, mid, id, mid.sessions[id])
    requires id in t.sessions && t.sessions[id] == mid.sessions[id] && t.signalled == mid.signalled
    requires mid.nextSignal <= t.nextSignal && (api.Some? ==> api.value == mid.nextSignal + 1)
    requires forall l :: l in mid.listeners ==> l < mid.nextSignal
    requires t.listeners == if api.Some? then mid.listeners[api.value := (req.identity, req.event)] else mid.listeners
    requires id in mid.origin ==> id in t.origin && t.origin[id] == mid.origin[id]
    ensures SessionOk(cfg, author, t, id, t.sessions[id])
  {
    hide Channels, Kinds, Starts;
  }

  lemma OtherListenerOk(mid: State, req: Request, t: State, l: Signal)
    requires l in mid.listeners && ListenerOk(mid, l) && l in t.listeners && t.listeners[l] == mid.listeners[l]
    requires t.signalled == mid.signalled && mid.nextSignal <= t.nextSignal && req.event !in mid.sessions
    requires forall id :: id in mid.sessions ==> id in t.sessions && t.sessions[id] == mid.sessions[id]
    ensures ListenerOk(t, l)
  {
  }

  lemma EvictedPhoneHasNone(st: State, km: PubKey)
    ensures forall id :: id in Evict(st, km).sessions ==> Evict(st, km).sessions[id].keymaster != km
  {
  }

  lemma EvictFrame(st: State, km: PubKey)
    ensures Evict(st, km).listeners == st.listeners && Evict(st, km).nextSignal == st.nextSignal
    ensures Evict(st, km).origin == st.origin
  {
  }

  lemma HandleKeepsInv(cfg: Config, author: EventId -> PubKey, st: State, e: Event)
    requires Inv(cfg, author, st) && Named(author, e)
    ensures Inv(cfg, author, Handle(cfg, st, e))
  {
    hide Inv, Evict, CreateSession;
    match e
    case AttachEvent(req, bindOk) => CreateKeepsInv(cfg, author, st, req, bindOk);
    case DetachEvent(sender) => EvictKeepsInv(cfg, author, st, sender);
  }

  lemma StartInv(cfg: Config, author: EventId -> PubKey)
    ensures Inv(cfg, author, Start)
  {
  }

  lemma {:induction false} RunKeepsInv(cfg: Config, author: EventId -> PubKey, st: State, events: seq<Event>)
    requires Inv(cfg, author, st)
    requires forall i :: 0 <= i < |events| ==> Named(author, events[i])
    ensures Inv(cfg, author, Run(cfg, st, events))
    decreases |events|
  {
    hide Inv, Handle;
    if events != [] {
      HandleKeepsInv(cfg, author, st, events[0]);
      RunKeepsInv(cfg, author, Handle(cfg, st, events[0]), events[1..]);
    }
  }

  // ---- Theorems over every run ----

  ghost predicate ChannelsOf(sender: PubKey, channels: map<string, Channel>) {
    forall t :: t in channels ==> channels[t].serviceType == t && channels[t].realmPubkey == sender
  }

  lemma {:induction false} ChannelsFiled(d: Derivation, sender: PubKey, xpub: Option<Xpub>, services: seq<Service>,
                                        done: map<string, Channel>)
    requires ChannelsOf(sender, done)
    ensures ChannelsOf(sender, Channels(d, sender, xpub, services, done).0)
  {
    if services != [] && DeriveOne(d, sender, xpub, services[0]).Some? {
      var ch := DeriveOne(d, sender, xpub, services[0]).value;
      var next := done[services[0].kind := ch];
      ChannelsFiled(d, sender, xpub, services[1..], next);
      assert Channels(d, sender, xpub, services, done) == Channels(d, sender, xpub, services[1..], next);
    }
  }

  /** At most one session per phone, filed under its own event; every channel filed under
      its own service type with the realm key of its session's phone. */
  lemma SessionsAreFiled(cfg: Config, author: EventId -> PubKey, events: seq<Event>)
    requires forall i :: 0 <= i < |events| ==> Named(author, events[i])
    ensures var st := Run(cfg, Start, events);
            && Filed(st.sessions)
            && forall id :: id in st.sessions ==> ChannelsOf(st.sessions[id].keymaster, st.sessions[id].channels)
  {
    hide Filed, ChannelsOf;
    var st := Run(cfg, Start, events);
    StartInv(cfg, author);
    RunKeepsInv(cfg, author, Start, events);
    forall id | id in st.sessions ensures ChannelsOf(st.sessions[id].keymaster, st.sessions[id].channels) {
      var s := st.sessions[id];
      assert SessionOk(cfg, author, st, id, s);
      assert ChannelsOf(s.keymaster, map[]) by { NoChannels(s.keymaster); }
      ChannelsFiled(cfg.derivation, s.keymaster, s.realmXpub, st.origin[id].services, map[]);
    }
  }

  lemma NoChannels(sender: PubKey)
    ensures ChannelsOf(sender, map[])
  {
  }

  /** With an allowlist, only listed identities ever have a session; and an identity has
      one only after an attach under that identity that passed the connector checks. */
  lemma {:induction false} SessionsAreAdmitted(cfg: Config, st: State, events: seq<Event>)
    requires forall id :: id in st.sessions ==> cfg.allowlist == {} || st.sessions[id].identity in cfg.allowlist
    ensures var t := Run(cfg, st, events);
            && (forall id :: id in t.sessions ==> cfg.allowlist == {} || t.sessions[id].identity in cfg.allowlist)
            && (forall id :: id in t.sessions ==>
                  (id in st.sessions && st.sessions[id] == t.sessions[id])
                  || exists i :: 0 <= i < |events| && events[i].AttachEvent? && events[i].req.verdict == Pass
                                 && events[i].req.event == id && events[i].req.sender == t.sessions[id].keymaster
                                 && events[i].req.identity == t.sessions[id].identity
                                 && events[i].req.realmXpub == t.sessions[id].realmXpub)
    decreases |events|
  {
    hide Channels, Handle;
    if events != [] {
      var mid := Handle(cfg, st, events[0]);
      SessionsComeFrom(cfg, st, events[0]);
      SessionsAreAdmitted(cfg, mid, events[1..]);
      var t := Run(cfg, st, events);
      forall id | id in t.sessions && !(id in st.sessions && st.sessions[id] == t.sessions[id])
        ensures exists i :: 0 <= i < |events| && events[i].AttachEvent? && events[i].req.verdict == Pass
                            && events[i].req.event == id && events[i].req.sender == t.sessions[id].keymaster
                            && events[i].req.identity == t.sessions[id].identity
                            && events[i].req.realmXpub == t.sessions[id].realmXpub
      {
        if id in mid.sessions && mid.sessions[id] == t.sessions[id] {
          assert events[0].AttachEvent?;
        } else {
          var i :| 0 <= i < |events[1..]| && events[1..][i].AttachEvent? && events[1..][i].req.verdict == Pass
                   && events[1..][i].req.event == id && events[1..][i].req.sender == t.sessions[id].keymaster
                   && events[1..][i].req.identity == t.sessions[id].identity
                   && events[1..][i].req.realmXpub == t.sessions[id].realmXpub;
          assert events[i + 1] == events[1..][i];
        }
      }
    }
  }

  lemma SessionsComeFrom(cfg: Config, st: State, e: Event)
    ensures var t := Handle(cfg, st, e);
            forall id :: id in t.sessions ==>
              (id in st.sessions && st.sessions[id] == t.sessions[id])
              || (e.AttachEvent? && e.req.verdict == Pass && (cfg.allowlist == {} || e.req.identity in cfg.allowlist)
                  && e.req.event == id && e.req.sender == t.sessions[id].keymaster
                  && e.req.identity == t.sessions[id].identity && e.req.realmXpub == t.sessions[id].realmXpub)
  {
    hide Channels;
  }

  ghost predicate OwnsListener(st: State, id: EventId, l: Signal) {
    id in st.sessions && st.sessions[id].apiShutdown == Some(l)
  }

  /** A listener ever started is either signalled, or owned by exactly one live session,
      whose identity it serves; a signalled one is owned by none. */
  lemma NoOrphanListener(cfg: Config, author: EventId -> PubKey, events: seq<Event>, l: Signal)
    requires forall i :: 0 <= i < |events| ==> Named(author, events[i])
    requires l in Run(cfg, Start, events).listeners
    ensures var st := Run(cfg, Start, events);
            && (l in st.signalled ==> forall id :: !OwnsListener(st, id, l))
            && (l !in st.signalled ==>
                  exists id :: OwnsListener(st, id, l) && st.sessions[id].identity == st.listeners[l].0
                               && forall other :: OwnsListener(st, other, l) ==> other == id)
  {
    hide Channels, Filed;
    var st := Run(cfg, Start, events);
    StartInv(cfg, author);
    RunKeepsInv(cfg, author, Start, events);
    assert ListenerOk(st, l);
    forall id | OwnsListener(st, id, l) ensures l !in st.signalled && id == st.listeners[l].1 {
      assert SessionOk(cfg, author, st, id, st.sessions[id]);
    }
    if l !in st.signalled {
      assert OwnsListener(st, st.listeners[l].1, l);
    }
  }

  // ---- Re-attach ----

  /** An accepted attach with a changed realm_xpub is a detach followed by that attach. */
  lemma ChangedXpubIsDetachThenAttach(cfg: Config, st: State, req: Request, bindOk: bool)
    requires Admitted(cfg, req) && !IsReattach(st, req)
    ensures Attach(cfg, st, req, bindOk) == Attach(cfg, Handle(cfg, st, DetachEvent(req.sender)), req, bindOk)
  {
    hide Channels;
    var mid := Evict(st, req.sender);
    assert !IsReattach(mid, req);
    assert Evict(mid, req.sender).sessions == mid.sessions;
    assert Evict(mid, req.sender).signalled == mid.signalled;
  }

  /** Whatever an attach or detach does, it leaves every other phone's session as it is
      and signals none of their listeners. */
  lemma OtherPhonesUntouched(cfg: Config, author: EventId -> PubKey, st: State, e: Event, id: EventId)
    requires Inv(cfg, author, st) && Named(author, e) && id in st.sessions
    requires st.sessions[id].keymaster != (match e case AttachEvent(req, _) => req.sender case DetachEvent(s) => s)
    ensures var t := Handle(cfg, st, e);
            && id in t.sessions && t.sessions[id] == st.sessions[id]
            && (st.sessions[id].apiShutdown.Some? ==> st.sessions[id].apiShutdown.value !in t.signalled)
  {
    hide Channels, Filed;
    assert SessionOk(cfg, author, st, id, st.sessions[id]);
    var km := match e case AttachEvent(req, _) => req.sender case DetachEvent(s) => s;
    if st.sessions[id].apiShutdown.Some? {
      NotSignalledByEviction(cfg, author, st, km, id);
    }
  }

  /** A refused attach and a re-attach with the same realm_xpub change nothing. */
  lemma RefusedOrReattachChangesNothing(cfg: Config, st: State, req: Request, bindOk: bool)
    ensures Attach(cfg, st, req, bindOk).0 == st <==>
              !Admitted(cfg, req) || IsReattach(st, req)
  {
    var t := CreateSession(cfg, st, req, bindOk);
    assert t.nextSignal > st.nextSignal;
  }

  // ---- Which seq numbers a service list puts in force ----

  /** How many services are derived before the first failure. */
  function Derived(d: Derivation, sender: PubKey, xpub: Option<Xpub>, services: seq<Service>): (n: nat)
    ensures n <= |services|
  {
    if services == [] || DeriveOne(d, sender, xpub, services[0]).None? then 0
    else 1 + Derived(d, sender, xpub, services[1..])
  }

  /** For each service type among these services, the seq number of its last mention. */
  function LastSeqs(services: seq<Service>): map<string, nat> {
    if services == [] then map[]
    else LastSeqs(services[..|services| - 1])[services[|services| - 1].kind := services[|services| - 1].seqNo]
  }

  /** The seq number in force per type: the last one mentioned before derivation stops. */
  function InForce(d: Derivation, sender: PubKey, xpub: Option<Xpub>, services: seq<Service>): map<string, nat> {
    LastSeqs(services[..Derived(d, sender, xpub, services)])
  }

  lemma DerivedBound(d: Derivation, sender: PubKey, xpub: Option<Xpub>, services: seq<Service>)
    ensures Derived(d, sender, xpub, services) <= |services|
    ensures forall i :: 0 <= i < Derived(d, sender, xpub, services) ==> DeriveOne(d, sender, xpub, services[i]).Some?
    ensures Derived(d, sender, xpub, services) < |services| ==>
      DeriveOne(d, sender, xpub, services[Derived(d, sender, xpub, services)]).None?
  {
    if services != [] && DeriveOne(d, sender, xpub, services[0]).Some? {
      DerivedBound(d, sender, xpub, services[1..]);
    }
  }

  lemma {:induction false} LastSeqsIsLast(services: seq<Service>, t: string)
    ensures t in LastSeqs(services) <==> exists i :: 0 <= i < |services| && services[i].kind == t
    ensures t in LastSeqs(services) ==>
      exists i :: 0 <= i < |services| && services[i] == Service(t, LastSeqs(services)[t])
                  && forall j :: i < j < |services| ==> services[j].kind != t
  {
    if services != [] {
      var n := |services| - 1;
      var front := services[..n];
      LastSeqsIsLast(front, t);
      if services[n].kind == t {
        assert services[n] == Service(t, LastSeqs(services)[t]);
      } else if t in LastSeqs(front) {
        var i :| 0 <= i < n && front[i] == Service(t, LastSeqs(front)[t])
                 && forall j :: i < j < n ==> front[j].kind != t;
        assert services[i] == Service(t, LastSeqs(services)[t]);
        assert forall j :: i < j < |services| ==> services[j].kind != t;
      }
    }
  }

  ghost predicate BuiltFrom(d: Derivation, sender: PubKey, xpub: Option<Xpub>, table: map<string, nat>,
                            channels: map<string, Channel>)
  {
    && channels.Keys == table.Keys
    && forall t :: t in table ==> DeriveOne(d, sender, xpub, Service(t, table[t])) == Some(channels[t])
  }

  lemma OneMoreChannel(d: Derivation, sender: PubKey, xpub: Option<Xpub>, prefix: seq<Service>, svc: Service,
                       done: map<string, Channel>)
    requires BuiltFrom(d, sender, xpub, LastSeqs(prefix), done) && DeriveOne(d, sender, xpub, svc).Some?
    ensures BuiltFrom(d, sender, xpub, LastSeqs(prefix + [svc]),
      done[svc.kind := DeriveOne(d, sender, xpub, svc).value])
  {
    hide DeriveOne;
    assert (prefix + [svc])[..|prefix|] == prefix;
  }

  /** Registering from the front, one by one, on top of an already registered prefix. */
  lemma {:induction false} ChannelsFromTable(d: Derivation, sender: PubKey, xpub: Option<Xpub>,
                                             prefix: seq<Service>, rest: seq<Service>, done: map<string, Channel>)
    requires BuiltFrom(d, sender, xpub, LastSeqs(prefix), done)
    ensures var n := Derived(d, sender, xpub, rest);
            n <= |rest| && BuiltFrom(d, sender, xpub, LastSeqs(prefix + rest[..n]),
              Channels(d, sender, xpub, rest, done).0)
    ensures Channels(d, sender, xpub, rest, done).1 <==> Derived(d, sender, xpub, rest) == |rest|
    decreases |rest|
  {
    hide BuiltFrom, LastSeqs, DeriveOne;
    if rest == [] || DeriveOne(d, sender, xpub, rest[0]).None? {
      assert prefix + rest[..0] == prefix;
    } else {
      var more := prefix + [rest[0]];
      var next := done[rest[0].kind := DeriveOne(d, sender, xpub, rest[0]).value];
      OneMoreChannel(d, sender, xpub, prefix, rest[0], done);
      ChannelsFromTable(d, sender, xpub, more, rest[1..], next);
      var n := Derived(d, sender, xpub, rest[1..]);
      assert rest[..n + 1] == [rest[0]] + rest[1..][..n];
      assert more + rest[1..][..n] == prefix + rest[..n + 1];
    }
  }

  /** The channel map holds, for each type, the channel of the seq number in force. */
  lemma ChannelsAreInForce(d: Derivation, sender: PubKey, xpub: Option<Xpub>, services: seq<Service>)
    ensures BuiltFrom(d, sender, xpub, InForce(d, sender, xpub, services), Channels(d, sender, xpub, services, map[]).0)
    ensures Channels(d, sender, xpub, services, map[]).1 <==> Derived(d, sender, xpub, services) == |services|
  {
    ChannelsFromTable(d, sender, xpub, [], services, map[]);
    DerivedBound(d, sender, xpub, services);
    assert [] + services[..Derived(d, sender, xpub, services)] == services[..Derived(d, sender, xpub, services)];
  }

  /** A service is derived exactly when the avatar's key is, and the phone's too unless there
      is no realm_xpub. */
  predicate Derivable(d: Derivation, xpub: Option<Xpub>, svc: Service) {
    && d.avatarKeys(svc.kind, svc.seqNo).Some?
    && (xpub.Some? ==> d.phonePubkey(xpub.value, svc.kind, svc.seqNo).Some?)
  }

  /** How far a service list is derived: every service before that point is derivable, the
      one at it is not. */
  ghost predicate DerivedUpTo(d: Derivation, xpub: Option<Xpub>, services: seq<Service>, end: nat) {
    && end <= |services|
    && (forall i :: 0 <= i < end ==> Derivable(d, xpub, services[i]))
    && (end < |services| ==> !Derivable(d, xpub, services[end]))
  }

  /** The channel's keys are those derived for its type and a seq number: the avatar's, and
      the phone's, which without a realm_xpub is the phone's own key. */
  predicate KeysDerived(d: Derivation, s: RootSession, ch: Channel, n: nat) {
    && ch.realmPubkey == s.keymaster
    && d.avatarKeys(ch.serviceType, n) == Some(ch.avatarKeys)
    && match s.realmXpub
       case None => ch.phoneServicePubkey == s.keymaster
       case Some(x) => d.phonePubkey(x, ch.serviceType, n) == Some(ch.phoneServicePubkey)
  }

  lemma DeriveOneKeys(d: Derivation, sender: PubKey, xpub: Option<Xpub>, svc: Service)
    ensures DeriveOne(d, sender, xpub, svc).Some? <==> Derivable(d, xpub, svc)
    ensures DeriveOne(d, sender, xpub, svc).Some? ==>
      var ch := DeriveOne(d, sender, xpub, svc).value;
      && ch.serviceType == svc.kind && ch.realmPubkey == sender
        && d.avatarKeys(svc.kind, svc.seqNo) == Some(ch.avatarKeys)
      && match xpub
         case None => ch.phoneServicePubkey == sender
         case Some(x) => d.phonePubkey(x, svc.kind, svc.seqNo) == Some(ch.phoneServicePubkey)
  {
  }

  lemma DerivedIsUpTo(d: Derivation, sender: PubKey, xpub: Option<Xpub>, services: seq<Service>)
    ensures DerivedUpTo(d, xpub, services, Derived(d, sender, xpub, services))
  {
    hide DeriveOne, Derived;
    DerivedBound(d, sender, xpub, services);
    forall i | 0 <= i < |services|
      ensures DeriveOne(d, sender, xpub, services[i]).Some? <==> Derivable(d, xpub, services[i])
    {
      DeriveOneKeys(d, sender, xpub, services[i]);
    }
  }

  /** The type's last mention before the end, and the channel of its seq number. */
  ghost predicate FromLastMention(d: Derivation, s: RootSession, services: seq<Service>, end: nat, t: string, i: nat)
    requires t in s.channels
  {
    && i < end <= |services| && services[i].kind == t
    && (forall j :: i < j < end ==> services[j].kind != t)
    && KeysDerived(d, s, s.channels[t], services[i].seqNo) && s.channels[t].serviceType == t
  }

  /** Over every run, a live session has a channel for exactly the types its service list
      mentions before derivation stops, each with the keys derived for the seq number of the
      type's last mention there. */
  lemma ChannelsHoldDerivedKeys(cfg: Config, author: EventId -> PubKey, events: seq<Event>, id: EventId, t: string)
    requires forall i :: 0 <= i < |events| ==> Named(author, events[i])
    requires id in Run(cfg, Start, events).sessions
    ensures var st := Run(cfg, Start, events); var s := st.sessions[id];
            && id in st.origin
            && exists end :: DerivedUpTo(cfg.derivation, s.realmXpub, st.origin[id].services, end)
                 && (t in s.channels <==> exists i :: 0 <= i < end && st.origin[id].services[i].kind == t)
                 && (t in s.channels ==> exists i ::
                   FromLastMention(cfg.derivation, s, st.origin[id].services, end, t, i))
  {
    hide Filed, Derived, Channels, DerivedUpTo, LastSeqs, DeriveOne, Run;
    var st := Run(cfg, Start, events);
    StartInv(cfg, author);
    RunKeepsInv(cfg, author, Start, events);
    var s := st.sessions[id];
    assert SessionOk(cfg, author, st, id, s);
    var services := st.origin[id].services;
    var end := Derived(cfg.derivation, s.keymaster, s.realmXpub, services);
    DerivedIsUpTo(cfg.derivation, s.keymaster, s.realmXpub, services);
    ChannelsAreInForce(cfg.derivation, s.keymaster, s.realmXpub, services);
    LastSeqsIsLast(services[..end], t);
    assert forall i :: 0 <= i < end ==> services[..end][i] == services[i];
    if t in s.channels {
      var n := LastSeqs(services[..end])[t];
      DeriveOneKeys(cfg.derivation, s.keymaster, s.realmXpub, Service(t, n));
      var i :| 0 <= i < |services[..end]| && services[..end][i] == Service(t, n)
               && forall j :: i < j < |services[..end]| ==> services[..end][j].kind != t;
      assert FromLastMention(cfg.derivation, s, services, end, t, i);
    }
  }

  /** No two seq numbers of a type yield the same avatar key. */
  ghost predicate SeqsDistinct(d: Derivation) {
    forall kind, a, b :: d.avatarKeys(kind, a).Some? && d.avatarKeys(kind, a) == d.avatarKeys(kind, b) ==> a == b
  }

  /** Equal tables give equal channels; distinct seq numbers give distinct channels as long
      as no two of them yield the same avatar key. */
  lemma SameTableIffSameChannels(d: Derivation, sender: PubKey, xpub: Option<Xpub>, s: seq<Service>, t: seq<Service>)
    ensures InForce(d, sender, xpub, s) == InForce(d, sender, xpub, t) ==>
              Channels(d, sender, xpub, s, map[]).0 == Channels(d, sender, xpub, t, map[]).0
    ensures SeqsDistinct(d) && Channels(d, sender, xpub, s, map[]).0 == Channels(d, sender, xpub, t, map[]).0 ==>
              InForce(d, sender, xpub, s) == InForce(d, sender, xpub, t)
  {
    hide Channels, InForce;
    ChannelsAreInForce(d, sender, xpub, s);
    ChannelsAreInForce(d, sender, xpub, t);
    var a, b := Channels(d, sender, xpub, s, map[]).0, Channels(d, sender, xpub, t, map[]).0;
    var m, n := InForce(d, sender, xpub, s), InForce(d, sender, xpub, t);
    if a == b && SeqsDistinct(d) {
      assert m.Keys == n.Keys;
      forall k | k in m ensures m[k] == n[k] {
        assert d.avatarKeys(k, m[k]) == Some(a[k].avatarKeys) == d.avatarKeys(k, n[k]);
      }
      assert m == n;
    }
    if m == n {
      assert a.Keys == b.Keys;
      forall k | k in a ensures a[k] == b[k] {
        assert DeriveOne(d, sender, xpub, Service(k, m[k])) == Some(a[k]);
      }
      assert a == b;
    }
  }

  /** Whom the session's listener serves, if it has one. */
  function ListenerIdentity(st: State, s: RootSession): Option<string> {
    match s.apiShutdown
    case Some(l) => if l in st.listeners then Some(st.listeners[l].0) else None
    case None => None
  }

  /** The sessions differ in nothing but their event and their shutdown channels. */
  predicate Alike(st: State, kept: RootSession, after: State, slow: RootSession) {
    && kept.keymaster == slow.keymaster && kept.realmXpub == slow.realmXpub
    && kept.identity == slow.identity && kept.services == slow.services && kept.channels == slow.channels
    && ListenerIdentity(st, kept) == ListenerIdentity(after, slow)
  }

  /** The request asks for what the session was created from, as far as it shows: the same
      identity, the same types in order, the same seq numbers in force, and a listener just
      if the session has one. */
  predicate AsksForTheSame(cfg: Config, kept: RootSession, from: Origin, req: Request, bindOk: bool) {
    && kept.identity == req.identity
    && Kinds(from.services) == Kinds(req.services)
    && InForce(cfg.derivation, req.sender, req.realmXpub, from.services)
       == InForce(cfg.derivation, req.sender, req.realmXpub, req.services)
    && Starts(cfg, req.sender, req.realmXpub, kept.identity, from) == Listens(cfg, req, bindOk)
  }

  lemma SlowSession(cfg: Config, st: State, req: Request, bindOk: bool)
    ensures var t := CreateSession(cfg, st, req, bindOk);
            && req.event in t.sessions
            && var slow := t.sessions[req.event];
               && slow.keymaster == req.sender && slow.realmXpub == req.realmXpub
               && slow.identity == req.identity && slow.services == Kinds(req.services)
               && slow.channels == Channels(cfg.derivation, req.sender, req.realmXpub, req.services, map[]).0
               && ListenerIdentity(t, slow) == (if Listens(cfg, req, bindOk) then Some(req.identity) else None)
  {
    hide Channels, Evict;
  }

  /** Fast re-attach against slow. In every reachable state, for every attach that takes
      the fast path, the session left untouched is the one that evicting, creating, deriving
      and listening would build if the request asks for the same, and only then when
      distinct seq numbers yield distinct avatar keys. Asking with the same identity and
      service list, with the same luck in binding the socket, is asking for the same. */
  lemma FastReattachAgreesWithSlow(cfg: Config, author: EventId -> PubKey, events: seq<Event>,
                                   req: Request, bindOk: bool, id: EventId)
    requires forall i :: 0 <= i < |events| ==> Named(author, events[i])
    requires var st := Run(cfg, Start, events);
             id in st.sessions && st.sessions[id].keymaster == req.sender && st.sessions[id].realmXpub == req.realmXpub
    ensures id in Run(cfg, Start, events).origin
    ensures var st := Run(cfg, Start, events); var kept, from := st.sessions[id], st.origin[id];
            var slow := CreateSession(cfg, st, req, bindOk);
            && req.event in slow.sessions
            && (Admitted(cfg, req) ==> Attach(cfg, st, req, bindOk) == (st, Accepted(req.services)))
            && (AsksForTheSame(cfg, kept, from, req, bindOk) ==> Alike(st, kept, slow, slow.sessions[req.event]))
            && (SeqsDistinct(cfg.derivation) && Alike(st, kept, slow, slow.sessions[req.event]) ==>
                  AsksForTheSame(cfg, kept, from, req, bindOk))
            && (kept.identity == req.identity && from == Origin(req.services, bindOk) ==>
                  AsksForTheSame(cfg, kept, from, req, bindOk))
  {
    hide Channels, InForce, Filed, Evict, CreateSession, Starts;
    var st := Run(cfg, Start, events);
    StartInv(cfg, author);
    RunKeepsInv(cfg, author, Start, events);
    assert SessionOk(cfg, author, st, id, st.sessions[id]);
    SlowSession(cfg, st, req, bindOk);
    SameTableIffSameChannels(cfg.derivation, req.sender, req.realmXpub, st.origin[id].services, req.services);
    assert Admitted(cfg, req) ==> IsReattach(st, req);
  }

  /** Without a realm_xpub on either side, a phone attached as alice re-attaches as bob for
      the same services: it is told they are accepted, the session stays alice's with
      alice's listener, and only the slow path would serve bob. */
  lemma ReattachMayKeepTheIdentity(cfg: Config)
    requires cfg.allowlist == {} && cfg.users == {"alice", "bob"}
    requires forall kind, n :: cfg.derivation.avatarKeys(kind, n).Some?
    ensures var ssh := Service("ssh", 0);
            var first, second := Request(1, 7, [ssh], "alice", None, Pass), Request(2, 7, [ssh], "bob", None, Pass);
            var st := Attach(cfg, Start, first, true).0;
            var slow := CreateSession(cfg, st, second, true);
            && Attach(cfg, st, second, true) == (st, Accepted([ssh]))
            && 1 in st.sessions && st.sessions[1].identity == "alice"
              && ListenerIdentity(st, st.sessions[1]) == Some("alice")
            && 2 in slow.sessions && slow.sessions[2].identity == "bob"
              && ListenerIdentity(slow, slow.sessions[2]) == Some("bob")
            && st.sessions[1].channels == slow.sessions[2].channels
  {
    var ssh := Service("ssh", 0);
    var first, second := Request(1, 7, [ssh], "alice", None, Pass), Request(2, 7, [ssh], "bob", None, Pass);
    var st := Attach(cfg, Start, first, true).0;
    OneServiceIsDerived(cfg, ssh);
    SlowSession(cfg, Start, first, true);
    SlowSession(cfg, st, second, true);
    assert !IsReattach(Start, first);
    assert st == CreateSession(cfg, Start, first, true);
    assert IsReattach(st, second);
  }

  lemma OneServiceIsDerived(cfg: Config, svc: Service)
    requires cfg.derivation.avatarKeys(svc.kind, svc.seqNo).Some?
    ensures Channels(cfg.derivation, 7, None, [svc], map[]).1
  {
    assert [svc][1..] == [];
    var ch := DeriveOne(cfg.derivation, 7, None, svc).value;
    assert Channels(cfg.derivation, 7, None, [], map[svc.kind := ch]).1;
  }

  /** Without the service list the agreement fails: a phone attached for ssh re-attaches
      for ssh and gpg, is told that both are accepted, and has no gpg channel. */
  lemma ReattachMayOverstate(cfg: Config, xpub: Xpub)
    requires cfg.allowlist == {}
    requires forall kind, n :: cfg.derivation.avatarKeys(kind, n).Some?
    requires forall kind, n :: cfg.derivation.phonePubkey(xpub, kind, n).Some?
    ensures var ssh, gpg := Service("ssh", 0), Service("gpg", 0);
            var first := Request(1, 7, [ssh], "alice", Some(xpub), Pass);
            var second := Request(2, 7, [ssh, gpg], "alice", Some(xpub), Pass);
            var st := Attach(cfg, Start, first, false).0;
            && Attach(cfg, st, second, false) == (st, Accepted([ssh, gpg]))
            && 1 in st.sessions && "ssh" in st.sessions[1].channels && "gpg" !in st.sessions[1].channels
  {
    var ssh, gpg := Service("ssh", 0), Service("gpg", 0);
    var first := Request(1, 7, [ssh], "alice", Some(xpub), Pass);
    var st := Attach(cfg, Start, first, false).0;
    var ch := DeriveOne(cfg.derivation, 7, Some(xpub), ssh).value;
    assert [ssh][1..] == [];
    assert Channels(cfg.derivation, 7, Some(xpub), [ssh], map[])
           == Channels(cfg.derivation, 7, Some(xpub), [], map["ssh" := ch]);
    assert 1 in st.sessions && st.sessions[1].keymaster == 7 && st.sessions[1].realmXpub == Some(xpub);
  }

  // ---- Requests on an open connection ----

  datatype Served =
    | Nothing
    | Answered(bound: Option<string>, response: L.Response)
    | Published(channel: Channel)

  /** What handle_connection and forward_to_nostr may do with a line, up to publishing. */
  ghost predicate MayServe(sessions: map<EventId, RootSession>, identity: Option<string>, bound: Option<string>,
                           line: L.Line, out: Served)
  {
    match L.Dispatch(bound, line)
    case Ignore => out == Nothing
    case Say(b, r) => out == Answered(b, r)
    case Forward(service) =>
      || (out.Published? && ChannelFor(sessions, service, identity, out.channel))
      || ((forall ch :: !ChannelFor(sessions, service, identity, ch))
          && out == Answered(bound, L.Error(L.LineId(line), L.NO_SESSION, "no service channel available")))
  }

  /** A connection to the local API, bound to a service by its connect message. */
  class Connection {
    const mgr: SessionManager
    const identity: Option<string>
    var bound: Option<string>

    constructor (mgr: SessionManager, identity: Option<string>)
      ensures this.mgr == mgr && this.identity == identity && bound == None
    {
      this.mgr := mgr;
      this.identity := identity;
      bound := None;
    }

    method Serve(line: L.Line) returns (out: Served)
      modifies this
      ensures MayServe(mgr.sessions, identity, old(bound), line, out)
      ensures bound == if out.Answered? then out.bound else old(bound)
    {
      match L.Dispatch(bound, line) {
        case Ignore => out := Nothing;
        case Say(b, r) =>
          bound := b;
          out := Answered(b, r);
        case Forward(service) =>
          var found := mgr.FindServiceChannel(service, identity);
          match found {
            case Some(ch) => out := Published(ch);
            case None => out := Answered(bound, L.Error(L.LineId(line), L.NO_SESSION, "no service channel available"));
          }
      }
    }
  }

  predicate HasIdentity(st: State, identity: string) {
    exists id :: id in st.sessions && st.sessions[id].identity == identity
  }

  lemma {:induction false} IdentityStaysGone(cfg: Config, st: State, events: seq<Event>, identity: string)
    requires !HasIdentity(st, identity)
    requires forall i :: 0 <= i < |events| && events[i].AttachEvent? ==> events[i].req.identity != identity
    ensures !HasIdentity(Run(cfg, st, events), identity)
    decreases |events|
  {
    if events != [] {
      IdentityStaysGone(cfg, Handle(cfg, st, events[0]), events[1..], identity);
    }
  }

  /** Once no session of an identity is left, and until a new attach of that identity,
      every request on an open, bound connection of that identity is answered NO_SESSION. */
  lemma OrphanedConnectionIsRefused(cfg: Config, st: State, events: seq<Event>, identity: string,
                                    service: string, line: L.Line, out: Served)
    requires !HasIdentity(st, identity)
    requires forall i :: 0 <= i < |events| && events[i].AttachEvent? ==> events[i].req.identity != identity
    requires line.rpcMethod.Some? && line.rpcMethod != Some("connect")
    requires MayServe(Run(cfg, st, events).sessions, Some(identity), Some(service), line, out)
    ensures out.Answered? && out.bound == Some(service) && out.response.id == L.LineId(line)
    ensures out.response.error.Some? && out.response.error.value.code == L.NO_SESSION
  {
    IdentityStaysGone(cfg, st, events, identity);
  }
}
