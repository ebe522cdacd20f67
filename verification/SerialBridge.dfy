/** The bridge of km-nostr-sa (crates/km-nostr-sa/src/main.rs) on top of the daemon's local
    API: any number of clients, one queue, one connection to the daemon at a time, one
    request in flight on it, and no identifier compared anywhere. The daemon, its other
    connections, the relay and whoever answers move freely between the bridge's steps. */
module SerialBridge {
  import opened Common
  import opened JsonValues
  import L = LocalApi
  import T = Translation

  type ClientId = nat

  /** A request of a client: the client and the position of the message on its connection. */
  type CallRef = (ClientId, nat)

  datatype Task =
    | Reading
    | Queued                    // handed to the bridge loop, reply channel open
    | InFlight                  // taken off the queue by the bridge loop
    | Writing(reply: L.Reply)
    | Gone(done: nat)

  datatype Client = Client(
    msgs: seq<Json>,             // everything the client has sent
    taken: nat,
    task: Task,
    sent: map<nat, (L.ConnId, nat)>, // the line written to the daemon for a message
    replies: seq<L.Reply>)       // everything written back to the client

  datatype Link =
    | Down
    | Greeting(conn: L.ConnId)
    | Ready(conn: L.ConnId)
    | Busy(conn: L.ConnId, call: CallRef)

  datatype System = System(
    api: L.Api,
    clients: map<ClientId, Client>,
    queue: seq<CallRef>,
    link: Link,
    got: nat,                              // replies read on the current connection
    nextId: nat,
    owned: set<L.ConnId>,                  // the connections the bridge has opened
    origin: map<(L.ConnId, nat), CallRef>) // whose request a line of an owned connection is

  const Start := System(L.Start, map[], [], Down, 0, 2, {}, map[])

  // ---- Messages ----

  function MsgId(msg: Json): Json {
    GetOr(msg, "id", Null)
  }

  function MsgMethod(msg: Json): string {
    L.OrEmpty(GetStr(msg, "method"))
  }

  const ConnectLine := L.Line(Some("connect"), Obj(map["type" := Str("nostr")]), Some(Int(1)))

  /** The line the bridge writes for a client's message. */
  function BridgeLine(msg: Json, id: nat): L.Line {
    L.Line(Some("nostr." + MsgMethod(msg)),
           T.TranslateRequest(MsgMethod(msg), GetOr(msg, "params", Obj(map[]))),
           Some(Int(id)))
  }

  /** The client's reply: the translated result under the client's own id. */
  function ClientResponse(msg: Json, r: L.Response): L.Response {
    L.Response(match r.result case Some(v) => Some(T.TranslateResult(MsgMethod(msg), v)) case None => None,
               r.error, MsgId(msg))
  }

  function Failure(msg: Json, code: int, text: string): L.Reply {
    L.Reply(L.Local, L.Error(MsgId(msg), code, text))
  }

  // ---- Steps ----

  datatype Step =
    | Daemon(step: L.Step)
    | ClientConnects(client: ClientId)
    | ClientSends(client: ClientId, msg: Json)
    | ClientTakes(client: ClientId)
    | ClientReplies(client: ClientId, ok: bool)
    | ClientLeaves(client: ClientId)
    | Connect(conn: L.ConnId)
    | Greeted
    | GreetingFails
    | Send
    | SendFails(delivered: bool)
    | Receive
    | ReceiveFails

  /** Nobody but the bridge writes on the bridge's connections. */
  predicate Foreign(s: System, step: L.Step) {
    step.PeerWrite? ==> step.conn !in s.owned
  }

  function ClientStep(k: Client, step: Step): Client {
    match (step, k.task)
    case (ClientSends(_, msg), _) => Client(k.msgs + [msg], k.taken, k.task, k.sent, k.replies)
    case (ClientTakes(_), Reading) =>
      if k.taken >= |k.msgs| then k
      else if GetStr(k.msgs[k.taken], "method").None? then
        Client(k.msgs, k.taken + 1, Writing(Failure(k.msgs[k.taken], -32600, "missing method")), k.sent, k.replies)
      else Client(k.msgs, k.taken + 1, Queued, k.sent, k.replies)
    case (ClientReplies(_, ok), Writing(reply)) =>
      if ok then Client(k.msgs, k.taken, Reading, k.sent, k.replies + [reply])
      else Client(k.msgs, k.taken, Gone(|k.replies|), k.sent, k.replies)
    case (ClientLeaves(_), Reading) => Client(k.msgs, k.taken, Gone(|k.replies|), k.sent, k.replies)
    case _ => k
  }

  predicate Queues(k: Client, step: Step) {
    step.ClientTakes? && k.task == Reading && k.taken < |k.msgs| && GetStr(k.msgs[k.taken], "method").Some?
  }

  function Launch(k: Client, line: (L.ConnId, nat)): Client
    requires k.taken > 0
  {
    Client(k.msgs, k.taken, InFlight,
           k.sent[k.taken - 1 := line], k.replies)
  }

  function Settle(k: Client, reply: L.Reply): Client {
    Client(k.msgs, k.taken, Writing(reply), k.sent, k.replies)
  }

  predicate CanSend(s: System) {
    && s.link.Ready? && s.link.conn in s.api.conns && s.queue != []
    && s.queue[0].0 in s.clients
    && s.clients[s.queue[0].0].taken == s.queue[0].1 + 1
    && s.queue[0].1 < |s.clients[s.queue[0].0].msgs|
  }

  /** The bridge takes the next call and writes its line. */
  function ApplySend(s: System): System
    requires CanSend(s)
  {
    var c, call := s.link.conn, s.queue[0];
    var k := s.clients[call.0];
    var at := |s.api.conns[c].lines|;
    System(L.Apply(s.api, L.PeerWrite(c, BridgeLine(k.msgs[call.1], s.nextId))),
           s.clients[call.0 := Launch(k, (c, at))],
           s.queue[1..], Busy(c, call), s.got, s.nextId + 1, s.owned, s.origin[(c, at) := call])
  }

  predicate CanSettle(s: System) {
    && s.link.Busy?
    && s.link.call.0 in s.clients
    && s.link.call.1 < |s.clients[s.link.call.0].msgs|
  }

  predicate CanReceive(s: System) {
    CanSettle(s) && s.link.conn in s.api.conns && s.got < |s.api.conns[s.link.conn].replies|
  }

  function ApplyReceive(s: System): System
    requires CanReceive(s)
  {
    var call := s.link.call;
    var k := s.clients[call.0];
    var reply := s.api.conns[s.link.conn].replies[s.got];
    System(s.api,
           s.clients[call.0 := Settle(k, L.Reply(reply.source, ClientResponse(k.msgs[call.1], reply.response)))],
           s.queue, Ready(s.link.conn), s.got + 1, s.nextId, s.owned, s.origin)
  }

  /** The connection is abandoned and the call in flight fails. */
  function ApplyReceiveFails(s: System): System
    requires CanSettle(s)
  {
    var call := s.link.call;
    var k := s.clients[call.0];
    System(s.api,
           s.clients[call.0 := Settle(k, Failure(k.msgs[call.1], -32603, "avatar connection error"))],
           s.queue, Down, s.got, s.nextId, s.owned, s.origin)
  }

  /** A failed write may still have delivered the line; the connection is abandoned and
      the call fails. */
  function ApplySendFails(s: System, delivered: bool): System
    requires CanSend(s)
  {
    if delivered then ApplyReceiveFails(ApplySend(s)) else
    var call := s.queue[0];
    var k := s.clients[call.0];
    System(s.api,
           s.clients[call.0 := Settle(k, Failure(k.msgs[call.1], -32603, "avatar connection error"))],
           s.queue[1..], Down, s.got, s.nextId + 1, s.owned, s.origin)
  }

  function WithLink(s: System, link: Link, got: nat): System {
    System(s.api, s.clients, s.queue, link, got, s.nextId, s.owned, s.origin)
  }

  function Apply(s: System, step: Step): System {
    match step
    case Daemon(inner) =>
      if !Foreign(s, inner) then s else
      System(L.Apply(s.api, inner), s.clients, s.queue, s.link, s.got, s.nextId, s.owned, s.origin)
    case ClientConnects(cl) =>
      if cl in s.clients then s else
      System(s.api, s.clients[cl := Client([], 0, Reading, map[], [])],
             s.queue, s.link, s.got, s.nextId, s.owned, s.origin)
    case Connect(c) =>
      if !s.link.Down? || c in s.api.conns then s else
      System(L.Apply(L.Apply(s.api, L.Open(c)), L.PeerWrite(c, ConnectLine)),
             s.clients, s.queue, Greeting(c), 0, s.nextId, s.owned + {c}, s.origin)
    case Greeted =>
      if !s.link.Greeting? || s.link.conn !in s.api.conns || s.got >= |s.api.conns[s.link.conn].replies| then s
      else if s.api.conns[s.link.conn].replies[s.got].response.error.Some? then WithLink(s, Down, s.got)
      else WithLink(s, Ready(s.link.conn), s.got + 1)
    case GreetingFails => if s.link.Greeting? then WithLink(s, Down, s.got) else s
    case Send => if CanSend(s) then ApplySend(s) else s
    case SendFails(delivered) => if CanSend(s) then ApplySendFails(s, delivered) else s
    case Receive => if CanReceive(s) then ApplyReceive(s) else s
    case ReceiveFails => if CanSettle(s) then ApplyReceiveFails(s) else s
    case _ =>
      var cl := step.client;
      if cl !in s.clients then s else
      var k := s.clients[cl];
      System(s.api, s.clients[cl := ClientStep(k, step)],
             if Queues(k, step) then s.queue + [(cl, k.taken)] else s.queue,
             s.link, s.got, s.nextId, s.owned, s.origin)
  }

  function Run(s: System, steps: seq<Step>): System
    decreases |steps|
  {
    if steps == [] then s else Run(Apply(s, steps[0]), steps[1..])
  }

  // ---- What a client may rely on ----

  /** The line was published as event e. */
  predicate PublishedAt(s: System, e: L.EventId, call: CallRef) {
    e in s.api.published && s.api.published[e] in s.origin && s.origin[s.api.published[e]] == call
  }

  function LineAt(s: System, at: (L.ConnId, nat)): Option<L.Line> {
    if at.0 in s.api.conns && at.1 < |s.api.conns[at.0].lines| then Some(s.api.conns[at.0].lines[at.1]) else None
  }

  /** A reply to a client's message carries the client's own id and is either an error or
      the answer taken for the event published for this very message. */
  ghost predicate Good(s: System, cl: ClientId, i: nat, msg: Json, reply: L.Reply) {
    && reply.response.id == MsgId(msg)
    && match reply.source
       case Local => reply.response.error.Some?
       case Remote(e, a) =>
         && (e, a) in s.api.answers && L.IsResponseMessage(a.body) && e in s.api.took && s.api.took[e] == a
         && PublishedAt(s, e, (cl, i))
         && LineAt(s, s.api.published[e]).Some?
         && reply.response == ClientResponse(msg, L.FromAnswer(L.LineId(LineAt(s, s.api.published[e]).value), a.body))
  }

  // ---- The invariant ----

  function Settled(k: Client): int {
    match k.task
    case Reading => k.taken
    case Gone(d) => d
    case _ => k.taken - 1
  }

  ghost predicate RepliesGood(s: System, cl: ClientId, k: Client) {
    && 0 <= Settled(k) <= k.taken <= |k.msgs|
    && |k.replies| == Settled(k)
    && (forall j :: 0 <= j < |k.replies| ==> Good(s, cl, j, k.msgs[j], k.replies[j]))
    && (k.task.Writing? ==> Good(s, cl, k.taken - 1, k.msgs[k.taken - 1], k.task.reply))
  }

  /** A waiting client is on the queue or in the bridge's hands; nothing is sent ahead. */
  ghost predicate ClientPlace(s: System, cl: ClientId, k: Client) {
    && (k.task.Queued? ==> k.taken > 0 && (cl, k.taken - 1) in s.queue && k.taken - 1 !in k.sent)
    && (k.task.InFlight? ==> k.taken > 0 && s.link.Busy? && s.link.call == (cl, k.taken - 1))
    && (forall j :: j in k.sent ==> j < k.taken)
  }

  ghost predicate ClientsInv(s: System) {
    forall cl :: cl in s.clients ==> RepliesGood(s, cl, s.clients[cl]) && ClientPlace(s, cl, s.clients[cl])
  }

  ghost predicate QueueInv(s: System) {
    && (forall i :: 0 <= i < |s.queue| ==>
          var (cl, j) := s.queue[i]; cl in s.clients && s.clients[cl].task.Queued? && s.clients[cl].taken == j + 1)
    && (forall i, j :: 0 <= i < j < |s.queue| ==> s.queue[i] != s.queue[j])
  }

  ghost predicate LinkInv(s: System) {
    && (forall c :: c in s.owned ==> c in s.api.conns && L.AllRequests(s.api.conns[c].lines))
    && match s.link
       case Down => true
       case Greeting(c) => c in s.owned && c in s.api.conns && s.got == 0 && |s.api.conns[c].lines| == 1
       case Ready(c) => c in s.owned && c in s.api.conns && s.got == |s.api.conns[c].lines|
       case Busy(c, call) =>
         && c in s.owned && c in s.api.conns
         && s.got + 1 == |s.api.conns[c].lines|
         && (c, s.got) in s.origin && s.origin[(c, s.got)] == call
         && call.0 in s.clients && s.clients[call.0].task.InFlight? && s.clients[call.0].taken == call.1 + 1
  }

  ghost predicate OriginAt(s: System, at: (L.ConnId, nat))
    requires at in s.origin
  {
    var (cl, j) := s.origin[at];
    && at.0 in s.owned && LineAt(s, at).Some?
    && cl in s.clients && j < |s.clients[cl].msgs|
    && j in s.clients[cl].sent && s.clients[cl].sent[j] == at
    && LineAt(s, at).value.rpcMethod == Some("nostr." + MsgMethod(s.clients[cl].msgs[j]))
    && LineAt(s, at).value.params
       == T.TranslateRequest(MsgMethod(s.clients[cl].msgs[j]), GetOr(s.clients[cl].msgs[j], "params", Obj(map[])))
  }

  ghost predicate OriginInv(s: System) {
    forall at :: at in s.origin ==> OriginAt(s, at)
  }

  ghost predicate Inv(s: System) {
    L.Inv(s.api) && ClientsInv(s) && QueueInv(s) && LinkInv(s) && OriginInv(s)
  }

  // ---- Frames ----

  ghost predicate Grows(s: System, t: System) {
    && L.Extends(s.api, t.api)
    && (forall at :: at in s.origin ==> at in t.origin && t.origin[at] == s.origin[at])
  }

  lemma LineStays(s: System, t: System, at: (L.ConnId, nat))
    requires L.Extends(s.api, t.api) && LineAt(s, at).Some?
    ensures LineAt(t, at) == LineAt(s, at)
  {
  }

  lemma GoodStays(s: System, t: System, cl: ClientId, i: nat, msg: Json, reply: L.Reply)
    requires Grows(s, t) && Good(s, cl, i, msg, reply)
    ensures Good(t, cl, i, msg, reply)
  {
    hide ClientResponse, L.IsResponseMessage, L.FromAnswer;
    match reply.source
    case Local =>
    case Remote(e, a) => LineStays(s, t, s.api.published[e]);
  }

  lemma RepliesStayGood(s: System, t: System, cl: ClientId, k: Client)
    requires Grows(s, t) && RepliesGood(s, cl, k)
    ensures RepliesGood(t, cl, k)
  {
    hide Good;
    forall j | 0 <= j < |k.replies| ensures Good(t, cl, j, k.msgs[j], k.replies[j]) {
      GoodStays(s, t, cl, j, k.msgs[j], k.replies[j]);
    }
    if k.task.Writing? {
      GoodStays(s, t, cl, k.taken - 1, k.msgs[k.taken - 1], k.task.reply);
    }
  }

  lemma OriginStays(s: System, t: System, at: (L.ConnId, nat))
    requires Grows(s, t) && at in s.origin && OriginAt(s, at) && s.owned <= t.owned
    requires var (cl, j) := s.origin[at];
             cl in t.clients && s.clients[cl].msgs <= t.clients[cl].msgs
             && (j in s.clients[cl].sent ==> j in t.clients[cl].sent && t.clients[cl].sent[j] == s.clients[cl].sent[j])
    ensures at in t.origin && OriginAt(t, at)
  {
    hide L.Extends;
    LineStays(s, t, at);
  }

  /** Everybody but client cl keeps replies and place. */
  lemma OthersKept(s: System, t: System, cl: ClientId, k: Client)
    requires ClientsInv(s) && Grows(s, t) && t.clients == s.clients[cl := k]
    requires forall d :: d in s.clients && d != cl && s.clients[d].task.Queued? ==>
               (d, s.clients[d].taken - 1) in s.queue ==> (d, s.clients[d].taken - 1) in t.queue
    requires s.link.Busy? && s.link.call.0 != cl ==> t.link.Busy? && t.link.call == s.link.call
    requires RepliesGood(t, cl, k) && ClientPlace(t, cl, k)
    ensures ClientsInv(t)
  {
    hide RepliesGood, L.Extends;
    forall d | d in t.clients ensures RepliesGood(t, d, t.clients[d]) && ClientPlace(t, d, t.clients[d]) {
      if d != cl {
        RepliesStayGood(s, t, d, s.clients[d]);
      }
    }
  }

  lemma SameClients(s: System, t: System)
    requires ClientsInv(s) && Grows(s, t) && t.clients == s.clients && t.queue == s.queue
    requires s.link.Busy? ==> t.link.Busy? && t.link.call == s.link.call
    ensures ClientsInv(t)
  {
    hide RepliesGood, L.Extends;
    forall d | d in t.clients ensures RepliesGood(t, d, t.clients[d]) && ClientPlace(t, d, t.clients[d]) {
      RepliesStayGood(s, t, d, s.clients[d]);
    }
  }

  lemma SameOrigin(s: System, t: System)
    requires OriginInv(s) && Grows(s, t) && t.origin == s.origin && s.owned <= t.owned
    requires forall d :: d in s.clients ==>
               d in t.clients && s.clients[d].msgs <= t.clients[d].msgs && t.clients[d].sent == s.clients[d].sent
    ensures OriginInv(t)
  {
    hide OriginAt, L.Extends;
    forall at | at in t.origin ensures OriginAt(t, at) {
      assert s.origin[at].0 in s.clients by { OriginClient(s, at); }
      OriginStays(s, t, at);
    }
  }

  lemma OriginClient(s: System, at: (L.ConnId, nat))
    requires at in s.origin && OriginAt(s, at)
    ensures s.origin[at].0 in s.clients
  {
  }

  lemma SameSystem(s: System)
    ensures Grows(s, s)
  {
  }

  // ---- The daemon moves ----

  lemma DaemonLinks(s: System, inner: L.Step)
    requires LinkInv(s) && Foreign(s, inner)
    ensures LinkInv(Apply(s, Daemon(inner)))
  {
    hide L.Apply;
    forall c | c in s.owned
      ensures c in L.Apply(s.api, inner).conns && L.Apply(s.api, inner).conns[c].lines == s.api.conns[c].lines
    {
      L.LinesKept(s.api, inner, c);
    }
  }

  lemma DaemonKeepsInv(s: System, inner: L.Step)
    requires Inv(s)
    ensures Inv(Apply(s, Daemon(inner))) && Grows(s, Apply(s, Daemon(inner)))
  {
    hide L.Apply, L.Inv, L.Extends, ClientsInv, OriginInv, LinkInv;
    var t := Apply(s, Daemon(inner));
    if Foreign(s, inner) {
      L.StepKeepsInv(s.api, inner);
      DaemonLinks(s, inner);
      SameClients(s, t);
      SameOrigin(s, t);
    } else {
      assert Grows(s, t) by { SameSystem(s); }
    }
  }

  // ---- Clients move ----

  predicate ByClient(step: Step) {
    step.ClientSends? || step.ClientTakes? || step.ClientReplies? || step.ClientLeaves?
  }

  lemma ClientStepReplies(s: System, cl: ClientId, k: Client, step: Step)
    requires ByClient(step) && step.client == cl
    requires RepliesGood(s, cl, k)
    ensures RepliesGood(s, cl, ClientStep(k, step))
  {
    hide ClientResponse, L.IsResponseMessage, L.FromAnswer, LineAt, PublishedAt;
    var k' := ClientStep(k, step);
    assert forall j :: 0 <= j < |k.msgs| ==> k'.msgs[j] == k.msgs[j];
    if step.ClientTakes? && k.task == Reading && k.taken < |k.msgs| && GetStr(k.msgs[k.taken], "method").None? {
      assert Good(s, cl, k.taken, k.msgs[k.taken], Failure(k.msgs[k.taken], -32600, "missing method"));
    }
  }

  lemma ClientStepQueue(s: System, cl: ClientId, step: Step)
    requires ByClient(step) && step.client == cl && cl in s.clients
    requires QueueInv(s) && ClientPlace(s, cl, s.clients[cl])
    ensures QueueInv(Apply(s, step)) && ClientPlace(Apply(s, step), cl, ClientStep(s.clients[cl], step))
  {
    hide Failure;
    var t := Apply(s, step);
    if Queues(s.clients[cl], step) {
      assert t.queue[|s.queue|] == (cl, s.clients[cl].taken);
    }
  }

  lemma ClientStepFrame(s: System, cl: ClientId, step: Step)
    requires ByClient(step) && step.client == cl && cl in s.clients
    ensures var t := Apply(s, step); var k := s.clients[cl];
            && t.api == s.api && t.clients == s.clients[cl := ClientStep(k, step)] && t.link == s.link && t.got == s.got
            && t.owned == s.owned && t.origin == s.origin && s.queue <= t.queue
            && k.msgs <= ClientStep(k, step).msgs && ClientStep(k, step).sent == k.sent
            && (k.task.InFlight? ==> ClientStep(k, step).task.InFlight? && ClientStep(k, step).taken == k.taken)
  {
  }

  lemma ClientKeepsLink(s: System, t: System, cl: ClientId)
    requires LinkInv(s) && cl in s.clients && cl in t.clients && t.clients == s.clients[cl := t.clients[cl]]
    requires t.api == s.api && t.link == s.link && t.got == s.got && t.owned == s.owned && t.origin == s.origin
    requires s.clients[cl].task.InFlight? ==>
               t.clients[cl].task.InFlight? && t.clients[cl].taken == s.clients[cl].taken
    ensures LinkInv(t)
  {
  }

  lemma ClientKeepsInv(s: System, cl: ClientId, step: Step)
    requires ByClient(step) && step.client == cl
    requires Inv(s)
    ensures Inv(Apply(s, step)) && Grows(s, Apply(s, step))
  {
    hide L.Inv, L.Extends, OriginInv, RepliesGood, QueueInv, ClientPlace, LinkInv, ClientStep;
    var t := Apply(s, step);
    if cl in s.clients {
      var k := s.clients[cl];
      ClientStepFrame(s, cl, step);
      hide Apply;
      assert Grows(s, t) by { SameSystem(s); }
      PlaceOf(s, cl);
      ClientStepReplies(s, cl, k, step);
      RepliesStayGood(s, t, cl, ClientStep(k, step));
      ClientStepQueue(s, cl, step);
      OthersKept(s, t, cl, ClientStep(k, step));
      SameOrigin(s, t);
      ClientKeepsLink(s, t, cl);
    } else {
      assert Grows(s, t) by { SameSystem(s); }
    }
  }

  lemma ClientConnectsKeepsInv(s: System, cl: ClientId)
    requires Inv(s)
    ensures Inv(Apply(s, ClientConnects(cl))) && Grows(s, Apply(s, ClientConnects(cl)))
  {
    hide L.Inv, L.Extends, OriginInv, QueueInv;
    var t := Apply(s, ClientConnects(cl));
    assert Grows(s, t) by { SameSystem(s); }
    if cl !in s.clients {
      assert QueueInv(t) by { QueueFrame(s, t); }
      OthersKept(s, t, cl, t.clients[cl]);
      SameOrigin(s, t);
      assert LinkInv(t);
    }
  }

  lemma QueueFrame(s: System, t: System)
    requires QueueInv(s) && t.queue == s.queue
    requires forall d :: d in s.clients ==> d in t.clients && t.clients[d] == s.clients[d]
    ensures QueueInv(t)
  {
  }

  // ---- The bridge connects ----

  lemma ConnectLinks(s: System, c: L.ConnId)
    requires LinkInv(s) && s.link.Down? && c !in s.api.conns
    ensures LinkInv(Apply(s, Connect(c)))
  {
    var t := Apply(s, Connect(c));
    assert t.api.conns[c].lines == [ConnectLine];
    forall d | d in s.owned ensures d in t.api.conns && t.api.conns[d].lines == s.api.conns[d].lines {
      L.LinesKept(s.api, L.Open(c), d);
      L.LinesKept(L.Apply(s.api, L.Open(c)), L.PeerWrite(c, ConnectLine), d);
    }
  }

  lemma ConnectKeepsInv(s: System, c: L.ConnId)
    requires Inv(s)
    ensures Inv(Apply(s, Connect(c))) && Grows(s, Apply(s, Connect(c)))
  {
    hide L.Apply, L.Inv, L.Extends, ClientsInv, OriginInv, LinkInv;
    var t := Apply(s, Connect(c));
    if s.link.Down? && c !in s.api.conns {
      var withOpen := L.Apply(s.api, L.Open(c));
      L.StepKeepsInv(s.api, L.Open(c));
      L.StepKeepsInv(withOpen, L.PeerWrite(c, ConnectLine));
      L.ExtendsTrans(s.api, withOpen, t.api);
      ConnectLinks(s, c);
      SameClients(s, t);
      SameOrigin(s, t);
    } else {
      assert Grows(s, t) by { SameSystem(s); }
    }
  }

  lemma GreetingKeepsInv(s: System, step: Step)
    requires Inv(s) && (step.Greeted? || step.GreetingFails?)
    ensures Inv(Apply(s, step)) && Grows(s, Apply(s, step))
  {
    hide L.Inv, L.Extends, ClientsInv, OriginInv;
    var t := Apply(s, step);
    assert Grows(s, t) by { SameSystem(s); }
    if t != s {
      assert LinkInv(t) by { GreetedLink(s, step); }
      SameClients(s, t);
      SameOrigin(s, t);
    }
  }

  lemma GreetedLink(s: System, step: Step)
    requires L.Inv(s.api) && LinkInv(s) && (step.Greeted? || step.GreetingFails?)
    ensures LinkInv(Apply(s, step))
  {
    hide L.Inv;
    if s.link.Greeting? && s.link.conn in s.api.conns && s.got < |s.api.conns[s.link.conn].replies| {
      L.RepliesAlign(s.api, s.link.conn, s.got);
    }
  }

  // ---- The bridge sends ----

  lemma SendApi(s: System)
    requires L.Inv(s.api) && CanSend(s)
    ensures var t := ApplySend(s);
            && L.Inv(t.api) && L.Extends(s.api, t.api)
            && t.api.conns.Keys == s.api.conns.Keys
            && (forall d :: d in s.api.conns && d != s.link.conn ==> t.api.conns[d].lines == s.api.conns[d].lines)
            && t.api.conns[s.link.conn].lines
               == s.api.conns[s.link.conn].lines + [BridgeLine(s.clients[s.queue[0].0].msgs[s.queue[0].1], s.nextId)]
  {
    hide L.Inv, L.Extends, BridgeLine;
    var line := BridgeLine(s.clients[s.queue[0].0].msgs[s.queue[0].1], s.nextId);
    L.StepKeepsInv(s.api, L.PeerWrite(s.link.conn, line));
  }

  lemma SendOrigin(s: System)
    requires Inv(s) && CanSend(s)
    ensures OriginInv(ApplySend(s)) && Grows(s, ApplySend(s))
  {
    hide L.Apply, L.Inv, L.Extends, ClientsInv, OriginAt;
    var t := ApplySend(s);
    var call, c := s.queue[0], s.link.conn;
    var at := (c, |s.api.conns[c].lines|);
    SendApi(s);
    assert at !in s.origin by {
      if at in s.origin { assert LineAt(s, at).Some? by { OriginLine(s, at); } }
    }
    assert ClientPlace(s, call.0, s.clients[call.0]) by { PlaceOf(s, call.0); }
    forall b | b in t.origin ensures OriginAt(t, b) {
      if b == at {
        NewOrigin(s, t, at, call);
      } else {
        assert OriginAt(s, b);
        var (cl, j) := s.origin[b];
        OriginFields(s, b);
        OriginStays(s, t, b);
      }
    }
  }

  lemma OriginLine(s: System, at: (L.ConnId, nat))
    requires at in s.origin && OriginInv(s)
    ensures LineAt(s, at).Some?
  {
    assert OriginAt(s, at);
  }

  lemma OriginFields(s: System, at: (L.ConnId, nat))
    requires at in s.origin && OriginAt(s, at)
    ensures var (cl, j) := s.origin[at]; cl in s.clients && j in s.clients[cl].sent && s.clients[cl].sent[j] == at
  {
  }

  lemma PlaceOf(s: System, cl: ClientId)
    requires ClientsInv(s) && cl in s.clients
    ensures ClientPlace(s, cl, s.clients[cl]) && RepliesGood(s, cl, s.clients[cl])
  {
  }

  lemma NewOrigin(s: System, t: System, at: (L.ConnId, nat), call: CallRef)
    requires LinkInv(s) && CanSend(s) && t == ApplySend(s) && call == s.queue[0]
    requires at == (s.link.conn, |s.api.conns[s.link.conn].lines|)
    requires s.link.conn in t.api.conns && t.api.conns[s.link.conn].lines
             == s.api.conns[s.link.conn].lines + [BridgeLine(s.clients[call.0].msgs[call.1], s.nextId)]
    ensures at in t.origin && OriginAt(t, at)
  {
    hide L.Apply;
  }

  lemma SendLinks(s: System)
    requires Inv(s) && CanSend(s)
    ensures LinkInv(ApplySend(s)) && QueueInv(ApplySend(s))
  {
    hide L.Apply, L.Inv, L.Extends, ClientsInv, OriginInv;
    var t := ApplySend(s);
    SendApi(s);
    assert forall i :: 0 <= i < |t.queue| ==> t.queue[i] == s.queue[i + 1];
    forall i | 0 <= i < |t.queue|
      ensures var (cl, j) := t.queue[i]; cl in t.clients && t.clients[cl].task.Queued? && t.clients[cl].taken == j + 1
    {
      assert s.queue[i + 1] != s.queue[0];
    }
  }

  lemma LaunchReplies(s: System, cl: ClientId, k: Client, line: (L.ConnId, nat))
    requires RepliesGood(s, cl, k) && k.task.Queued? && k.taken > 0
    ensures RepliesGood(s, cl, Launch(k, line))
  {
    hide Good;
  }

  /** Whoever else is queued stays queued. */
  lemma QueuedStay(s: System)
    requires s.queue != []
    ensures forall d :: d in s.clients && d != s.queue[0].0 && (d, s.clients[d].taken - 1) in s.queue ==>
              (d, s.clients[d].taken - 1) in s.queue[1..]
  {
    forall d | d in s.clients && d != s.queue[0].0 && (d, s.clients[d].taken - 1) in s.queue
      ensures (d, s.clients[d].taken - 1) in s.queue[1..]
    {
      var i :| 0 <= i < |s.queue| && s.queue[i] == (d, s.clients[d].taken - 1);
      assert s.queue[1..][i - 1] == s.queue[i];
    }
  }

  lemma SendClients(s: System)
    requires Inv(s) && CanSend(s) && Grows(s, ApplySend(s))
    ensures ClientsInv(ApplySend(s))
  {
    hide L.Inv, L.Apply, L.Extends, OriginInv, RepliesGood, LinkInv, Good;
    var t := ApplySend(s);
    var cl := s.queue[0].0;
    PlaceOf(s, cl);
    LaunchReplies(s, cl, s.clients[cl], (s.link.conn, |s.api.conns[s.link.conn].lines|));
    RepliesStayGood(s, t, cl, t.clients[cl]);
    QueuedStay(s);
    OthersKept(s, t, cl, t.clients[cl]);
  }

  lemma SendKeepsInv(s: System)
    requires Inv(s) && CanSend(s)
    ensures Inv(ApplySend(s)) && Grows(s, ApplySend(s))
  {
    hide L.Inv, L.Apply, L.Extends, ClientsInv, QueueInv, OriginInv, LinkInv;
    SendApi(s);
    SendOrigin(s);
    SendLinks(s);
    SendClients(s);
  }

  // ---- The bridge receives, or gives up ----

  lemma SettleReplies(s: System, cl: ClientId, k: Client, reply: L.Reply)
    requires RepliesGood(s, cl, k) && (k.task.Queued? || k.task.InFlight?) && k.taken > 0
    requires Good(s, cl, k.taken - 1, k.msgs[k.taken - 1], reply)
    ensures RepliesGood(s, cl, Settle(k, reply))
  {
    hide Good;
  }

  lemma FailureGood(s: System, cl: ClientId, i: nat, msg: Json, code: int, text: string)
    ensures Good(s, cl, i, msg, Failure(msg, code, text))
  {
  }

  /** The call in flight is answered by the reply that its own line received. */
  lemma ReceivedGood(s: System)
    requires Inv(s) && CanReceive(s)
    ensures var call := s.link.call; var msg := s.clients[call.0].msgs[call.1];
            var reply := s.api.conns[s.link.conn].replies[s.got];
            Good(s, call.0, call.1, msg, L.Reply(reply.source, ClientResponse(msg, reply.response)))
  {
    hide L.Inv, L.IsResponseMessage, L.FromAnswer, ClientsInv, QueueInv, ClientResponse;
    var at := (s.link.conn, s.got);
    L.RepliesAlign(s.api, s.link.conn, s.got);
    assert OriginAt(s, at);
    NotConnect(MsgMethod(s.clients[s.link.call.0].msgs[s.link.call.1]));
    ResponseShape(s.clients[s.link.call.0].msgs[s.link.call.1], s.api.conns[s.link.conn].replies[s.got].response);
  }

  lemma NotConnect(m: string)
    ensures "nostr." + m != "connect"
  {
    assert ("nostr." + m)[0] == 'n';
  }

  lemma ResponseShape(msg: Json, r: L.Response)
    ensures ClientResponse(msg, r).id == MsgId(msg) && ClientResponse(msg, r).error == r.error
  {
  }

  /** What Receive and ReceiveFails have in common. */
  lemma SettleKeepsInv(s: System, t: System, reply: L.Reply)
    requires Inv(s) && CanSettle(s)
    requires Good(s, s.link.call.0, s.link.call.1, s.clients[s.link.call.0].msgs[s.link.call.1], reply)
    requires t.api == s.api && t.queue == s.queue && t.owned == s.owned && t.origin == s.origin
    requires t.clients == s.clients[s.link.call.0 := Settle(s.clients[s.link.call.0], reply)]
    requires t.link.Down? || (t.link == Ready(s.link.conn) && t.got == s.got + 1)
    ensures Inv(t) && Grows(s, t)
  {
    hide L.Inv, L.Extends, Good, OriginInv, RepliesGood;
    var cl := s.link.call.0;
    assert Grows(s, t) by { SameSystem(s); }
    PlaceOf(s, cl);
    SettleReplies(s, cl, s.clients[cl], reply);
    RepliesStayGood(s, t, cl, t.clients[cl]);
    forall d | d in s.clients && d != cl ensures !s.clients[d].task.InFlight? {
      PlaceOf(s, d);
    }
    SettledOthers(s, t, cl);
    SameOrigin(s, t);
    assert QueueInv(t);
    assert LinkInv(t);
  }

  lemma SettledOthers(s: System, t: System, cl: ClientId)
    requires ClientsInv(s) && Grows(s, t) && cl in s.clients && cl in t.clients
    requires t.clients == s.clients[cl := t.clients[cl]]
    requires forall d :: d in s.clients && d != cl ==> !s.clients[d].task.InFlight?
    requires forall d :: d in s.clients && d != cl && s.clients[d].task.Queued? ==>
               (d, s.clients[d].taken - 1) in s.queue ==> (d, s.clients[d].taken - 1) in t.queue
    requires RepliesGood(t, cl, t.clients[cl]) && ClientPlace(t, cl, t.clients[cl])
    ensures ClientsInv(t)
  {
    hide RepliesGood, L.Extends;
    forall d | d in t.clients ensures RepliesGood(t, d, t.clients[d]) && ClientPlace(t, d, t.clients[d]) {
      if d != cl {
        RepliesStayGood(s, t, d, s.clients[d]);
      }
    }
  }

  lemma ReceiveKeepsInv(s: System)
    requires Inv(s) && CanReceive(s)
    ensures Inv(ApplyReceive(s)) && Grows(s, ApplyReceive(s))
  {
    hide Inv, Grows, Good, ClientResponse;
    ReceivedGood(s);
    var call := s.link.call;
    var reply := s.api.conns[s.link.conn].replies[s.got];
    var response := ClientResponse(s.clients[call.0].msgs[call.1], reply.response);
    SettleKeepsInv(s, ApplyReceive(s), L.Reply(reply.source, response));
  }

  lemma ReceiveFailsKeepsInv(s: System)
    requires Inv(s) && CanSettle(s)
    ensures Inv(ApplyReceiveFails(s)) && Grows(s, ApplyReceiveFails(s))
  {
    hide Inv, Grows, Good, Failure;
    var call := s.link.call;
    var msg := s.clients[call.0].msgs[call.1];
    FailureGood(s, call.0, call.1, msg, -32603, "avatar connection error");
    SettleKeepsInv(s, ApplyReceiveFails(s), Failure(msg, -32603, "avatar connection error"));
  }

  lemma UnsentClients(s: System)
    requires Inv(s) && CanSend(s)
    ensures ClientsInv(ApplySendFails(s, false)) && QueueInv(ApplySendFails(s, false))
  {
    hide L.Inv, L.Extends, Good, OriginInv, RepliesGood, Failure, QueueInv;
    var t := ApplySendFails(s, false);
    var (cl, j) := s.queue[0];
    var failure := Failure(s.clients[cl].msgs[j], -32603, "avatar connection error");
    SameSystem(s);
    PlaceOf(s, cl);
    FailureGood(s, cl, j, s.clients[cl].msgs[j], -32603, "avatar connection error");
    HeadIsQueued(s);
    SettleReplies(s, cl, s.clients[cl], failure);
    RepliesStayGood(s, t, cl, t.clients[cl]);
    forall d | d in s.clients && d != cl ensures !s.clients[d].task.InFlight? {
      PlaceOf(s, d);
    }
    Popped(s, t);
    SettledOthers(s, t, cl);
  }

  lemma HeadIsQueued(s: System)
    requires QueueInv(s) && CanSend(s)
    ensures s.clients[s.queue[0].0].task.Queued?
  {
  }

  /** The write failed before the line was out. */
  lemma UnsentKeepsInv(s: System)
    requires Inv(s) && CanSend(s)
    ensures Inv(ApplySendFails(s, false)) && Grows(s, ApplySendFails(s, false))
  {
    hide L.Inv, L.Extends, OriginInv, ClientsInv, QueueInv, Failure;
    var t := ApplySendFails(s, false);
    assert Grows(s, t) by { SameSystem(s); }
    UnsentClients(s);
    SameOrigin(s, t);
  }

  /** Taking the head off the queue, its client no longer queued. */
  lemma Popped(s: System, t: System)
    requires QueueInv(s) && s.queue != [] && t.queue == s.queue[1..]
    requires t.clients.Keys == s.clients.Keys
    requires forall d :: d in s.clients && d != s.queue[0].0 ==> t.clients[d] == s.clients[d]
    ensures QueueInv(t)
    ensures forall d :: d in s.clients && d != s.queue[0].0 && (d, s.clients[d].taken - 1) in s.queue
                        ==> (d, s.clients[d].taken - 1) in t.queue
  {
    forall i | 0 <= i < |t.queue|
      ensures var (cl, j) := t.queue[i]; cl in t.clients && t.clients[cl].task.Queued? && t.clients[cl].taken == j + 1
    {
      assert t.queue[i] == s.queue[i + 1] && s.queue[i + 1] != s.queue[0];
    }
    forall d | d in s.clients && d != s.queue[0].0 && (d, s.clients[d].taken - 1) in s.queue
      ensures (d, s.clients[d].taken - 1) in t.queue
    {
      var i :| 0 <= i < |s.queue| && s.queue[i] == (d, s.clients[d].taken - 1);
      assert t.queue[i - 1] == s.queue[i];
    }
  }

  lemma SendFailsKeepsInv(s: System, delivered: bool)
    requires Inv(s) && CanSend(s)
    ensures Inv(ApplySendFails(s, delivered)) && Grows(s, ApplySendFails(s, delivered))
  {
    hide Inv, Grows, BridgeLine, L.Apply;
    if delivered {
      SendKeepsInv(s);
      ReceiveFailsKeepsInv(ApplySend(s));
      GrowsTrans(s, ApplySend(s), ApplySendFails(s, true));
    } else {
      UnsentKeepsInv(s);
    }
  }

  lemma GrowsTrans(a: System, b: System, c: System)
    requires Grows(a, b) && Grows(b, c)
    ensures Grows(a, c)
  {
    L.ExtendsTrans(a.api, b.api, c.api);
  }

  /** Every step of clients, bridge, daemon, relay and answerers keeps the invariant. */
  lemma StepKeepsInv(s: System, step: Step)
    requires Inv(s)
    ensures Inv(Apply(s, step)) && Grows(s, Apply(s, step))
  {
    hide Inv, Grows, ApplySend, ApplyReceive, ApplyReceiveFails, ApplySendFails;
    match step
    case Daemon(inner) => DaemonKeepsInv(s, inner);
    case ClientConnects(cl) => ClientConnectsKeepsInv(s, cl);
    case Connect(c) => ConnectKeepsInv(s, c);
    case Greeted => GreetingKeepsInv(s, step);
    case GreetingFails => GreetingKeepsInv(s, step);
    case Send => if CanSend(s) { SendKeepsInv(s); } else { SameSystem(s); }
    case SendFails(delivered) => if CanSend(s) { SendFailsKeepsInv(s, delivered); } else { SameSystem(s); }
    case Receive => if CanReceive(s) { ReceiveKeepsInv(s); } else { SameSystem(s); }
    case ReceiveFails => if CanSettle(s) { ReceiveFailsKeepsInv(s); } else { SameSystem(s); }
    case _ => ClientKeepsInv(s, step.client, step);
  }

  lemma {:induction false} RunKeepsInv(s: System, steps: seq<Step>)
    requires Inv(s)
    ensures Inv(Run(s, steps))
    decreases |steps|
  {
    hide Inv, Grows, Apply;
    if steps != [] {
      StepKeepsInv(s, steps[0]);
      RunKeepsInv(Apply(s, steps[0]), steps[1..]);
    }
  }

  lemma StartInv()
    ensures Inv(Start)
  {
    L.StartInv();
  }

  // ---- Theorems over every run ----

  /** In every interleaving, the j-th reply a client receives answers its j-th message,
      carries that message's id, and, unless it is an error, is the translated result of
      the answer taken for the event published for that very message. */
  lemma RepliesAreTheClientsOwn(steps: seq<Step>, cl: ClientId, j: nat)
    requires cl in Run(Start, steps).clients && j < |Run(Start, steps).clients[cl].replies|
    ensures var s := Run(Start, steps); var k := s.clients[cl]; var r := k.replies[j].response;
            && j < |k.msgs|
            && r.id == MsgId(k.msgs[j])
            && (r.error.None? ==>
                  exists e, a :: (e, a) in s.api.answers && e in s.api.took && s.api.took[e] == a
                    && PublishedAt(s, e, (cl, j)) && LineAt(s, s.api.published[e]).Some?
                    && r == ClientResponse(k.msgs[j],
                                           L.FromAnswer(L.LineId(LineAt(s, s.api.published[e]).value), a.body)))
  {
    hide ClientResponse, L.FromAnswer, L.IsResponseMessage;
    var s := Run(Start, steps);
    assert Inv(s) by { StartInv(); RunKeepsInv(Start, steps); }
    PlaceOf(s, cl);
    var k := s.clients[cl];
    assert Good(s, cl, j, k.msgs[j], k.replies[j]);
    match k.replies[j].source
    case Local =>
    case Remote(e, a) => assert (e, a) in s.api.answers;
  }

  /** What is published for a client's message is that message: its method under the
      bridge's prefix, its parameters translated. */
  lemma PublishedIsTheMessage(steps: seq<Step>, e: L.EventId, call: CallRef)
    requires PublishedAt(Run(Start, steps), e, call)
    ensures var s := Run(Start, steps);
            && call.0 in s.clients && call.1 < |s.clients[call.0].msgs|
            && LineAt(s, s.api.published[e]).Some?
            && var (line, msg) := (LineAt(s, s.api.published[e]).value, s.clients[call.0].msgs[call.1]);
               && line.rpcMethod == Some("nostr." + MsgMethod(msg))
               && line.params == T.TranslateRequest(MsgMethod(msg), GetOr(msg, "params", Obj(map[])))
  {
    var s := Run(Start, steps);
    hide Run, ClientsInv, QueueInv, LinkInv, L.Inv;
    assert OriginInv(s) by { StartInv(); RunKeepsInv(Start, steps); }
    assert OriginAt(s, s.api.published[e]);
  }

  /** A client's message is published at most once, whatever connections are lost. */
  lemma PublishedAtMostOnce(steps: seq<Step>, e: L.EventId, f: L.EventId, call: CallRef)
    requires var s := Run(Start, steps); PublishedAt(s, e, call) && PublishedAt(s, f, call)
    ensures e == f
  {
    var s := Run(Start, steps);
    hide Run, ClientsInv, QueueInv, LinkInv, L.ConnsInv, L.PendingInv, L.HandedInv;
    assert Inv(s) by { StartInv(); RunKeepsInv(Start, steps); }
    OriginFields(s, s.api.published[e]);
    OriginFields(s, s.api.published[f]);
  }

  /** No waiting client is forgotten: its call is on the queue or in flight. */
  lemma WaitingClientsAreHeld(steps: seq<Step>, cl: ClientId)
    requires cl in Run(Start, steps).clients
    ensures var s := Run(Start, steps); var k := s.clients[cl];
            && (k.task.Queued? ==> k.taken > 0 && (cl, k.taken - 1) in s.queue)
            && (k.task.InFlight? ==> k.taken > 0 && s.link.Busy? && s.link.call == (cl, k.taken - 1))
  {
    hide RepliesGood;
    var s := Run(Start, steps);
    assert Inv(s) by { StartInv(); RunKeepsInv(Start, steps); }
    PlaceOf(s, cl);
  }

  // ---- The daemon under the bridge ----

  /** What a step of the system makes the daemon do. */
  function DaemonSteps(s: System, step: Step): seq<L.Step> {
    match step
    case Daemon(inner) => if Foreign(s, inner) then [inner] else []
    case Connect(c) => if !s.link.Down? || c in s.api.conns then [] else [L.Open(c), L.PeerWrite(c, ConnectLine)]
    case Send => if CanSend(s) then [SentLine(s)] else []
    case SendFails(delivered) => if CanSend(s) && delivered then [SentLine(s)] else []
    case _ => []
  }

  function SentLine(s: System): L.Step
    requires CanSend(s)
  {
    L.PeerWrite(s.link.conn, BridgeLine(s.clients[s.queue[0].0].msgs[s.queue[0].1], s.nextId))
  }

  function DaemonTrace(s: System, steps: seq<Step>): seq<L.Step>
    decreases |steps|
  {
    if steps == [] then [] else DaemonSteps(s, steps[0]) + DaemonTrace(Apply(s, steps[0]), steps[1..])
  }

  lemma StepIsDaemonSteps(s: System, step: Step)
    ensures Apply(s, step).api == L.Run(s.api, DaemonSteps(s, step))
  {
    hide L.Apply, L.Run, BridgeLine;
    L.RunNothing(s.api);
    match step
    case Daemon(inner) => L.RunTwo(s.api, inner, inner);
    case Connect(c) => L.RunTwo(s.api, L.Open(c), L.PeerWrite(c, ConnectLine));
    case Send => if CanSend(s) { L.RunTwo(s.api, SentLine(s), SentLine(s)); }
    case SendFails(_) => if CanSend(s) { L.RunTwo(s.api, SentLine(s), SentLine(s)); }
    case _ =>
  }

  /** The daemon under the bridge is the daemon of LocalApi, so whatever holds over every
      run there holds here. */
  lemma {:induction false} DaemonIsALocalApiRun(s: System, steps: seq<Step>)
    ensures Run(s, steps).api == L.Run(s.api, DaemonTrace(s, steps))
    decreases |steps|
  {
    hide Apply, DaemonSteps, L.Apply;
    if steps != [] {
      StepIsDaemonSteps(s, steps[0]);
      DaemonIsALocalApiRun(Apply(s, steps[0]), steps[1..]);
      L.RunConcat(s.api, DaemonSteps(s, steps[0]), DaemonTrace(Apply(s, steps[0]), steps[1..]));
    }
  }

  /** A client's reply made from an answer is an error exactly when the answer carries an
      error and an `id`; and its author is whoever's answer was delivered while the waiter
      of that event listened. */
  lemma AnswersReachTheClient(steps: seq<Step>, cl: ClientId, j: nat)
    requires cl in Run(Start, steps).clients && j < |Run(Start, steps).clients[cl].replies|
    requires Run(Start, steps).clients[cl].replies[j].source.Remote?
    ensures var r := Run(Start, steps).clients[cl].replies[j]; var a := r.source.answer;
            && (r.response.error.Some? <==> GetNonNull(a.body, "error").Some? && Get(a.body, "id").Some?)
            && exists i :: L.Heard(DaemonTrace(Start, steps), i, r.source.event, a)
  {
    hide Run, ClientResponse, L.FromAnswer, L.IsResponseMessage, L.Heard, DaemonTrace;
    var s := Run(Start, steps);
    assert Inv(s) by { StartInv(); RunKeepsInv(Start, steps); }
    PlaceOf(s, cl);
    var k := s.clients[cl];
    var Remote(e, a) := k.replies[j].source;
    assert Good(s, cl, j, k.msgs[j], k.replies[j]);
    var id := L.LineId(LineAt(s, s.api.published[e]).value);
    ResponseShape(k.msgs[j], L.FromAnswer(id, a.body));
    L.ErrorSurfacesIffAnswerHasId(id, a.body);
    DaemonIsALocalApiRun(Start, steps);
    L.TookIffHeard(DaemonTrace(Start, steps), e, a);
  }

  /** What an answer says is what the client hears: its result, translated for the method of
      the client's message, under that message's id, with the code and message of its error. */
  lemma ResultsReachTheClient(steps: seq<Step>, cl: ClientId, j: nat)
    requires cl in Run(Start, steps).clients && j < |Run(Start, steps).clients[cl].replies|
    requires Run(Start, steps).clients[cl].replies[j].source.Remote?
    ensures var k := Run(Start, steps).clients[cl];
            var r, a := k.replies[j].response, k.replies[j].source.answer.body;
            && j < |k.msgs|
            && var name := match GetStr(k.msgs[j], "method") case Some(name) => name case None => "";
               && r.id == (match Get(k.msgs[j], "id") case Some(id) => id case None => Null)
               && (Get(a, "id").Some? ==>
                     && (r.result.Some? <==> GetNonNull(a, "result").Some?)
                     && (r.result.Some? ==> r.result.value == T.TranslateResult(name, GetNonNull(a, "result").value))
                     && (r.error.Some? <==> GetNonNull(a, "error").Some?)
                     && (r.error.Some? ==>
                           && Get(GetNonNull(a, "error").value, "code") == Some(Int(r.error.value.code))
                           && Get(GetNonNull(a, "error").value, "message") == Some(Str(r.error.value.message))))
               && (Get(a, "id").None? ==> r.result == Some(T.TranslateResult(name, a)) && r.error == None)
  {
    hide Run, ClientResponse, L.FromAnswer, L.IsResponseMessage, T.TranslateResult, L.Inv, QueueInv, LinkInv, OriginInv;
    var s := Run(Start, steps);
    assert Inv(s) by { StartInv(); RunKeepsInv(Start, steps); }
    PlaceOf(s, cl);
    var k := s.clients[cl];
    var Remote(e, a) := k.replies[j].source;
    assert Good(s, cl, j, k.msgs[j], k.replies[j]);
    var id := L.LineId(LineAt(s, s.api.published[e]).value);
    L.Forwarded(id, a.body);
    Translated(k.msgs[j], L.FromAnswer(id, a.body));
  }

  lemma Translated(msg: Json, r: L.Response)
    ensures var c := ClientResponse(msg, r);
            var name := match GetStr(msg, "method") case Some(name) => name case None => "";
            && c.id == (match Get(msg, "id") case Some(id) => id case None => Null) && c.error == r.error
            && (c.result.Some? <==> r.result.Some?)
            && (r.result.Some? ==> c.result.value == T.TranslateResult(name, r.result.value))
  {
    hide T.TranslateResult;
  }

  // ---- One whole exchange ----

  lemma {:induction false} RunConcat(s: System, first: seq<Step>, more: seq<Step>)
    ensures Run(s, first + more) == Run(Run(s, first), more)
    decreases |first|
  {
    hide Apply;
    if first == [] {
      assert first + more == more;
    } else {
      assert (first + more)[1..] == first[1..] + more;
      RunConcat(Apply(s, first[0]), first[1..], more);
    }
  }

  lemma RunTwo(s: System, a: Step, b: Step)
    ensures Run(s, [a, b]) == Apply(Apply(s, a), b)
  {
    hide Apply;
    assert [a][1..] == [] && [b][1..] == [] && [a] + [b] == [a, b];
    RunConcat(s, [a], [b]);
  }

  lemma RunThree(s: System, a: Step, b: Step, c: Step)
    ensures Run(s, [a, b, c]) == Apply(Apply(Apply(s, a), b), c)
  {
    hide Apply, Run;
    assert [a, b] + [c] == [a, b, c] && [c][1..] == [];
    RunConcat(s, [a, b], [c]);
    RunTwo(s, a, b);
    RunOne(Apply(Apply(s, a), b), c);
  }

  lemma RunOne(s: System, a: Step)
    ensures Run(s, [a]) == Apply(s, a)
  {
    hide Apply;
    assert [a][1..] == [];
  }

  // A client sends one message; the bridge connects and sends it on as event 5; an answer
  // arrives and goes all the way back.

  function Asking(msg: Json): seq<Step> {
    [ClientConnects(0), ClientSends(0, msg), ClientTakes(0)]
  }

  const Connecting := [Connect(0), Daemon(L.Take(0, L.NoChannel))]
  const Welcoming := [Daemon(L.WriteBack(0, true)), Greeted]
  const Sending := [Send, Daemon(L.Take(0, L.Published(5))), Daemon(L.Register(0))]

  function Answering(a: L.Answer): seq<Step> {
    [Daemon(L.SendsAnswer(5, a)), Daemon(L.Deliver(5, a))]
  }

  const Returning := [Daemon(L.Resume(0)), Daemon(L.WriteBack(0, true))]
  const Replying := [Receive, ClientReplies(0, true)]

  function Exchange(msg: Json, a: L.Answer): seq<Step> {
    Asking(msg) + Connecting + Welcoming + Sending + Answering(a) + Returning + Replying
  }

  const Ack := L.Reply(L.Local, L.ConnectAck(ConnectLine))

  function Asked(msg: Json): System {
    System(L.Start, map[0 := Client([msg], 1, Queued, map[], [])], [(0, 0)], Down, 0, 2, {}, map[])
  }

  function Connected(msg: Json): System {
    System(L.Api(map[0 := L.Conn([ConnectLine], 1, Some("nostr"), L.Writing(Ack), map[], [], [])],
                 map[], map[], {}, multiset{}, map[]),
           map[0 := Client([msg], 1, Queued, map[], [])], [(0, 0)], Greeting(0), 0, 2, {0}, map[])
  }

  function Welcomed(msg: Json): System {
    System(L.Api(map[0 := L.Conn([ConnectLine], 1, Some("nostr"), L.Reading, map[], [0], [Ack])],
                 map[], map[], {}, multiset{}, map[]),
           map[0 := Client([msg], 1, Queued, map[], [])], [(0, 0)], Ready(0), 1, 2, {0}, map[])
  }

  function Flying(api: L.Api, msg: Json): System {
    System(api, map[0 := Client([msg], 1, InFlight, map[0 := (0, 1)], [])], [], Busy(0, (0, 0)), 1, 3, {0},
           map[(0, 1) := (0, 0)])
  }

  /** The daemon's connection once the message is a line on it. */
  function Line2(msg: Json, taken: nat, task: L.Task, answered: seq<nat>, replies: seq<L.Reply>): L.Conn {
    L.Conn([ConnectLine, BridgeLine(msg, 2)], taken, Some("nostr"), task,
           if taken == 2 then map[1 := 5] else map[], answered, replies)
  }

  function Sent(msg: Json): System {
    Flying(L.Api(map[0 := Line2(msg, 2, L.Waiting(5), [0], [Ack])],
                 map[5 := 0], map[5 := (0, 1)], {}, multiset{}, map[]), msg)
  }

  function Answered(msg: Json, a: L.Answer): System {
    Flying(L.Api(map[0 := Line2(msg, 2, L.Filled(5, a), [0], [Ack])], map[], map[5 := (0, 1)], {(5, a)}, multiset{5},
                 map[5 := a]), msg)
  }

  function Returned(msg: Json, a: L.Answer): System {
    var reply := L.Reply(L.Remote(5, a), L.FromAnswer(Int(2), a.body));
    Flying(L.Api(map[0 := Line2(msg, 2, L.Reading, [0, 1], [Ack, reply])],
                 map[], map[5 := (0, 1)], {(5, a)}, multiset{5}, map[5 := a]), msg)
  }

  lemma AskingLeads(msg: Json)
    requires GetStr(msg, "method").Some?
    ensures Run(Start, Asking(msg)) == Asked(msg)
  {
    hide Run;
    RunThree(Start, ClientConnects(0), ClientSends(0, msg), ClientTakes(0));
    var s1 := Apply(Start, ClientConnects(0));
    assert s1.clients == map[0 := Client([], 0, Reading, map[], [])];
    var s2 := Apply(s1, ClientSends(0, msg));
    assert [] + [msg] == [msg];
    assert s2.clients == map[0 := Client([msg], 0, Reading, map[], [])];
    var s3 := Apply(s2, ClientTakes(0));
    assert s3.clients == map[0 := Client([msg], 1, Queued, map[], [])];
    assert s3.queue == [(0, 0)];
  }

  lemma ConnectingLeads(msg: Json)
    ensures Run(Asked(msg), Connecting) == Connected(msg)
  {
    hide Run;
    RunTwo(Asked(msg), Connect(0), Daemon(L.Take(0, L.NoChannel)));
    assert "nostr" != "";
    assert L.Dispatch(None, ConnectLine) == L.Say(Some("nostr"), L.ConnectAck(ConnectLine));
    var unbound := L.Apply(L.Start, L.Open(0));
    assert unbound.conns == map[0 := L.Conn([], 0, None, L.Reading, map[], [], [])];
    var s1 := Apply(Asked(msg), Connect(0));
    assert s1.api == L.Apply(unbound, L.PeerWrite(0, ConnectLine));
    assert [] + [ConnectLine] == [ConnectLine];
    assert s1.api.conns == map[0 := L.Conn([ConnectLine], 0, None, L.Reading, map[], [], [])];
    var s2 := Apply(s1, Daemon(L.Take(0, L.NoChannel)));
    assert s2.api.conns == map[0 := L.Conn([ConnectLine], 1, Some("nostr"), L.Writing(Ack), map[], [], [])];
    assert s2.owned == {0};
  }

  lemma WelcomingLeads(msg: Json)
    ensures Run(Connected(msg), Welcoming) == Welcomed(msg)
  {
    hide Run;
    RunTwo(Connected(msg), Daemon(L.WriteBack(0, true)), Greeted);
    var s1 := Apply(Connected(msg), Daemon(L.WriteBack(0, true)));
    assert [] + [0] == [0] && [] + [Ack] == [Ack];
    assert s1.api.conns == map[0 := L.Conn([ConnectLine], 1, Some("nostr"), L.Reading, map[], [0], [Ack])];
  }

  function Lined(msg: Json): System {
    Flying(L.Api(map[0 := Line2(msg, 1, L.Reading, [0], [Ack])], map[], map[], {}, multiset{}, map[]), msg)
  }

  function Published5(msg: Json): System {
    Flying(L.Api(map[0 := Line2(msg, 2, L.Sent(5), [0], [Ack])], map[], map[5 := (0, 1)], {}, multiset{}, map[]), msg)
  }

  lemma SendLeads(msg: Json)
    ensures Apply(Welcomed(msg), Send) == Lined(msg)
  {
    hide BridgeLine;
    var s := Apply(Welcomed(msg), Send);
    assert [ConnectLine] + [BridgeLine(msg, 2)] == [ConnectLine, BridgeLine(msg, 2)];
    assert s.api.conns == map[0 := Line2(msg, 1, L.Reading, [0], [Ack])];
    assert s.clients == map[0 := Client([msg], 1, InFlight, map[0 := (0, 1)], [])];
    assert s.origin == map[(0, 1) := (0, 0)] && s.queue == [];
  }

  lemma PublishLeads(msg: Json)
    ensures Apply(Lined(msg), Daemon(L.Take(0, L.Published(5)))) == Published5(msg)
  {
    hide BridgeLine, L.Dispatch, L.IsResponseMessage, ClientStep, MsgMethod;
    BridgeLineForwards(msg);
  }

  lemma BridgeLineForwards(msg: Json)
    ensures L.Dispatch(Some("nostr"), BridgeLine(msg, 2)) == L.Forward("nostr")
  {
    hide T.TranslateRequest, MsgMethod;
    NotConnect(MsgMethod(msg));
  }

  lemma RegisterLeads(msg: Json)
    ensures Apply(Published5(msg), Daemon(L.Register(0))) == Sent(msg)
  {
    hide BridgeLine;
  }

  lemma SendingLeads(msg: Json)
    ensures Run(Welcomed(msg), Sending) == Sent(msg)
  {
    hide Run, Apply, Welcomed, Lined, Published5, Sent;
    RunThree(Welcomed(msg), Send, Daemon(L.Take(0, L.Published(5))), Daemon(L.Register(0)));
    SendLeads(msg);
    PublishLeads(msg);
    RegisterLeads(msg);
  }

  lemma AnsweringLeads(msg: Json, a: L.Answer)
    requires L.IsResponseMessage(a.body)
    ensures Run(Sent(msg), Answering(a)) == Answered(msg, a)
  {
    hide Run, BridgeLine, L.IsResponseMessage;
    RunTwo(Sent(msg), Daemon(L.SendsAnswer(5, a)), Daemon(L.Deliver(5, a)));
  }

  lemma ReturningLeads(msg: Json, a: L.Answer)
    ensures Run(Answered(msg, a), Returning) == Returned(msg, a)
  {
    hide Run, L.FromAnswer, T.TranslateRequest;
    RunTwo(Answered(msg, a), Daemon(L.Resume(0)), Daemon(L.WriteBack(0, true)));
    var reply := L.Reply(L.Remote(5, a), L.FromAnswer(Int(2), a.body));
    var s1 := Apply(Answered(msg, a), Daemon(L.Resume(0)));
    assert s1.api.conns == map[0 := Line2(msg, 2, L.Writing(reply), [0], [Ack])];
    var s2 := Apply(s1, Daemon(L.WriteBack(0, true)));
    assert [Ack] + [reply] == [Ack, reply] && [0] + [1] == [0, 1];
    assert s2.api.conns == map[0 := Line2(msg, 2, L.Reading, [0, 1], [Ack, reply])];
  }

  lemma ReplyingLeads(msg: Json, a: L.Answer)
    ensures Run(Returned(msg, a), Replying).clients ==
      map[0 := Client([msg], 1, Reading, map[0 := (0, 1)],
                      [L.Reply(L.Remote(5, a), ClientResponse(msg, L.FromAnswer(Int(2), a.body)))])]
  {
    hide Run, L.FromAnswer, ClientResponse, BridgeLine;
    RunTwo(Returned(msg, a), Receive, ClientReplies(0, true));
    var reply := L.Reply(L.Remote(5, a), ClientResponse(msg, L.FromAnswer(Int(2), a.body)));
    var s1 := Apply(Returned(msg, a), Receive);
    assert s1.clients == map[0 := Client([msg], 1, Writing(reply), map[0 := (0, 1)], [])];
    var s2 := Apply(s1, ClientReplies(0, true));
    assert [] + [reply] == [reply];
    assert s2.clients == map[0 := Client([msg], 1, Reading, map[0 := (0, 1)], [reply])];
  }

  /** Whatever is answered, by whomever, there is a run in which it reaches the client. */
  lemma AnyAnswerReachesTheClient(msg: Json, a: L.Answer)
    requires GetStr(msg, "method").Some? && L.IsResponseMessage(a.body)
    ensures var s := Run(Start, Exchange(msg, a));
            0 in s.clients
            && s.clients[0].replies == [L.Reply(L.Remote(5, a), ClientResponse(msg, L.FromAnswer(Int(2), a.body)))]
  {
    hide Run, L.FromAnswer, ClientResponse, L.IsResponseMessage, Asked, Connected, Welcomed, Sent, Answered, Returned,
         Asking, Answering;
    var upTo := Asking(msg);
    AskingLeads(msg);
    RunConcat(Start, upTo, Connecting);
    ConnectingLeads(msg);
    RunConcat(Start, upTo + Connecting, Welcoming);
    WelcomingLeads(msg);
    RunConcat(Start, upTo + Connecting + Welcoming, Sending);
    SendingLeads(msg);
    RunConcat(Start, upTo + Connecting + Welcoming + Sending, Answering(a));
    AnsweringLeads(msg, a);
    RunConcat(Start, upTo + Connecting + Welcoming + Sending + Answering(a), Returning);
    ReturningLeads(msg, a);
    RunConcat(Start, upTo + Connecting + Welcoming + Sending + Answering(a) + Returning, Replying);
    ReplyingLeads(msg, a);
  }

  /** A concrete run: an error without an `id`, from any author, is a success to the client. */
  lemma ErrorWithoutIdBecomesSuccess(author: L.PubKey)
    ensures var msg := Obj(map["method" := Str("sign_event"), "id" := Int(7)]);
            var refusal := Obj(map["jsonrpc" := Str("2.0"),
                                   "error" := Obj(map["code" := Int(-32000), "message" := Str("denied")])]);
            var s := Run(Start, Exchange(msg, L.Answer(author, refusal)));
            && 0 in s.clients && |s.clients[0].replies| == 1
            && var r := s.clients[0].replies[0];
               r.source == L.Remote(5, L.Answer(author, refusal)) && r.response.id == Int(7)
               && r.response.error == None && r.response.result.Some?
  {
    hide Run, Exchange, T.TranslateResult;
    var msg := Obj(map["method" := Str("sign_event"), "id" := Int(7)]);
    var refusal := Obj(map["jsonrpc" := Str("2.0"),
                           "error" := Obj(map["code" := Int(-32000), "message" := Str("denied")])]);
    AnyAnswerReachesTheClient(msg, L.Answer(author, refusal));
  }
}
