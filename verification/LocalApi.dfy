/** The daemon's local API (crates/avatar/src/local_api.rs) and the reply side of its
    event loop (handle_response in crates/avatar/src/main.rs).

    One task serves each local connection; all tasks share the pending-reply map; answers
    travel over a relay that may lose, delay, repeat and reorder them. Whoever can encrypt to
    the daemon's public key can answer an event: neither handle_event nor handle_response
    looks at the author, so an answer here is by anybody.
    The system is a state machine whose steps are the points where a task can be
    interrupted. A step that is not enabled leaves the state as it is, so a run is any
    sequence of steps whatever. `published`, `answers`, `handed`, `took` and the per-connection
    `lines`, `answered` and `replies` only ever grow: they are the history that the
    theorems speak about. */
module LocalApi {
  import opened Common
  import opened JsonValues

  type EventId = nat
  type ConnId = nat
  type PubKey = nat

  /** A decrypted answer to an event, and the key its event is signed with. */
  datatype Answer = Answer(author: PubKey, body: Json)

  // ---- JSON-RPC messages ----

  datatype RpcError = RpcError(code: int, message: string)

  datatype Response = Response(result: Option<Json>, error: Option<RpcError>, id: Json)

  /** One line a peer writes to the daemon, as JsonRpcMessage reads it. */
  datatype Line = Line(rpcMethod: Option<string>, params: Json, id: Option<Json>)

  const INTERNAL_ERROR := -32603
  const NO_SESSION := -32001
  const SEND_FAILED := -32002
  const TIMEOUT := -32003

  function Success(id: Json, result: Json): Response {
    Response(Some(result), None, id)
  }

  function Error(id: Json, code: int, message: string): Response {
    Response(None, Some(RpcError(code, message)), id)
  }

  function LineId(line: Line): Json {
    match line.id case Some(v) => v case None => Null
  }

  // ---- Answers ----

  /** The error member of a message, when serde can read it as JsonRpcError. */
  function ReadError(v: Json): Option<RpcError> {
    match (Get(v, "code"), Get(v, "message"))
    case (Some(Int(c)), Some(Str(m))) => Some(RpcError(c, m))
    case _ => None
  }

  function AnswerError(a: Json): Option<RpcError> {
    match GetNonNull(a, "error") case Some(v) => ReadError(v) case None => None
  }

  /** A plaintext that handle_event passes on to handle_response: it reads as a
      JsonRpcMessage and carries a result or an error. */
  predicate IsResponseMessage(a: Json) {
    && a.Obj?
    && GetStr(a, "jsonrpc").Some?
    && (GetNonNull(a, "method").Some? ==> GetStr(a, "method").Some?)
    && (GetNonNull(a, "error").Some? ==> AnswerError(a).Some?)
    && (GetNonNull(a, "result").Some? || GetNonNull(a, "error").Some?)
  }

  /** What forward_to_nostr makes of an answer: JsonRpcResponse insists on an
      `id` member, and an answer without one is wrapped whole as a result. */
  function FromAnswer(requestId: Json, a: Json): Response {
    match Get(a, "id")
    case Some(id) => Response(GetNonNull(a, "result"), AnswerError(a), id)
    case None => Success(requestId, a)
  }

  lemma ErrorSurfacesIffAnswerHasId(requestId: Json, a: Json)
    requires IsResponseMessage(a)
    ensures FromAnswer(requestId, a).error.Some? <==> GetNonNull(a, "error").Some? && Get(a, "id").Some?
  {
  }

  // ---- Reading one request line ----

  datatype Decision =
    | Ignore
    | Say(bound: Option<string>, response: Response)
    | Forward(service: string)

  function OrEmpty(s: Option<string>): string {
    match s case Some(v) => v case None => ""
  }

  function ConnectAck(line: Line): Response {
    Success(LineId(line), Obj(map["npub" := Str(OrEmpty(GetStr(line.params, "npub")))]))
  }

  /** What handle_connection does with the next line, given the bound service. */
  function Dispatch(bound: Option<string>, line: Line): Decision {
    if line.rpcMethod.None? then Ignore
    else if line.rpcMethod.value == "connect" then
      var kind := OrEmpty(GetStr(line.params, "type"));
      if kind == "" then Say(bound, Error(LineId(line), INTERNAL_ERROR, "connect requires 'type' param"))
      else Say(Some(kind), ConnectAck(line))
    else if bound.None? then Say(bound, Error(LineId(line), INTERNAL_ERROR, "must send 'connect' first"))
    else Forward(bound.value)
  }

  // ---- State ----

  /** Where the text of a reply came from. */
  datatype Source = Local | Remote(event: EventId, answer: Answer)

  datatype Reply = Reply(source: Source, response: Response)

  /** Where a connection's task stands. Between Sent and Waiting the request is already
      published but its waiter is not yet in the pending map. */
  datatype Task =
    | Reading
    | Sent(event: EventId)
    | Waiting(event: EventId)
    | Filled(event: EventId, answer: Answer)
    | Expired(event: EventId)
    | Writing(reply: Reply)
    | Closed(done: nat)

  datatype Conn = Conn(
    lines: seq<Line>,        // everything the peer has written
    taken: nat,              // how many of these lines the task has read
    bound: Option<string>,
    task: Task,
    events: map<nat, EventId>, // the event published for a line, if any
    answered: seq<nat>,      // for each reply, the index of the line it answers
    replies: seq<Reply>)     // everything the task has written back

  datatype Api = Api(
    conns: map<ConnId, Conn>,
    pending: map<EventId, ConnId>,
    published: map<EventId, (ConnId, nat)>,
    answers: set<(EventId, Answer)>,
    handed: multiset<EventId>,     // how often a waiter of the event was handed an answer
    took: map<EventId, Answer>)    // the answer that waiter was handed

  const Start := Api(map[], map[], map[], {}, multiset{}, map[])

  // ---- Steps ----

  /** What became of a forwarded request before its waiter is registered. */
  datatype Sending = NoChannel | SendFailed | Published(event: EventId)

  datatype Step =
    | Open(conn: ConnId)
    | PeerWrite(conn: ConnId, line: Line)
    | Take(conn: ConnId, sending: Sending)
    | Register(conn: ConnId)
    | SendsAnswer(event: EventId, answer: Answer)
    | Deliver(event: EventId, answer: Answer)
    | TimerFires(conn: ConnId)
    | Reap(conn: ConnId)
    | Resume(conn: ConnId)
    | WriteBack(conn: ConnId, ok: bool)
    | ReadFails(conn: ConnId)

  function OwnError(line: Line, code: int, message: string): Reply {
    Reply(Local, Error(LineId(line), code, message))
  }

  predicate Publishes(api: Api, k: Conn, sending: Sending)
    requires k.taken < |k.lines|
  {
    Dispatch(k.bound, k.lines[k.taken]).Forward? && sending.Published? && sending.event !in api.published
  }

  /** The task reads its next line and acts on it, up to the point where the request is
      published or the reply is known. */
  function Took(k: Conn, sending: Sending): Conn
    requires k.taken < |k.lines|
  {
    var line := k.lines[k.taken];
    match Dispatch(k.bound, line)
    case Ignore => k.(taken := k.taken + 1)
    case Say(bound, response) => k.(taken := k.taken + 1, bound := bound, task := Writing(Reply(Local, response)))
    case Forward(_) =>
      match sending
      case NoChannel =>
        k.(taken := k.taken + 1, task := Writing(OwnError(line, NO_SESSION, "no service channel available")))
      case SendFailed =>
        k.(taken := k.taken + 1, task := Writing(OwnError(line, SEND_FAILED, "failed to send request")))
      case Published(e) =>
        k.(taken := k.taken + 1, task := Sent(e), events := k.events[k.taken := e])
  }

  predicate CanTake(api: Api, c: ConnId, sending: Sending) {
    && c in api.conns
    && api.conns[c].task == Reading
    && api.conns[c].taken < |api.conns[c].lines|
    && (sending.Published? ==> sending.event !in api.published)
  }

  function ApplyTake(api: Api, c: ConnId, sending: Sending): Api {
    if !CanTake(api, c, sending) then api else
    var k := api.conns[c];
    Api(api.conns[c := Took(k, sending)],
        api.pending,
        if Publishes(api, k, sending) then api.published[sending.event := (c, k.taken)] else api.published,
        api.answers, api.handed, api.took)
  }

  /** The oneshot receives the answer unless its receiver is already gone. */
  function Received(k: Conn, e: EventId, a: Answer): Conn {
    if k.task == Waiting(e) then k.(task := Filled(e, a)) else k
  }

  predicate CanDeliver(api: Api, e: EventId, a: Answer) {
    (e, a) in api.answers && IsResponseMessage(a.body) && e in api.pending && api.pending[e] in api.conns
  }

  /** handle_response: the entry leaves the map and its sender is used. */
  function ApplyDeliver(api: Api, e: EventId, a: Answer): Api {
    if !CanDeliver(api, e, a) then api else
    var c := api.pending[e];
    var k := api.conns[c];
    Api(api.conns[c := Received(k, e, a)], api.pending - {e}, api.published, api.answers,
        if k.task == Waiting(e) then api.handed + multiset{e} else api.handed,
        if k.task == Waiting(e) then api.took[e := a] else api.took)
  }

  /** The steps that only move the task of one connection. */
  function Moved(k: Conn, step: Step): Conn {
    match (step, k.task)
    case (Register(_), Sent(e)) => k.(task := Waiting(e))
    case (TimerFires(_), Waiting(e)) => k.(task := Expired(e))
    case (Reap(_), Expired(_)) =>
      if !OnRequest(k) then k else k.(task := Writing(OwnError(k.lines[k.taken - 1], TIMEOUT, "timeout")))
    case (Resume(_), Filled(e, a)) =>
      if !OnRequest(k) then k else
      k.(task := Writing(Reply(Remote(e, a), FromAnswer(LineId(k.lines[k.taken - 1]), a.body))))
    case (WriteBack(_, ok), Writing(reply)) =>
      if !OnRequest(k) then k
      else if ok then
        k.(task := Reading, answered := k.answered + [k.taken - 1], replies := k.replies + [reply])
      else k.(task := Closed(k.taken - 1))
    case (ReadFails(_), Reading) => k.(task := Closed(k.taken))
    case (PeerWrite(_, line), _) => k.(lines := k.lines + [line])
    case _ => k
  }

  predicate OnRequest(k: Conn) {
    0 < k.taken <= |k.lines| && k.lines[k.taken - 1].rpcMethod.Some?
  }

  function MovedPending(api: Api, step: Step): map<EventId, ConnId>
    requires !step.SendsAnswer? && !step.Deliver? && step.conn in api.conns
  {
    match (step, api.conns[step.conn].task)
    case (Register(c), Sent(e)) => api.pending[e := c]
    case (Reap(_), Expired(e)) => api.pending - {e}
    case _ => api.pending
  }

  function Apply(api: Api, step: Step): Api {
    match step
    case Open(c) =>
      if c in api.conns then api else
      Api(api.conns[c := Conn([], 0, None, Reading, map[], [], [])],
          api.pending, api.published, api.answers, api.handed, api.took)
    case Take(c, sending) => ApplyTake(api, c, sending)
    case SendsAnswer(e, a) =>
      Api(api.conns, api.pending, api.published, api.answers + {(e, a)}, api.handed, api.took)
    case Deliver(e, a) => ApplyDeliver(api, e, a)
    case _ =>
      if step.conn !in api.conns then api else
      Api(api.conns[step.conn := Moved(api.conns[step.conn], step)], MovedPending(api, step),
          api.published, api.answers, api.handed, api.took)
  }

  function Run(api: Api, steps: seq<Step>): Api
    decreases |steps|
  {
    if steps == [] then api else Run(Apply(api, steps[0]), steps[1..])
  }

  // ---- What a correct reply is ----

  predicate Busy(t: Task) {
    !t.Reading? && !t.Closed?
  }

  function Done(k: Conn): int {
    match k.task
    case Closed(d) => d
    case Reading => k.taken
    case _ => k.taken - 1
  }

  /** The indices of the first n lines that are requests, in order. */
  function RequestsIn(lines: seq<Line>, n: nat): seq<nat>
    requires n <= |lines|
  {
    if n == 0 then []
    else RequestsIn(lines, n - 1) + (if lines[n - 1].rpcMethod.Some? then [n - 1] else [])
  }

  /** A reply to a line: an error of the daemon's own or a connect acknowledgement,
      always under the line's own id, or the one answer handed to the waiter of the event
      published for exactly this line. */
  ghost predicate Justified(api: Api, c: ConnId, i: nat, line: Line, reply: Reply) {
    match reply.source
    case Local =>
      || (reply.response.error.Some? && reply.response.id == LineId(line))
      || (line.rpcMethod == Some("connect") && reply.response == ConnectAck(line))
    case Remote(e, a) =>
      && (e, a) in api.answers && IsResponseMessage(a.body) && e in api.took && api.took[e] == a
      && e in api.published && api.published[e] == (c, i)
      && reply.response == FromAnswer(LineId(line), a.body)
  }

  // ---- The invariant ----

  /** The task's place agrees with the shared maps. */
  ghost predicate TaskInv(api: Api, c: ConnId, k: Conn) {
    match k.task
    case Reading => true
    case Closed(_) => true
    case Sent(e) => Owns(api, c, k, e) && e !in api.handed
    case Waiting(e) => Owns(api, c, k, e) && e !in api.handed && e in api.pending && api.pending[e] == c
    case Expired(e) => Owns(api, c, k, e)
    case Filled(e, a) =>
      Owns(api, c, k, e) && (e, a) in api.answers && IsResponseMessage(a.body) && e in api.took && api.took[e] == a
    case Writing(reply) => OnRequest(k) && Justified(api, c, k.taken - 1, k.lines[k.taken - 1], reply)
  }

  ghost predicate Owns(api: Api, c: ConnId, k: Conn, e: EventId) {
    OnRequest(k) && e in api.published && api.published[e] == (c, k.taken - 1)
  }

  /** The replies, in order, answer exactly the request lines dealt with so far. */
  ghost predicate RepliesInv(api: Api, c: ConnId, k: Conn) {
    && 0 <= Done(k) <= k.taken <= |k.lines|
    && k.answered == RequestsIn(k.lines, Done(k))
    && |k.replies| == |k.answered|
    && (forall j :: 0 <= j < |k.answered| ==> k.answered[j] < |k.lines|)
    && (forall j :: 0 <= j < |k.replies| ==> Justified(api, c, k.answered[j], k.lines[k.answered[j]], k.replies[j]))
  }

  ghost predicate ConnsInv(api: Api) {
    forall c :: c in api.conns ==> TaskInv(api, c, api.conns[c]) && RepliesInv(api, c, api.conns[c])
  }

  ghost predicate PendingInv(api: Api) {
    forall e :: e in api.pending ==>
      && api.pending[e] in api.conns
      && (api.conns[api.pending[e]].task == Waiting(e) || api.conns[api.pending[e]].task == Expired(e))
  }

  ghost predicate PublishedInv(api: Api) {
    forall e :: e in api.published ==>
      var (c, i) := api.published[e];
      c in api.conns && i < api.conns[c].taken && i in api.conns[c].events && api.conns[c].events[i] == e
  }

  ghost predicate HandedInv(api: Api) {
    && (forall e :: e in api.handed ==> api.handed[e] == 1 && e in api.published)
    && (forall e :: e in api.took ==> e in api.handed)
  }

  ghost predicate Inv(api: Api) {
    ConnsInv(api) && PendingInv(api) && PublishedInv(api) && HandedInv(api)
  }

  /** History only grows. */
  ghost predicate HistoryGrows(api: Api, next: Api) {
    && (forall e :: e in api.published ==> e in next.published && next.published[e] == api.published[e])
    && api.answers <= next.answers
    && (forall e :: e in api.took ==> e in next.took && next.took[e] == api.took[e])
  }

  ghost predicate Extends(api: Api, next: Api) {
    && HistoryGrows(api, next)
    && (forall c :: c in api.conns ==> c in next.conns
                                       && api.conns[c].lines <= next.conns[c].lines
                                       && api.conns[c].replies <= next.conns[c].replies)
  }

  // ---- Preservation ----

  lemma RequestsInPrefix(lines: seq<Line>, more: seq<Line>, n: nat)
    requires n <= |lines|
    ensures RequestsIn(lines + more, n) == RequestsIn(lines, n)
  {
    if n > 0 {
      assert (lines + more)[n - 1] == lines[n - 1];
      RequestsInPrefix(lines, more, n - 1);
    }
  }

  /** Replies stay justified while history grows. */
  lemma RepliesStable(api: Api, next: Api, c: ConnId, k: Conn)
    requires HistoryGrows(api, next) && RepliesInv(api, c, k)
    ensures RepliesInv(next, c, k)
  {
  }

  /** A task the step does not touch keeps its place. */
  lemma TaskStable(api: Api, next: Api, c: ConnId, k: Conn)
    requires HistoryGrows(api, next) && TaskInv(api, c, k)
    requires k.task.Waiting? ==> k.task.event in next.pending && next.pending[k.task.event] == c
    requires k.task.Sent? || k.task.Waiting? ==> k.task.event !in next.handed
    ensures TaskInv(next, c, k)
  {
  }

  /** What a step on connection c, which becomes k, may do to the pending map. */
  ghost predicate PendingStep(api: Api, next: Api, c: ConnId, k: Conn) {
    && (forall e :: e in api.pending && api.pending[e] != c ==> e in next.pending && next.pending[e] == api.pending[e])
    && (forall e :: e in next.pending && next.pending[e] != c ==> e in api.pending && next.pending[e] == api.pending[e])
    && (forall e :: e in next.pending && next.pending[e] == c ==> k.task == Waiting(e) || k.task == Expired(e))
  }

  /** What it may add to the record of published and handed-over events. */
  ghost predicate RecordStep(api: Api, next: Api, c: ConnId, k: Conn) {
    && HistoryGrows(api, next)
    && (forall e :: e in next.published && e !in api.published ==>
          var (d, i) := next.published[e]; d == c && i < k.taken && i in k.events && k.events[i] == e)
    && (forall e :: e in next.handed && e !in api.handed ==> e in api.published && api.published[e].0 == c)
    && (forall e :: e in next.handed ==> next.handed[e] == 1)
    && (forall e :: e in next.took ==> e in next.handed)
  }

  /** What it may do to the connection's own history. */
  ghost predicate ConnGrows(k: Conn, k': Conn) {
    && k.lines <= k'.lines && k.replies <= k'.replies && k.taken <= k'.taken
    && (forall i :: i in k.events && i < k.taken ==> i in k'.events && k'.events[i] == k.events[i])
  }

  lemma OthersKept(api: Api, next: Api, c: ConnId, k: Conn)
    requires Inv(api) && next.conns == api.conns[c := k]
    requires PendingStep(api, next, c, k) && RecordStep(api, next, c, k)
    ensures forall d :: d in next.conns && d != c ==>
      TaskInv(next, d, next.conns[d]) && RepliesInv(next, d, next.conns[d])
  {
    forall d | d in next.conns && d != c
      ensures TaskInv(next, d, next.conns[d]) && RepliesInv(next, d, next.conns[d])
    {
      var kd := api.conns[d];
      assert TaskInv(api, d, kd) && RepliesInv(api, d, kd);
      TaskStable(api, next, d, kd);
      RepliesStable(api, next, d, kd);
    }
  }

  lemma PublishedKept(api: Api, next: Api, c: ConnId, k: Conn)
    requires PublishedInv(api) && next.conns == api.conns[c := k]
    requires c in api.conns ==> ConnGrows(api.conns[c], k)
    requires RecordStep(api, next, c, k)
    ensures PublishedInv(next)
  {
    forall e | e in next.published
      ensures var (d, i) := next.published[e];
              d in next.conns && i < next.conns[d].taken && i in next.conns[d].events && next.conns[d].events[i] == e
    {
      if e in api.published {
        var (d, i) := api.published[e];
        assert d in api.conns && i < api.conns[d].taken && i in api.conns[d].events;
      }
    }
  }

  /** A step on one connection keeps the invariant once its own obligations are met. */
  lemma StepOnKeepsInv(api: Api, next: Api, c: ConnId, k: Conn)
    requires Inv(api) && next.conns == api.conns[c := k]
    requires PendingStep(api, next, c, k) && RecordStep(api, next, c, k)
    requires c in api.conns ==> ConnGrows(api.conns[c], k)
    requires TaskInv(next, c, k) && RepliesInv(next, c, k)
    ensures Inv(next) && Extends(api, next)
  {
    hide TaskInv, RepliesInv;
    OthersKept(api, next, c, k);
    assert ConnsInv(next);
    PublishedKept(api, next, c, k);
    assert PendingInv(next);
    assert HandedInv(next);
  }

  lemma InvAt(api: Api, c: ConnId)
    requires Inv(api) && c in api.conns
    ensures TaskInv(api, c, api.conns[c]) && RepliesInv(api, c, api.conns[c])
    ensures HandedInv(api) && PendingInv(api) && PublishedInv(api)
  {
  }

  lemma Stutter(api: Api)
    ensures Extends(api, api)
  {
  }

  // Each step is proved in two parts: the touched connection first, then, with the
  // per-connection predicates hidden, what the step does to the shared maps.

  lemma TakeConn(api: Api, next: Api, c: ConnId, k: Conn, sending: Sending)
    requires k.task == Reading && k.taken < |k.lines|
    requires RepliesInv(next, c, k)
    requires Dispatch(k.bound, k.lines[k.taken]).Forward? && sending.Published? ==>
      sending.event in next.published && next.published[sending.event] == (c, k.taken) && sending.event !in next.handed
    ensures TaskInv(next, c, Took(k, sending)) && RepliesInv(next, c, Took(k, sending))
    ensures ConnGrows(k, Took(k, sending))
  {
    assert RequestsIn(k.lines, k.taken + 1) ==
      RequestsIn(k.lines, k.taken) + if k.lines[k.taken].rpcMethod.Some? then [k.taken] else [];
  }

  lemma TakeKeepsInv(api: Api, c: ConnId, sending: Sending)
    requires Inv(api)
    ensures Inv(ApplyTake(api, c, sending)) && Extends(api, ApplyTake(api, c, sending))
  {
    hide Dispatch, RepliesInv, Justified, Inv, Extends;
    if CanTake(api, c, sending) {
      var next := ApplyTake(api, c, sending);
      var k := api.conns[c];
      assert TaskInv(api, c, k) && RepliesInv(api, c, k) && HandedInv(api) && PendingInv(api) by { InvAt(api, c); }
      RepliesStable(api, next, c, k);
      TakeConn(api, next, c, k, sending);
      assert RecordStep(api, next, c, Took(k, sending));
      StepOnKeepsInv(api, next, c, Took(k, sending));
    } else {
      Stutter(api);
    }
  }

  lemma DeliverConn(api: Api, next: Api, c: ConnId, k: Conn, e: EventId, a: Answer)
    requires TaskInv(api, c, k) && RepliesInv(api, c, k) && HistoryGrows(api, next)
    requires k.task == Waiting(e) || k.task == Expired(e)
    requires (e, a) in next.answers && IsResponseMessage(a.body)
    requires k.task == Waiting(e) ==> e in next.took && next.took[e] == a
    ensures TaskInv(next, c, Received(k, e, a)) && RepliesInv(next, c, Received(k, e, a))
    ensures ConnGrows(k, Received(k, e, a))
  {
    hide Justified, IsResponseMessage;
    RepliesStable(api, next, c, k);
  }

  lemma DeliverPending(api: Api, next: Api, c: ConnId, k': Conn, e: EventId)
    requires PendingInv(api) && e in api.pending && api.pending[e] == c
    requires next.pending == api.pending - {e}
    ensures PendingStep(api, next, c, k')
  {
    forall f | f in next.pending ensures next.pending[f] != c {
      assert f in api.pending && f != e;
    }
  }

  lemma DeliverRecord(api: Api, c: ConnId, e: EventId, a: Answer)
    requires CanDeliver(api, e, a) && api.pending[e] == c
    requires HandedInv(api) && TaskInv(api, c, api.conns[c])
    ensures RecordStep(api, ApplyDeliver(api, e, a), c, Received(api.conns[c], e, a))
  {
    hide IsResponseMessage, Justified;
  }

  lemma DeliverKeepsInv(api: Api, e: EventId, a: Answer)
    requires Inv(api)
    ensures Inv(ApplyDeliver(api, e, a)) && Extends(api, ApplyDeliver(api, e, a))
  {
    hide RepliesInv, TaskInv, Extends, IsResponseMessage, ConnGrows, PendingStep, RecordStep, Received;
    if !CanDeliver(api, e, a) {
      Stutter(api);
    } else {
      var next := ApplyDeliver(api, e, a);
      var c := api.pending[e];
      InvAt(api, c);
      DeliverRecord(api, c, e, a);
      DeliverConn(api, next, c, api.conns[c], e, a);
      DeliverPending(api, next, c, next.conns[c], e);
      StepOnKeepsInv(api, next, c, next.conns[c]);
    }
  }

  /** Moving a task without writing leaves the replies in order. */
  lemma SameReplies(api: Api, c: ConnId, k: Conn, k': Conn)
    requires RepliesInv(api, c, k)
    requires k'.lines == k.lines && k'.taken == k.taken && k'.answered == k.answered && k'.replies == k.replies
    requires Done(k') == Done(k)
    ensures RepliesInv(api, c, k')
  {
  }

  lemma WriteBackConn(api: Api, c: ConnId, k: Conn, ok: bool)
    requires TaskInv(api, c, k) && RepliesInv(api, c, k)
    ensures RepliesInv(api, c, Moved(k, WriteBack(c, ok)))
  {
    hide Justified;
    if k.task.Writing? {
      assert RequestsIn(k.lines, k.taken) == RequestsIn(k.lines, k.taken - 1) + [k.taken - 1];
    }
  }

  lemma PeerWriteConn(api: Api, c: ConnId, k: Conn, line: Line)
    requires TaskInv(api, c, k) && RepliesInv(api, c, k)
    ensures RepliesInv(api, c, Moved(k, PeerWrite(c, line))) && TaskInv(api, c, Moved(k, PeerWrite(c, line)))
  {
    hide Justified;
    var k' := Moved(k, PeerWrite(c, line));
    RequestsInPrefix(k.lines, [line], Done(k));
    assert forall i :: 0 <= i < |k.lines| ==> k'.lines[i] == k.lines[i];
  }

  predicate MovesOneTask(step: Step) {
    !step.Open? && !step.Take? && !step.SendsAnswer? && !step.Deliver?
  }

  lemma MoveConn(api: Api, next: Api, c: ConnId, k: Conn, step: Step)
    requires MovesOneTask(step) && step.conn == c
    requires TaskInv(api, c, k) && RepliesInv(api, c, k) && HistoryGrows(api, next)
    requires next.handed == api.handed
    requires k.task.Sent? && step.Register? ==> k.task.event in next.pending && next.pending[k.task.event] == c
    requires k.task.Waiting? ==> k.task.event in next.pending && next.pending[k.task.event] == c
    ensures TaskInv(next, c, Moved(k, step)) && RepliesInv(next, c, Moved(k, step)) && ConnGrows(k, Moved(k, step))
  {
    hide RepliesInv;
    TaskStable(api, next, c, k);
    RepliesStable(api, next, c, k);
    match step {
      case WriteBack(_, ok) => WriteBackConn(next, c, k, ok);
      case PeerWrite(_, line) => PeerWriteConn(next, c, k, line);
      case _ => SameReplies(next, c, k, Moved(k, step));
    }
  }

  lemma MovePending(api: Api, next: Api, c: ConnId, step: Step)
    requires MovesOneTask(step) && step.conn == c && c in api.conns
    requires ConnsInv(api) && PendingInv(api) && next == Apply(api, step)
    ensures PendingStep(api, next, c, next.conns[c])
    ensures var t := api.conns[c].task;
            (t.Sent? && step.Register?) || t.Waiting? ==> t.event in next.pending && next.pending[t.event] == c
  {
    hide RepliesInv, Justified, FromAnswer, Dispatch, Owns;
    assert TaskInv(api, c, api.conns[c]);
    OthersStayPending(api, next, c, step);
  }

  lemma OthersStayPending(api: Api, next: Api, c: ConnId, step: Step)
    requires MovesOneTask(step) && step.conn == c && c in api.conns
    requires ConnsInv(api) && PendingInv(api) && next == Apply(api, step)
    ensures forall e :: e in api.pending && api.pending[e] != c ==>
      e in next.pending && next.pending[e] == api.pending[e]
  {
    hide RepliesInv, Justified, FromAnswer, Dispatch;
    assert TaskInv(api, c, api.conns[c]);
    forall e | e in api.pending && api.pending[e] != c ensures e in next.pending && next.pending[e] == api.pending[e] {
      assert TaskInv(api, api.pending[e], api.conns[api.pending[e]]);
    }
  }

  lemma MoveKeepsInv(api: Api, c: ConnId, step: Step)
    requires MovesOneTask(step) && step.conn == c
    requires Inv(api)
    ensures Inv(Apply(api, step)) && Extends(api, Apply(api, step))
  {
    hide TaskInv, RepliesInv, Extends, Moved, PendingStep, ConnGrows;
    var next := Apply(api, step);
    if c in api.conns {
      var k := api.conns[c];
      InvAt(api, c);
      MovePending(api, next, c, step);
      MoveConn(api, next, c, k, step);
      assert RecordStep(api, next, c, Moved(k, step));
      StepOnKeepsInv(api, next, c, Moved(k, step));
    } else {
      Stutter(api);
    }
  }

  lemma OpenKeepsInv(api: Api, c: ConnId)
    requires Inv(api)
    ensures Inv(Apply(api, Open(c))) && Extends(api, Apply(api, Open(c)))
  {
    hide Extends, Inv, Dispatch, Justified;
    var next := Apply(api, Open(c));
    if c in api.conns {
      Stutter(api);
    } else {
      OpenFrame(api, c);
      StepOnKeepsInv(api, next, c, next.conns[c]);
    }
  }

  lemma OpenFrame(api: Api, c: ConnId)
    requires Inv(api) && c !in api.conns
    ensures var next := Apply(api, Open(c));
            PendingStep(api, next, c, next.conns[c]) && RecordStep(api, next, c, next.conns[c])
  {
    hide Dispatch, ConnsInv, PublishedInv;
  }

  lemma AnswerSentFrame(api: Api, e: EventId, a: Answer)
    ensures var next := Apply(api, SendsAnswer(e, a));
            && HistoryGrows(api, next) && next.conns == api.conns
            && next.pending == api.pending && next.published == api.published && next.handed == api.handed
            && next.took == api.took
  {
    hide Dispatch, Took, Moved, MovedPending;
  }

  lemma AnswerSentKeepsInv(api: Api, e: EventId, a: Answer)
    requires Inv(api)
    ensures Inv(Apply(api, SendsAnswer(e, a))) && Extends(api, Apply(api, SendsAnswer(e, a)))
  {
    hide Apply, RepliesInv, TaskInv, HistoryGrows;
    var next := Apply(api, SendsAnswer(e, a));
    AnswerSentFrame(api, e, a);
    forall d | d in next.conns
      ensures TaskInv(next, d, next.conns[d]) && RepliesInv(next, d, next.conns[d])
    {
      InvAt(api, d);
      TaskUnderMoreAnswers(api, next, d, api.conns[d]);
      RepliesStable(api, next, d, api.conns[d]);
    }
  }

  lemma TaskUnderMoreAnswers(api: Api, next: Api, c: ConnId, k: Conn)
    requires TaskInv(api, c, k) && HistoryGrows(api, next)
    requires next.pending == api.pending && next.handed == api.handed
    ensures TaskInv(next, c, k)
  {
    TaskStable(api, next, c, k);
  }

  /** Every step, in every interleaving, keeps the invariant and only adds to history. */
  lemma StepKeepsInv(api: Api, step: Step)
    requires Inv(api)
    ensures Inv(Apply(api, step)) && Extends(api, Apply(api, step))
  {
    hide Inv, Extends, Apply;
    match step
    case Open(c) => OpenKeepsInv(api, c);
    case Take(c, sending) => TakeKeepsInv(api, c, sending); TakeIs(api, c, sending);
    case SendsAnswer(e, a) => AnswerSentKeepsInv(api, e, a);
    case Deliver(e, a) => DeliverKeepsInv(api, e, a); DeliverIs(api, e, a);
    case _ => MoveKeepsInv(api, step.conn, step);
  }

  lemma TakeIs(api: Api, c: ConnId, sending: Sending)
    ensures Apply(api, Take(c, sending)) == ApplyTake(api, c, sending)
  {
  }

  lemma DeliverIs(api: Api, e: EventId, a: Answer)
    ensures Apply(api, Deliver(e, a)) == ApplyDeliver(api, e, a)
  {
  }

  lemma {:induction false} RunKeepsInv(api: Api, steps: seq<Step>)
    requires Inv(api)
    ensures Inv(Run(api, steps)) && Extends(api, Run(api, steps))
    decreases |steps|
  {
    hide Inv, Extends, Apply;
    if steps == [] {
      Stutter(api);
    } else {
      var next := Apply(api, steps[0]);
      StepKeepsInv(api, steps[0]);
      RunKeepsInv(next, steps[1..]);
      ExtendsTrans(api, next, Run(next, steps[1..]));
    }
  }

  lemma ExtendsTrans(a: Api, b: Api, c: Api)
    requires Extends(a, b) && Extends(b, c)
    ensures Extends(a, c)
  {
  }

  /** Only the peer writes lines. */
  lemma LinesKept(api: Api, step: Step, c: ConnId)
    requires c in api.conns
    requires step.PeerWrite? ==> step.conn != c
    ensures c in Apply(api, step).conns && Apply(api, step).conns[c].lines == api.conns[c].lines
  {
  }

  // ---- Theorems over every run ----

  lemma StartInv()
    ensures Inv(Start)
  {
  }

  lemma RequestsInMonotone(lines: seq<Line>, m: nat, n: nat)
    requires m <= n <= |lines|
    ensures RequestsIn(lines, m) <= RequestsIn(lines, n)
  {
    if m < n {
      RequestsInMonotone(lines, m, n - 1);
    }
  }

  /** The connection answers its request lines one by one, in order and without gaps;
      every reply is its own error under the line's id, a connect acknowledgement, or an
      answer to the event published for that very line. */
  lemma RepliesFollowRequests(steps: seq<Step>, c: ConnId)
    requires c in Run(Start, steps).conns
    ensures var api := Run(Start, steps); var k := api.conns[c];
            && k.answered <= RequestsIn(k.lines, |k.lines|)
            && |k.replies| == |k.answered|
            && forall j :: 0 <= j < |k.replies| ==>
                 k.answered[j] < |k.lines| && Justified(api, c, k.answered[j], k.lines[k.answered[j]], k.replies[j])
  {
    hide Justified;
    var api := Run(Start, steps);
    assert Inv(api) by { StartInv(); RunKeepsInv(Start, steps); }
    InvAt(api, c);
    RequestsInMonotone(api.conns[c].lines, Done(api.conns[c]), |api.conns[c].lines|);
  }

  predicate AllRequests(lines: seq<Line>) {
    forall i :: 0 <= i < |lines| ==> lines[i].rpcMethod.Some?
  }

  /** When every line is a request, the j-th reply answers the j-th line. */
  lemma {:induction false} RequestsInAll(lines: seq<Line>, n: nat)
    requires n <= |lines| && AllRequests(lines)
    ensures |RequestsIn(lines, n)| == n && forall j :: 0 <= j < n ==> RequestsIn(lines, n)[j] == j
  {
    if n > 0 {
      RequestsInAll(lines, n - 1);
    }
  }

  lemma RepliesAlign(api: Api, c: ConnId, j: nat)
    requires Inv(api) && c in api.conns && AllRequests(api.conns[c].lines)
    requires j < |api.conns[c].replies|
    ensures |api.conns[c].replies| <= api.conns[c].taken <= |api.conns[c].lines|
    ensures Justified(api, c, j, api.conns[c].lines[j], api.conns[c].replies[j])
  {
    hide Justified;
    var k := api.conns[c];
    InvAt(api, c);
    RequestsInAll(k.lines, Done(k));
  }

  ghost predicate ActiveWaiter(api: Api, c: ConnId, e: EventId) {
    c in api.conns && (api.conns[c].task == Waiting(e) || api.conns[c].task == Expired(e))
  }

  /** Every pending entry belongs to a live waiter for that very event and every waiter
      that still listens has its entry, so without active waiters the map is empty; an
      event's waiter is handed at most one answer, and only one tagged with that event. */
  lemma PendingConservation(steps: seq<Step>)
    ensures var api := Run(Start, steps);
            && (forall e :: e in api.pending ==> ActiveWaiter(api, api.pending[e], e))
            && (forall c, e :: c in api.conns && api.conns[c].task == Waiting(e) ==>
              e in api.pending && api.pending[e] == c)
            && ((forall c, e :: !ActiveWaiter(api, c, e)) ==> api.pending == map[])
            && (forall e :: api.handed[e] <= 1)
            && (forall c :: c in api.conns && api.conns[c].task.Filled? ==>
                  (api.conns[c].task.event, api.conns[c].task.answer) in api.answers)
  {
    hide TaskInv, RepliesInv, PendingInv, PublishedInv, HandedInv, Apply, Run, ActiveWaiter;
    var api := Run(Start, steps);
    assert Inv(api) by { StartInv(); RunKeepsInv(Start, steps); }
    WaitersMatchPending(api);
    HandedOnce(api);
    if api.pending != map[] {
      var e :| e in api.pending;
      assert ActiveWaiter(api, api.pending[e], e);
    }
  }

  lemma WaitersMatchPending(api: Api)
    requires ConnsInv(api) && PendingInv(api)
    ensures forall e :: e in api.pending ==> ActiveWaiter(api, api.pending[e], e)
    ensures forall c, e :: c in api.conns && api.conns[c].task == Waiting(e) ==> e in api.pending && api.pending[e] == c
    ensures forall c :: c in api.conns && api.conns[c].task.Filled? ==>
              (api.conns[c].task.event, api.conns[c].task.answer) in api.answers
  {
    hide RepliesInv, Justified, Owns;
    forall c | c in api.conns
      ensures TaskInv(api, c, api.conns[c])
    {
    }
  }

  lemma HandedOnce(api: Api)
    requires HandedInv(api)
    ensures forall e :: api.handed[e] <= 1
  {
    forall e
      ensures api.handed[e] <= 1
    {
      if e in api.handed {}
    }
  }

  /** No line is ever published twice. */
  lemma PublishedOncePerLine(steps: seq<Step>, e: EventId, f: EventId)
    requires e in Run(Start, steps).published && f in Run(Start, steps).published
    requires Run(Start, steps).published[e] == Run(Start, steps).published[f]
    ensures e == f
  {
    hide ConnsInv, PendingInv, HandedInv;
    var api := Run(Start, steps);
    assert Inv(api) by { StartInv(); RunKeepsInv(Start, steps); }
  }

  // ---- Whose answer, and what becomes of an error ----

  /** Over every run, a reply made from an answer reports an error exactly when the answer
      carries an error and an `id`: an error answered without an `id` reaches the peer as a
      success. */
  lemma ErrorsSurfaceIffAnswersHaveIds(steps: seq<Step>, c: ConnId, j: nat)
    requires c in Run(Start, steps).conns && j < |Run(Start, steps).conns[c].replies|
    requires Run(Start, steps).conns[c].replies[j].source.Remote?
    ensures var r := Run(Start, steps).conns[c].replies[j]; var a := r.source.answer.body;
            && (r.response.error.Some? <==> GetNonNull(a, "error").Some? && Get(a, "id").Some?)
            && (GetNonNull(a, "error").Some? && Get(a, "id").None? ==> r.response.result == Some(a))
  {
    hide Run, FromAnswer, IsResponseMessage;
    RepliesFollowRequests(steps, c);
    var k := Run(Start, steps).conns[c];
    var a := k.replies[j].source.answer.body;
    assert Justified(Run(Start, steps), c, k.answered[j], k.lines[k.answered[j]], k.replies[j]);
    ErrorSurfacesIffAnswerHasId(LineId(k.lines[k.answered[j]]), a);
    WrappedWhole(LineId(k.lines[k.answered[j]]), a);
  }

  /** What an answer with an `id` says is forwarded as it is: its result, its id, the code
      and message of its error; an answer without one is wrapped whole, under the id of the
      request line. */
  lemma AnswersAreForwarded(steps: seq<Step>, c: ConnId, j: nat)
    requires c in Run(Start, steps).conns && j < |Run(Start, steps).conns[c].replies|
    requires Run(Start, steps).conns[c].replies[j].source.Remote?
    ensures var k := Run(Start, steps).conns[c];
            var r, a := k.replies[j].response, k.replies[j].source.answer.body;
            && j < |k.answered| && k.answered[j] < |k.lines|
            && match Get(a, "id")
               case Some(id) =>
                 && r.id == id && r.result == GetNonNull(a, "result")
                 && (r.error.Some? <==> GetNonNull(a, "error").Some?)
                 && (r.error.Some? ==>
                       && Get(GetNonNull(a, "error").value, "code") == Some(Int(r.error.value.code))
                       && Get(GetNonNull(a, "error").value, "message") == Some(Str(r.error.value.message)))
               case None =>
                 && r.id == (match k.lines[k.answered[j]].id case Some(id) => id case None => Null)
                 && r.result == Some(a) && r.error == None
  {
    hide Run, FromAnswer, IsResponseMessage;
    RepliesFollowRequests(steps, c);
    var k := Run(Start, steps).conns[c];
    assert Justified(Run(Start, steps), c, k.answered[j], k.lines[k.answered[j]], k.replies[j]);
    Forwarded(LineId(k.lines[k.answered[j]]), k.replies[j].source.answer.body);
  }

  lemma Forwarded(requestId: Json, a: Json)
    requires IsResponseMessage(a)
    ensures var r := FromAnswer(requestId, a);
            match Get(a, "id")
            case Some(id) =>
              && r.id == id && r.result == GetNonNull(a, "result")
              && (r.error.Some? <==> GetNonNull(a, "error").Some?)
              && (r.error.Some? ==>
                    && Get(GetNonNull(a, "error").value, "code") == Some(Int(r.error.value.code))
                    && Get(GetNonNull(a, "error").value, "message") == Some(Str(r.error.value.message)))
            case None => r.id == requestId && r.result == Some(a) && r.error == None
  {
  }

  lemma WrappedWhole(requestId: Json, a: Json)
    ensures Get(a, "id").None? ==> FromAnswer(requestId, a) == Success(requestId, a)
  {
  }

  lemma {:induction false} RunConcat(api: Api, first: seq<Step>, more: seq<Step>)
    ensures Run(api, first + more) == Run(Run(api, first), more)
    decreases |first|
  {
    hide Apply;
    if first == [] {
      assert first + more == more;
    } else {
      assert (first + more)[1..] == first[1..] + more;
      RunConcat(Apply(api, first[0]), first[1..], more);
    }
  }

  lemma RunTwo(api: Api, a: Step, b: Step)
    ensures Run(api, [a]) == Apply(api, a)
    ensures Run(api, [a, b]) == Apply(Apply(api, a), b)
  {
    hide Apply;
    assert [a][1..] == [] && [b][1..] == [] && [a] + [b] == [a, b];
    RunConcat(api, [a], [b]);
  }

  lemma RunSnoc(api: Api, steps: seq<Step>, last: Step)
    ensures Run(api, steps + [last]) == Apply(Run(api, steps), last)
  {
    hide Apply;
    RunConcat(api, steps, [last]);
    assert [last][1..] == [];
  }

  /** The i-th step delivers answer a to the waiter of event e while that still listens. */
  ghost predicate Heard(steps: seq<Step>, i: nat, e: EventId, a: Answer) {
    i < |steps| && steps[i] == Deliver(e, a) && Listening(Run(Start, steps[..i]), e, a)
  }

  ghost predicate Listening(api: Api, e: EventId, a: Answer) {
    CanDeliver(api, e, a) && api.conns[api.pending[e]].task == Waiting(e)
  }

  ghost predicate HasTaken(api: Api, e: EventId, a: Answer) {
    e in api.took && api.took[e] == a
  }

  lemma OnlyDeliveryTakes(api: Api, step: Step)
    requires !step.Deliver?
    ensures Apply(api, step).took == api.took
  {
    hide Took, Moved, MovedPending, IsResponseMessage, Dispatch;
  }

  lemma DeliveryTakes(api: Api, d: EventId, b: Answer)
    requires Inv(api)
    ensures ApplyDeliver(api, d, b).took == if Listening(api, d, b) then api.took[d := b] else api.took
    ensures Listening(api, d, b) ==> d !in api.took
  {
    hide RepliesInv, IsResponseMessage, PublishedInv, Justified;
    if CanDeliver(api, d, b) {
      assert TaskInv(api, api.pending[d], api.conns[api.pending[d]]);
    }
  }

  lemma StepTakes(api: Api, step: Step, e: EventId, a: Answer)
    requires Inv(api)
    ensures HasTaken(Apply(api, step), e, a) <==> HasTaken(api, e, a) || (step == Deliver(e, a) && Listening(api, e, a))
  {
    hide Inv, Apply, ApplyDeliver, Listening;
    if step.Deliver? {
      DeliverIs(api, step.event, step.answer);
      DeliveryTakes(api, step.event, step.answer);
    } else {
      OnlyDeliveryTakes(api, step);
    }
  }

  /** An event's waiter takes exactly the answer delivered while it listens, whoever sent it. */
  lemma {:induction false} TookIffHeard(steps: seq<Step>, e: EventId, a: Answer)
    ensures HasTaken(Run(Start, steps), e, a) <==> exists i :: Heard(steps, i, e, a)
    decreases |steps|
  {
    hide Apply, Run, Listening, Inv;
    if steps == [] {
      assert Run(Start, []) == Start by { RunNothing(Start); }
    } else {
      var n := |steps| - 1;
      var init := steps[..n];
      TookIffHeard(init, e, a);
      StartInv();
      RunKeepsInv(Start, init);
      assert steps == init + [steps[n]];
      RunSnoc(Start, init, steps[n]);
      StepTakes(Run(Start, init), steps[n], e, a);
      forall i: nat | i < n
        ensures Heard(steps, i, e, a) <==> Heard(init, i, e, a)
      {
        assert steps[..i] == init[..i];
      }
      assert Heard(steps, n, e, a) <==> steps[n] == Deliver(e, a) && Listening(Run(Start, init), e, a);
    }
  }

  lemma RunNothing(api: Api)
    ensures Run(api, []) == api
  {
  }

  /** `phone` names the key each event is addressed to. Every answer taken, and so every
      answer replied, is the phone's if and only if nobody else's answer is delivered while
      the event's waiter listens. */
  lemma AnswersAreThePhonesIff(steps: seq<Step>, phone: EventId -> PubKey)
    ensures var api := Run(Start, steps);
            && ((forall e :: e in api.took ==> api.took[e].author == phone(e))
                <==> (forall i, e, a :: Heard(steps, i, e, a) ==> a.author == phone(e)))
            && (forall c, j ::
                  c in api.conns && 0 <= j < |api.conns[c].replies| && api.conns[c].replies[j].source.Remote? ==>
                  HasTaken(api, api.conns[c].replies[j].source.event, api.conns[c].replies[j].source.answer))
  {
    hide Run, Heard, Apply;
    var api := Run(Start, steps);
    forall i, e, a | Heard(steps, i, e, a)
      ensures HasTaken(api, e, a)
    {
      TookIffHeard(steps, e, a);
    }
    forall e | e in api.took
      ensures exists i :: Heard(steps, i, e, api.took[e])
    {
      TookIffHeard(steps, e, api.took[e]);
    }
    forall c, j | c in api.conns && 0 <= j < |api.conns[c].replies| && api.conns[c].replies[j].source.Remote?
      ensures HasTaken(api, api.conns[c].replies[j].source.event, api.conns[c].replies[j].source.answer)
    {
      RepliesFollowRequests(steps, c);
      var k := api.conns[c];
      assert Justified(api, c, k.answered[j], k.lines[k.answered[j]], k.replies[j]);
    }
  }

  lemma AnswerHeard(api: Api, c: ConnId, e: EventId, a: Answer)
    requires c in api.conns && api.conns[c].task == Waiting(e) && e in api.pending && api.pending[e] == c
    requires IsResponseMessage(a.body)
    ensures var next := Apply(Apply(api, SendsAnswer(e, a)), Deliver(e, a));
            c in next.conns && next.conns[c] == api.conns[c].(task := Filled(e, a))
  {
    hide IsResponseMessage;
  }

  lemma AnswerReplied(api: Api, c: ConnId, e: EventId, a: Answer)
    requires c in api.conns && api.conns[c].task == Filled(e, a) && OnRequest(api.conns[c])
    ensures var k := api.conns[c]; var next := Apply(Apply(api, Resume(c)), WriteBack(c, true));
            c in next.conns
            && next.conns[c].replies == k.replies
              + [Reply(Remote(e, a), FromAnswer(LineId(k.lines[k.taken - 1]), a.body))]
  {
    hide FromAnswer;
  }

  /** From any reachable state in which a waiter listens, any response by any author can
      become the reply. */
  lemma AnyoneCanAnswer(steps: seq<Step>, c: ConnId, e: EventId, a: Answer)
    requires c in Run(Start, steps).conns && Run(Start, steps).conns[c].task == Waiting(e) && IsResponseMessage(a.body)
    ensures var k := Run(Start, steps).conns[c];
            var after := Run(Start, steps + [SendsAnswer(e, a)] + [Deliver(e, a)] + [Resume(c)] + [WriteBack(c, true)]);
            && OnRequest(k) && c in after.conns
            && after.conns[c].replies == k.replies
              + [Reply(Remote(e, a), FromAnswer(LineId(k.lines[k.taken - 1]), a.body))]
  {
    hide Run, Apply, IsResponseMessage, FromAnswer, Inv, HandedInv, PendingInv, PublishedInv, RepliesInv;
    var api := Run(Start, steps);
    assert Inv(api) by { StartInv(); RunKeepsInv(Start, steps); }
    InvAt(api, c);
    var told := steps + [SendsAnswer(e, a)] + [Deliver(e, a)];
    RunSnoc(Start, steps, SendsAnswer(e, a));
    RunSnoc(Start, steps + [SendsAnswer(e, a)], Deliver(e, a));
    RunSnoc(Start, told, Resume(c));
    RunSnoc(Start, told + [Resume(c)], WriteBack(c, true));
    AnswerHeard(api, c, e, a);
    AnswerReplied(Run(Start, told), c, e, a);
  }
}
