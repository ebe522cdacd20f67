/** What the daemon says of its own on a local connection, and for which service a line is
    forwarded (handle_connection in crates/avatar/src/local_api.rs). */
module LocalReplies {
  import opened Common
  import opened JsonValues
  import L = LocalApi

  /** The service a connect line binds its connection to. */
  function ConnectType(line: L.Line): Option<string> {
    if line.rpcMethod != Some("connect") then None
    else
      match Get(line.params, "type")
      case Some(Str(kind)) => if kind == "" then None else Some(kind)
      case _ => None
  }

  /** The service bound by the latest such line among the first n. */
  function LatestType(lines: seq<L.Line>, n: nat): Option<string>
    requires n <= |lines|
  {
    if n == 0 then None
    else if ConnectType(lines[n - 1]).Some? then ConnectType(lines[n - 1])
    else LatestType(lines, n - 1)
  }

  predicate Fails(r: L.Response, code: int) {
    r.result == None && r.error.Some? && r.error.value.code == code
  }

  /** A request that is not a connect, on a bound connection. */
  predicate Forwardable(lines: seq<L.Line>, i: nat)
    requires i < |lines|
  {
    lines[i].rpcMethod.Some? && lines[i].rpcMethod != Some("connect") && LatestType(lines, i).Some?
  }

  /** The daemon's own reply to line i: under the line's id, an acknowledgement with the
      line's npub for a connect that names a service, an error otherwise: internal when
      nothing can be forwarded, no session, send failed or timeout when it could. */
  predicate OwnReply(lines: seq<L.Line>, i: nat, r: L.Response)
    requires i < |lines|
  {
    var line := lines[i];
    && line.rpcMethod.Some?
    && r.id == (match line.id case Some(id) => id case None => Null)
    && if ConnectType(line).Some? then
         var npub := match Get(line.params, "npub") case Some(Str(npub)) => npub case _ => "";
         r.error == None && r.result == Some(Obj(map["npub" := Str(npub)]))
       else if Forwardable(lines, i) then Fails(r, -32001) || Fails(r, -32002) || Fails(r, -32003)
       else Fails(r, -32603)
  }

  ghost predicate ConnOk(k: L.Conn) {
    && k.taken <= |k.lines| && k.bound == LatestType(k.lines, k.taken)
    && |k.answered| == |k.replies|
    && (forall j :: 0 <= j < |k.replies| ==>
          k.answered[j] < |k.lines|
          && (k.replies[j].source.Local? ==> OwnReply(k.lines, k.answered[j], k.replies[j].response)))
    && (k.task.Writing? && k.task.reply.source.Local? ==>
          k.taken > 0 && OwnReply(k.lines, k.taken - 1, k.task.reply.response))
    && (k.task.Sent? || k.task.Waiting? || k.task.Expired? || k.task.Filled? ==>
          k.taken > 0 && Forwardable(k.lines, k.taken - 1))
    && (forall i :: i in k.events ==> i < k.taken && Forwardable(k.lines, i))
  }

  ghost predicate AllOk(api: L.Api) {
    forall c :: c in api.conns ==> ConnOk(api.conns[c])
  }

  lemma {:induction false} LatestTypeStays(lines: seq<L.Line>, more: seq<L.Line>, n: nat)
    requires n <= |lines|
    ensures LatestType(lines + more, n) == LatestType(lines, n)
  {
    hide ConnectType;
    if n > 0 {
      LatestTypeStays(lines, more, n - 1);
    }
  }

  lemma LinesMayCome(k: L.Conn, line: L.Line)
    requires ConnOk(k)
    ensures ConnOk(k.(lines := k.lines + [line]))
  {
    hide ConnectType, Fails;
    var k' := k.(lines := k.lines + [line]);
    forall i: nat | i <= |k.lines|
      ensures LatestType(k'.lines, i) == LatestType(k.lines, i)
    {
      LatestTypeStays(k.lines, [line], i);
    }
    assert forall i :: 0 <= i < |k.lines| ==> k'.lines[i] == k.lines[i];
  }

  /** What the daemon decides about a line, in the connection's own terms. */
  lemma DispatchSays(lines: seq<L.Line>, i: nat)
    requires i < |lines|
    ensures match L.Dispatch(LatestType(lines, i), lines[i])
            case Ignore => lines[i].rpcMethod.None? && LatestType(lines, i + 1) == LatestType(lines, i)
            case Say(bound, r) => OwnReply(lines, i, r) && bound == LatestType(lines, i + 1)
            case Forward(kind) =>
              Forwardable(lines, i) && LatestType(lines, i) == Some(kind) == LatestType(lines, i + 1)
  {
  }

  lemma ForwardingFails(lines: seq<L.Line>, i: nat, code: int, message: string)
    requires i < |lines| && Forwardable(lines, i) && code in {-32001, -32002, -32003}
    ensures OwnReply(lines, i, L.OwnError(lines[i], code, message).response)
  {
  }

  lemma TakeIsOk(k: L.Conn, sending: L.Sending)
    requires ConnOk(k) && k.task.Reading? && k.taken < |k.lines|
    ensures ConnOk(L.Took(k, sending))
  {
    hide L.Dispatch, ConnectType, LatestType, OwnReply, L.OwnError, Forwardable;
    DispatchSays(k.lines, k.taken);
    if Forwardable(k.lines, k.taken) {
      ForwardingFails(k.lines, k.taken, -32001, "no service channel available");
      ForwardingFails(k.lines, k.taken, -32002, "failed to send request");
    }
  }

  lemma MoveIsOk(k: L.Conn, step: L.Step)
    requires ConnOk(k) && !step.PeerWrite?
    ensures ConnOk(L.Moved(k, step))
  {
    hide ConnectType, LatestType, L.FromAnswer, OwnReply, L.OwnError, Forwardable;
    if k.task.Expired? && L.OnRequest(k) {
      ForwardingFails(k.lines, k.taken - 1, -32003, "timeout");
    }
  }

  lemma StepIsOk(api: L.Api, step: L.Step)
    requires AllOk(api)
    ensures AllOk(L.Apply(api, step))
  {
    hide ConnOk, L.Took, L.Moved, L.MovedPending, L.IsResponseMessage;
    match step
    case Open(c) => assert ConnOk(L.Conn([], 0, None, L.Reading, map[], [], [])) by { FreshIsOk(); }
    case Take(c, sending) =>
      if L.CanTake(api, c, sending) {
        TakeIsOk(api.conns[c], sending);
      }
    case PeerWrite(c, line) =>
      if c in api.conns {
        LinesMayCome(api.conns[c], line);
        assert L.Moved(api.conns[c], step) == api.conns[c].(lines := api.conns[c].lines + [line]) by {
          PeerWriteMoves(api.conns[c], step);
        }
      }
    case SendsAnswer(_, _) =>
    case Deliver(e, a) =>
      if L.CanDeliver(api, e, a) {
        ReceivedIsOk(api.conns[api.pending[e]], e, a);
      }
    case _ =>
      if step.conn in api.conns {
        MoveIsOk(api.conns[step.conn], step);
      }
  }

  lemma FreshIsOk()
    ensures ConnOk(L.Conn([], 0, None, L.Reading, map[], [], []))
  {
  }

  lemma PeerWriteMoves(k: L.Conn, step: L.Step)
    requires step.PeerWrite?
    ensures L.Moved(k, step) == k.(lines := k.lines + [step.line])
  {
  }

  lemma ReceivedIsOk(k: L.Conn, e: L.EventId, a: L.Answer)
    requires ConnOk(k)
    ensures ConnOk(L.Received(k, e, a))
  {
  }

  lemma {:induction false} RunIsOk(api: L.Api, steps: seq<L.Step>)
    requires AllOk(api)
    ensures AllOk(L.Run(api, steps))
    decreases |steps|
  {
    hide AllOk, L.Apply;
    if steps != [] {
      StepIsOk(api, steps[0]);
      RunIsOk(L.Apply(api, steps[0]), steps[1..]);
    }
  }

  /** Over every run, what the daemon replies of its own is an acknowledgement or the right
      error under the line's id. */
  lemma OwnRepliesAreRight(steps: seq<L.Step>, c: L.ConnId, j: nat)
    requires c in L.Run(L.Start, steps).conns && j < |L.Run(L.Start, steps).conns[c].replies|
    requires L.Run(L.Start, steps).conns[c].replies[j].source.Local?
    ensures var k := L.Run(L.Start, steps).conns[c];
            && j < |k.answered| && k.answered[j] < |k.lines|
            && OwnReply(k.lines, k.answered[j], k.replies[j].response)
  {
    hide L.Run, OwnReply;
    RunIsOk(L.Start, steps);
    assert ConnOk(L.Run(L.Start, steps).conns[c]);
  }

  /** Over every run, a connection is bound to the service of its latest connect line, and
      an event is published only for a request, not a connect, on a bound connection. */
  lemma OnlyBoundRequestsArePublished(steps: seq<L.Step>, c: L.ConnId, e: L.EventId)
    requires c in L.Run(L.Start, steps).conns
    ensures var api := L.Run(L.Start, steps); var k := api.conns[c];
            && k.taken <= |k.lines| && k.bound == LatestType(k.lines, k.taken)
            && (e in api.published && api.published[e].0 == c ==>
                  api.published[e].1 < |k.lines| && Forwardable(k.lines, api.published[e].1))
  {
    hide L.Run, LatestType, OwnReply, L.ConnsInv, L.PendingInv, L.HandedInv;
    RunIsOk(L.Start, steps);
    L.StartInv();
    L.RunKeepsInv(L.Start, steps);
    assert ConnOk(L.Run(L.Start, steps).conns[c]);
  }
}
