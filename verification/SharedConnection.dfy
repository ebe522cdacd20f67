/** The proxy of km-gpg-sa (crates/km-gpg-sa/src/main.rs): any number of concurrent scd-shim
    connections share one daemon connection under two mutexes, and the connection is kept
    after an error. Replies are matched by order alone.

    `broken` records that a write or read failed at the transport; a stream socket that
    failed so never yields another line. A line that is read but cannot be used (too long,
    not a response) is consumed and leaves the stream usable. */
module SharedConnection {
  import opened Common
  import opened JsonValues
  import L = LocalApi

  type ShimId = nat
  type CallRef = (ShimId, nat)

  datatype Task =
    | Reading
    | WantWriter
    | WantReader                // holds the writer
    | Locked                    // holds both
    | Wrote                     // holds both, request written
    | Writing(reply: L.Reply)   // holds neither
    | Gone(done: nat)

  datatype Shim = Shim(requests: seq<L.Line>, taken: nat, task: Task, replies: seq<L.Reply>)

  datatype System = System(
    api: L.Api,
    conn: L.ConnId,
    shims: map<ShimId, Shim>,
    writer: Option<ShimId>,
    reader: Option<ShimId>,
    got: nat,                      // lines read from the daemon
    broken: bool,
    origin: map<nat, CallRef>)     // whose request a line is; none for the start-up lines

  /** The proxy starts once the start-up exchanges on its connection are over. */
  ghost predicate Starts(s: System) {
    && L.Inv(s.api) && s.conn in s.api.conns
    && L.AllRequests(s.api.conns[s.conn].lines)
    && s.got == |s.api.conns[s.conn].lines|
    && s.shims == map[] && s.writer == None && s.reader == None && s.origin == map[] && !s.broken
  }

  datatype Step =
    | Daemon(step: L.Step)
    | ShimConnects(shim: ShimId)
    | ShimSends(shim: ShimId, rpcMethod: string, params: Json, id: Option<Json>)
    | ShimTakes(shim: ShimId)
    | LockWriter(shim: ShimId)
    | LockReader(shim: ShimId)
    | Write(shim: ShimId)
    | WriteFails(shim: ShimId, delivered: bool)
    | Read(shim: ShimId)
    | ReadUnusable(shim: ShimId)
    | ReadBreaks(shim: ShimId)
    | ShimReplies(shim: ShimId, ok: bool)
    | ShimLeaves(shim: ShimId)

  function ProxyError(line: L.Line): L.Reply {
    L.Reply(L.Local, L.Error(L.LineId(line), -32603, "proxy error"))
  }

  predicate OnRequest(k: Shim) {
    0 < k.taken <= |k.requests|
  }

  function Current(k: Shim): L.Line
    requires OnRequest(k)
  {
    k.requests[k.taken - 1]
  }

  function At(k: Shim, task: Task): Shim {
    Shim(k.requests, k.taken, task, k.replies)
  }

  /** Steps of a shim's task that touch neither the daemon's connection nor its locks. */
  function ShimStep(k: Shim, step: Step): Shim {
    match (step, k.task)
    case (ShimSends(_, m, params, id), _) =>
      Shim(k.requests + [L.Line(Some(m), params, id)], k.taken, k.task, k.replies)
    case (ShimTakes(_), Reading) =>
      if k.taken < |k.requests| then Shim(k.requests, k.taken + 1, WantWriter, k.replies) else k
    case (ShimReplies(_, ok), Writing(reply)) =>
      if ok then Shim(k.requests, k.taken, Reading, k.replies + [reply]) else At(k, Gone(|k.replies|))
    case (ShimLeaves(_), Reading) => At(k, Gone(|k.replies|))
    case _ => k
  }

  predicate CanWrite(s: System, sh: ShimId) {
    && sh in s.shims && s.shims[sh].task.Locked? && OnRequest(s.shims[sh])
    && s.conn in s.api.conns
  }

  /** The request goes out as one line. */
  function ApplyWrite(s: System, sh: ShimId): System
    requires CanWrite(s, sh)
  {
    var k := s.shims[sh];
    System(L.Apply(s.api, L.PeerWrite(s.conn, Current(k))), s.conn, s.shims[sh := At(k, Wrote)],
           s.writer, s.reader, s.got, s.broken,
           s.origin[|s.api.conns[s.conn].lines| := (sh, k.taken - 1)])
  }

  predicate CanRead(s: System, sh: ShimId) {
    && sh in s.shims && s.shims[sh].task.Wrote? && OnRequest(s.shims[sh])
    && !s.broken && s.conn in s.api.conns && s.got < |s.api.conns[s.conn].replies|
  }

  /** The exchange ends: both locks are released and the reply goes to the shim. */
  function Release(s: System, sh: ShimId, reply: L.Reply, got: nat, broken: bool): System
    requires sh in s.shims
  {
    System(s.api, s.conn, s.shims[sh := At(s.shims[sh], Writing(reply))], None, None, got, broken, s.origin)
  }

  predicate Holds(s: System, sh: ShimId) {
    sh in s.shims && OnRequest(s.shims[sh]) && (s.shims[sh].task.Locked? || s.shims[sh].task.Wrote?)
  }

  function Fails(s: System, sh: ShimId): System
    requires Holds(s, sh)
  {
    Release(s, sh, ProxyError(Current(s.shims[sh])), s.got, true)
  }

  function Apply(s: System, step: Step): System {
    match step
    case Daemon(inner) =>
      if inner.PeerWrite? && inner.conn == s.conn then s else
      System(L.Apply(s.api, inner), s.conn, s.shims, s.writer, s.reader, s.got, s.broken, s.origin)
    case ShimConnects(sh) =>
      if sh in s.shims then s else
      System(s.api, s.conn, s.shims[sh := Shim([], 0, Reading, [])], s.writer, s.reader, s.got, s.broken, s.origin)
    case LockWriter(sh) =>
      if sh !in s.shims || !s.shims[sh].task.WantWriter? || s.writer.Some? then s else
      System(s.api, s.conn, s.shims[sh := At(s.shims[sh], WantReader)], Some(sh), s.reader, s.got, s.broken, s.origin)
    case LockReader(sh) =>
      if sh !in s.shims || !s.shims[sh].task.WantReader? || s.reader.Some? then s else
      System(s.api, s.conn, s.shims[sh := At(s.shims[sh], Locked)], s.writer, Some(sh), s.got, s.broken, s.origin)
    case Write(sh) => if CanWrite(s, sh) then ApplyWrite(s, sh) else s
    case WriteFails(sh, delivered) =>
      if !CanWrite(s, sh) then s
      else if delivered then Fails(ApplyWrite(s, sh), sh)
      else Fails(s, sh)
    case Read(sh) =>
      if !CanRead(s, sh) then s else
      Release(s, sh, s.api.conns[s.conn].replies[s.got], s.got + 1, s.broken)
    case ReadUnusable(sh) =>
      if !CanRead(s, sh) then s else
      Release(s, sh, ProxyError(Current(s.shims[sh])), s.got + 1, s.broken)
    case ReadBreaks(sh) => if Holds(s, sh) && s.shims[sh].task.Wrote? then Fails(s, sh) else s
    case _ =>
      var sh := step.shim;
      if sh !in s.shims then s else
      System(s.api, s.conn, s.shims[sh := ShimStep(s.shims[sh], step)], s.writer, s.reader, s.got, s.broken, s.origin)
  }

  function Run(s: System, steps: seq<Step>): System
    decreases |steps|
  {
    if steps == [] then s else Run(Apply(s, steps[0]), steps[1..])
  }

  // ---- What a shim may rely on ----

  /** The reply to a shim's request is an error under the request's id, the
      acknowledgement of a connect request, or the answer taken for the event published for
      the line this very request was forwarded as. */
  ghost predicate Good(s: System, sh: ShimId, j: nat, line: L.Line, reply: L.Reply) {
    match reply.source
    case Local =>
      || (reply.response.error.Some? && reply.response.id == L.LineId(line))
      || (line.rpcMethod == Some("connect") && reply.response == L.ConnectAck(line))
    case Remote(e, a) =>
      && (e, a) in s.api.answers && L.IsResponseMessage(a.body) && e in s.api.took && s.api.took[e] == a
      && e in s.api.published && s.api.published[e].0 == s.conn
      && s.api.published[e].1 in s.origin && s.origin[s.api.published[e].1] == (sh, j)
      && reply.response == L.FromAnswer(L.LineId(line), a.body)
  }

  // ---- The invariant ----

  function Settled(k: Shim): int {
    match k.task
    case Reading => k.taken
    case Gone(d) => d
    case _ => k.taken - 1
  }

  ghost predicate RepliesGood(s: System, sh: ShimId, k: Shim) {
    && 0 <= Settled(k) <= k.taken <= |k.requests|
    && |k.replies| == Settled(k)
    && (forall j :: 0 <= j < |k.requests| ==> k.requests[j].rpcMethod.Some?)
    && (forall j :: 0 <= j < |k.replies| ==> Good(s, sh, j, k.requests[j], k.replies[j]))
    && (k.task.Writing? ==> Good(s, sh, k.taken - 1, k.requests[k.taken - 1], k.task.reply))
  }

  ghost predicate ShimsInv(s: System) {
    forall sh :: sh in s.shims ==> RepliesGood(s, sh, s.shims[sh])
  }

  predicate HasWriter(t: Task) {
    t.WantReader? || t.Locked? || t.Wrote?
  }

  predicate HasReader(t: Task) {
    t.Locked? || t.Wrote?
  }

  /** The locks are held by the tasks that think they hold them, and by no others. */
  ghost predicate LocksInv(s: System) {
    && (forall sh :: sh in s.shims && HasWriter(s.shims[sh].task) ==> s.writer == Some(sh))
    && (forall sh :: sh in s.shims && HasReader(s.shims[sh].task) ==> s.reader == Some(sh))
    && (s.writer.Some? ==> s.writer.value in s.shims && HasWriter(s.shims[s.writer.value].task))
    && (s.reader.Some? ==> s.reader.value in s.shims && HasReader(s.shims[s.reader.value].task))
  }

  predicate InExchange(s: System) {
    s.reader.Some? && s.reader.value in s.shims && s.shims[s.reader.value].task.Wrote?
  }

  /** Lock step: outside an exchange every line has had its reply read; inside one, all
      but the last, which is the holder's. */
  ghost predicate AlignInv(s: System) {
    && s.conn in s.api.conns
    && L.AllRequests(s.api.conns[s.conn].lines)
    && (!s.broken && !InExchange(s) ==> s.got == |s.api.conns[s.conn].lines|)
    && (!s.broken && InExchange(s) ==>
          && s.got + 1 == |s.api.conns[s.conn].lines|
          && s.got in s.origin
          && s.origin[s.got] == (s.reader.value, s.shims[s.reader.value].taken - 1))
  }

  ghost predicate OriginInv(s: System) {
    forall at :: at in s.origin ==>
      var (sh, j) := s.origin[at];
      && s.conn in s.api.conns && at < |s.api.conns[s.conn].lines|
      && sh in s.shims && j < |s.shims[sh].requests|
      && s.api.conns[s.conn].lines[at] == s.shims[sh].requests[j]
  }

  ghost predicate Inv(s: System) {
    L.Inv(s.api) && ShimsInv(s) && LocksInv(s) && AlignInv(s) && OriginInv(s)
  }

  // ---- Frames ----

  ghost predicate Grows(s: System, t: System) {
    && t.conn == s.conn
    && L.Extends(s.api, t.api)
    && (forall at :: at in s.origin ==> at in t.origin && t.origin[at] == s.origin[at])
  }

  lemma RepliesStayGood(s: System, t: System, sh: ShimId, k: Shim)
    requires Grows(s, t) && RepliesGood(s, sh, k)
    ensures RepliesGood(t, sh, k)
  {
    hide L.IsResponseMessage, L.FromAnswer, L.ConnectAck, L.LineId;
  }

  lemma OthersKept(s: System, t: System, sh: ShimId, k: Shim)
    requires ShimsInv(s) && Grows(s, t) && t.shims == s.shims[sh := k] && RepliesGood(t, sh, k)
    ensures ShimsInv(t)
  {
    hide RepliesGood, L.Extends;
    forall d | d in t.shims ensures RepliesGood(t, d, t.shims[d]) {
      if d != sh {
        assert RepliesGood(s, d, s.shims[d]);
        RepliesStayGood(s, t, d, s.shims[d]);
      }
    }
  }

  lemma ReflGrows(s: System)
    ensures Grows(s, s)
  {
  }

  // ---- The daemon moves ----

  lemma DaemonKeepsInv(s: System, inner: L.Step)
    requires Inv(s)
    ensures Inv(Apply(s, Daemon(inner))) && Grows(s, Apply(s, Daemon(inner)))
  {
    hide L.Apply, L.Inv, L.Extends, RepliesGood;
    var t := Apply(s, Daemon(inner));
    if inner.PeerWrite? && inner.conn == s.conn {
      ReflGrows(s);
    } else {
      L.StepKeepsInv(s.api, inner);
      L.LinesKept(s.api, inner, s.conn);
      forall d | d in t.shims ensures RepliesGood(t, d, t.shims[d]) {
        RepliesStayGood(s, t, d, s.shims[d]);
      }
    }
  }

  // ---- A shim moves ----

  predicate ByShim(step: Step) {
    step.ShimSends? || step.ShimTakes? || step.ShimReplies? || step.ShimLeaves?
  }

  lemma ShimStepReplies(s: System, sh: ShimId, k: Shim, step: Step)
    requires ByShim(step) && step.shim == sh && RepliesGood(s, sh, k)
    ensures RepliesGood(s, sh, ShimStep(k, step))
  {
    hide Good;
    assert forall j :: 0 <= j < |k.requests| ==> ShimStep(k, step).requests[j] == k.requests[j];
  }

  /** These steps neither take nor give back a lock. */
  lemma ShimStepLocks(k: Shim, step: Step)
    requires ByShim(step)
    ensures var t := ShimStep(k, step).task;
            HasWriter(t) == HasWriter(k.task) && HasReader(t) == HasReader(k.task) && t.Wrote? == k.task.Wrote?
    ensures ShimStep(k, step).task.Wrote? ==> ShimStep(k, step).taken == k.taken
  {
  }

  lemma ShimKeepsLocks(s: System, sh: ShimId, step: Step)
    requires ByShim(step) && step.shim == sh && LocksInv(s) && sh in s.shims
    ensures LocksInv(Apply(s, step))
  {
    hide ShimStep, HasWriter, HasReader;
    ShimStepLocks(s.shims[sh], step);
  }

  lemma ShimKeepsAlign(s: System, sh: ShimId, step: Step)
    requires ByShim(step) && step.shim == sh && AlignInv(s) && sh in s.shims
    ensures AlignInv(Apply(s, step))
  {
    hide ShimStep, HasWriter, HasReader;
    ShimStepLocks(s.shims[sh], step);
  }

  lemma ShimKeepsOrigin(s: System, sh: ShimId, step: Step)
    requires ByShim(step) && step.shim == sh && Inv(s) && sh in s.shims
    ensures OriginInv(Apply(s, step))
  {
    hide L.Inv, L.Extends, RepliesGood, LocksInv, AlignInv;
  }

  lemma ShimKeepsInv(s: System, sh: ShimId, step: Step)
    requires ByShim(step) && step.shim == sh && Inv(s)
    ensures Inv(Apply(s, step)) && Grows(s, Apply(s, step))
  {
    hide L.Inv, L.Extends, RepliesGood, LocksInv, AlignInv, OriginInv;
    var t := Apply(s, step);
    assert Grows(s, t) by { ReflGrows(s); }
    if sh in s.shims {
      ShimStepReplies(s, sh, s.shims[sh], step);
      RepliesStayGood(s, t, sh, t.shims[sh]);
      OthersKept(s, t, sh, t.shims[sh]);
      ShimKeepsLocks(s, sh, step);
      ShimKeepsAlign(s, sh, step);
      ShimKeepsOrigin(s, sh, step);
    }
  }

  lemma ShimConnectsKeepsRest(s: System, sh: ShimId)
    requires Inv(s) && sh !in s.shims
    ensures var t := Apply(s, ShimConnects(sh)); LocksInv(t) && AlignInv(t) && OriginInv(t)
  {
    hide L.Inv, L.Extends, ShimsInv;
  }

  lemma ShimConnectsKeepsInv(s: System, sh: ShimId)
    requires Inv(s)
    ensures Inv(Apply(s, ShimConnects(sh))) && Grows(s, Apply(s, ShimConnects(sh)))
  {
    hide L.Inv, L.Extends, LocksInv, AlignInv, OriginInv;
    var t := Apply(s, ShimConnects(sh));
    assert Grows(s, t) by { ReflGrows(s); }
    if sh !in s.shims {
      OthersKept(s, t, sh, t.shims[sh]);
      ShimConnectsKeepsRest(s, sh);
    }
  }

  // ---- The exchange ----

  lemma MoveTask(s: System, sh: ShimId, k: Shim, task: Task)
    requires RepliesGood(s, sh, k) && k.taken > 0 && !k.task.Reading? && !k.task.Gone?
    requires !task.Reading? && !task.Gone? && !task.Writing?
    ensures RepliesGood(s, sh, At(k, task))
  {
    hide Good;
  }

  lemma LockKeepsInv(s: System, sh: ShimId, step: Step)
    requires step == LockWriter(sh) || step == LockReader(sh)
    requires Inv(s)
    ensures Inv(Apply(s, step)) && Grows(s, Apply(s, step))
  {
    hide L.Inv, L.Extends, RepliesGood;
    var t := Apply(s, step);
    assert Grows(s, t) by { ReflGrows(s); }
    if t != s {
      TakenPositive(s, sh);
      MoveTask(s, sh, s.shims[sh], t.shims[sh].task);
      RepliesStayGood(s, t, sh, t.shims[sh]);
      OthersKept(s, t, sh, t.shims[sh]);
      assert LocksInv(t);
      assert AlignInv(t);
      assert OriginInv(t);
    }
  }

  lemma TakenPositive(s: System, sh: ShimId)
    requires ShimsInv(s) && sh in s.shims && !s.shims[sh].task.Reading? && !s.shims[sh].task.Gone?
    ensures OnRequest(s.shims[sh]) && RepliesGood(s, sh, s.shims[sh]) && Current(s.shims[sh]).rpcMethod.Some?
  {
    hide Good;
    assert RepliesGood(s, sh, s.shims[sh]);
  }

  lemma WriteApi(s: System, sh: ShimId)
    requires L.Inv(s.api) && CanWrite(s, sh)
    ensures var t := ApplyWrite(s, sh);
            && L.Inv(t.api) && L.Extends(s.api, t.api) && s.conn in t.api.conns
            && t.api.conns[s.conn].lines == s.api.conns[s.conn].lines + [Current(s.shims[sh])]
  {
    hide L.Inv, L.Extends;
    L.StepKeepsInv(s.api, L.PeerWrite(s.conn, Current(s.shims[sh])));
  }

  lemma WriteOrigin(s: System, sh: ShimId)
    requires Inv(s) && CanWrite(s, sh)
    ensures OriginInv(ApplyWrite(s, sh)) && Grows(s, ApplyWrite(s, sh))
  {
    hide L.Apply, L.Inv, L.Extends, ShimsInv, LocksInv, AlignInv;
    WriteApi(s, sh);
  }

  lemma WriteKeepsInv(s: System, sh: ShimId)
    requires Inv(s) && CanWrite(s, sh)
    ensures Inv(ApplyWrite(s, sh)) && Grows(s, ApplyWrite(s, sh))
  {
    hide L.Apply, L.Inv, L.Extends, RepliesGood, OriginInv;
    var t := ApplyWrite(s, sh);
    WriteApi(s, sh);
    WriteOrigin(s, sh);
    TakenPositive(s, sh);
    MoveTask(s, sh, s.shims[sh], Wrote);
    RepliesStayGood(s, t, sh, t.shims[sh]);
    OthersKept(s, t, sh, t.shims[sh]);
    assert LocksInv(t);
    assert AlignInv(t);
  }

  /** A shim that holds both locks hands them back with a reply that is its own. */
  lemma ReleaseKeepsInv(s: System, sh: ShimId, reply: L.Reply, got: nat, broken: bool)
    requires Inv(s) && Holds(s, sh)
    requires Good(s, sh, s.shims[sh].taken - 1, Current(s.shims[sh]), reply)
    requires s.broken ==> broken
    requires !broken ==> s.shims[sh].task.Wrote? && got == s.got + 1
    ensures Inv(Release(s, sh, reply, got, broken)) && Grows(s, Release(s, sh, reply, got, broken))
  {
    hide L.Inv, L.Extends, RepliesGood, Good;
    var t := Release(s, sh, reply, got, broken);
    assert Grows(s, t) by { ReflGrows(s); }
    ReleaseReplies(s, sh, s.shims[sh], reply);
    RepliesStayGood(s, t, sh, t.shims[sh]);
    OthersKept(s, t, sh, t.shims[sh]);
    assert LocksInv(t);
    assert AlignInv(t);
    assert OriginInv(t);
  }

  lemma ReleaseReplies(s: System, sh: ShimId, k: Shim, reply: L.Reply)
    requires ShimsInv(s) && sh in s.shims && k == s.shims[sh] && HasReader(k.task) && OnRequest(k)
    requires Good(s, sh, k.taken - 1, Current(k), reply)
    ensures RepliesGood(s, sh, At(k, Writing(reply)))
  {
    hide Good;
    assert RepliesGood(s, sh, k);
  }

  lemma ReadGood(s: System, sh: ShimId)
    requires Inv(s) && CanRead(s, sh)
    ensures Good(s, sh, s.shims[sh].taken - 1, Current(s.shims[sh]), s.api.conns[s.conn].replies[s.got])
  {
    hide L.Inv, L.IsResponseMessage, L.FromAnswer, L.ConnectAck, ShimsInv;
    assert s.reader == Some(sh);
    L.RepliesAlign(s.api, s.conn, s.got);
  }

  lemma ExchangeKeepsInv(s: System, sh: ShimId, step: Step)
    requires Inv(s)
    requires step == Read(sh) || step == ReadUnusable(sh) || step == ReadBreaks(sh)
             || step == WriteFails(sh, true) || step == WriteFails(sh, false) || step == Write(sh)
    ensures Inv(Apply(s, step)) && Grows(s, Apply(s, step))
  {
    hide Inv, Grows, Good, ApplyWrite;
    ReflGrows(s);
    match step
    case Write(_) => if CanWrite(s, sh) { WriteKeepsInv(s, sh); }
    case Read(_) =>
      if CanRead(s, sh) {
        ReadGood(s, sh);
        ReleaseKeepsInv(s, sh, s.api.conns[s.conn].replies[s.got], s.got + 1, s.broken);
      }
    case ReadUnusable(_) =>
      if CanRead(s, sh) {
        ErrorGood(s, sh, s.shims[sh].taken - 1, Current(s.shims[sh]));
        ReleaseKeepsInv(s, sh, ProxyError(Current(s.shims[sh])), s.got + 1, s.broken);
      }
    case ReadBreaks(_) => if Holds(s, sh) { FailsKeepsInv(s, sh); }
    case WriteFails(_, delivered) =>
      if CanWrite(s, sh) {
        if delivered {
          WriteKeepsInv(s, sh);
          WroteHolds(s, sh);
          FailsKeepsInv(ApplyWrite(s, sh), sh);
          GrowsTrans(s, ApplyWrite(s, sh), Fails(ApplyWrite(s, sh), sh));
        } else {
          FailsKeepsInv(s, sh);
        }
      }
  }

  lemma WroteHolds(s: System, sh: ShimId)
    requires CanWrite(s, sh)
    ensures Holds(ApplyWrite(s, sh), sh)
  {
    hide L.Apply;
  }

  lemma ErrorGood(s: System, sh: ShimId, j: nat, line: L.Line)
    ensures Good(s, sh, j, line, ProxyError(line))
  {
  }

  lemma FailsKeepsInv(s: System, sh: ShimId)
    requires Inv(s) && Holds(s, sh)
    ensures Inv(Fails(s, sh)) && Grows(s, Fails(s, sh))
  {
    hide Inv, Grows, Good;
    ErrorGood(s, sh, s.shims[sh].taken - 1, Current(s.shims[sh]));
    ReleaseKeepsInv(s, sh, ProxyError(Current(s.shims[sh])), s.got, true);
  }

  lemma GrowsTrans(a: System, b: System, c: System)
    requires Grows(a, b) && Grows(b, c)
    ensures Grows(a, c)
  {
    L.ExtendsTrans(a.api, b.api, c.api);
  }

  lemma StepKeepsInv(s: System, step: Step)
    requires Inv(s)
    ensures Inv(Apply(s, step)) && Grows(s, Apply(s, step))
  {
    hide Inv, Grows, Apply;
    match step
    case Daemon(inner) => DaemonKeepsInv(s, inner);
    case ShimConnects(sh) => ShimConnectsKeepsInv(s, sh);
    case LockWriter(sh) => LockKeepsInv(s, sh, step);
    case LockReader(sh) => LockKeepsInv(s, sh, step);
    case Write(sh) => ExchangeKeepsInv(s, sh, step);
    case WriteFails(sh, _) => ExchangeKeepsInv(s, sh, step);
    case Read(sh) => ExchangeKeepsInv(s, sh, step);
    case ReadUnusable(sh) => ExchangeKeepsInv(s, sh, step);
    case ReadBreaks(sh) => ExchangeKeepsInv(s, sh, step);
    case _ => ShimKeepsInv(s, step.shim, step);
  }

  lemma {:induction false} RunKeepsInv(s: System, steps: seq<Step>)
    requires Inv(s)
    ensures Inv(Run(s, steps))
    decreases |steps|
  {
    hide Inv, Grows, Apply;
    if steps != [] {
      StepKeepsInv(s, steps[0]);
      RunKeepsInv(Apply(s, steps[0]), steps[1..]);
    }
  }

  // ---- Theorems over every run ----

  /** However many shims share the connection and whatever fails, the j-th reply a shim
      receives is the reply to its own j-th request. */
  lemma RepliesAreTheShimsOwn(start: System, steps: seq<Step>, sh: ShimId, j: nat)
    requires Starts(start)
    requires sh in Run(start, steps).shims && j < |Run(start, steps).shims[sh].replies|
    ensures var s := Run(start, steps); var k := s.shims[sh];
            j < |k.requests| && Good(s, sh, j, k.requests[j], k.replies[j])
  {
    hide Good, L.Inv;
    var s := Run(start, steps);
    RunKeepsInv(start, steps);
    assert RepliesGood(s, sh, s.shims[sh]);
  }

  /** What an answer with an `id` says is what the shim hears. */
  lemma ResultsReachTheShim(start: System, steps: seq<Step>, sh: ShimId, j: nat)
    requires Starts(start)
    requires sh in Run(start, steps).shims && j < |Run(start, steps).shims[sh].replies|
    requires Run(start, steps).shims[sh].replies[j].source.Remote?
    ensures var r := Run(start, steps).shims[sh].replies[j].response;
            var a := Run(start, steps).shims[sh].replies[j].source.answer.body;
            && (Get(a, "id").Some? ==>
                  && r.id == Get(a, "id").value && r.result == GetNonNull(a, "result")
                  && (r.error.Some? <==> GetNonNull(a, "error").Some?)
                  && (r.error.Some? ==>
                        && Get(GetNonNull(a, "error").value, "code") == Some(Int(r.error.value.code))
                        && Get(GetNonNull(a, "error").value, "message") == Some(Str(r.error.value.message))))
            && (Get(a, "id").None? ==> r.result == Some(a) && r.error == None)
  {
    hide Run, L.FromAnswer, L.IsResponseMessage;
    RepliesAreTheShimsOwn(start, steps, sh, j);
    var k := Run(start, steps).shims[sh];
    L.Forwarded(L.LineId(k.requests[j]), k.replies[j].source.answer.body);
  }

  /** At most one shim is between its write and its read. */
  lemma OneExchangeAtATime(start: System, steps: seq<Step>, a: ShimId, b: ShimId)
    requires Starts(start)
    requires var s := Run(start, steps);
             a in s.shims && b in s.shims && s.shims[a].task.Wrote? && s.shims[b].task.Wrote?
    ensures a == b
  {
    hide L.Inv;
    RunKeepsInv(start, steps);
  }

  /** No deadlock: while a shim waits for a lock, some shim either can take the lock it
      waits for or holds both and waits for neither. */
  lemma LocksDoNotDeadlock(start: System, steps: seq<Step>, sh: ShimId)
    requires Starts(start)
    requires var s := Run(start, steps);
             sh in s.shims && (s.shims[sh].task.WantWriter? || s.shims[sh].task.WantReader?)
    ensures var s := Run(start, steps);
            exists h :: h in s.shims &&
              (|| (s.shims[h].task.WantWriter? && s.writer == None)
               || (s.shims[h].task.WantReader? && s.reader == None)
               || s.shims[h].task.Locked? || s.shims[h].task.Wrote?)
  {
    hide L.Inv;
    var s := Run(start, steps);
    RunKeepsInv(start, steps);
    var h := if s.writer.Some? then s.writer.value else sh;
    assert h in s.shims;
  }
}
