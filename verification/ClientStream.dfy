// One client-side stream (clientStream in pkg/rpc/client.go): the caller,
// ReadMsg, the context watcher, pingLoop, pongMonitor and Client.Close, as
// goroutines that share its fields, interleaved in any order.
module ClientStreams {
  import opened Wire

  const MSG_CAPACITY: nat := 8192
  const RECV_CAPACITY: nat := 1

  // The goroutines that call done().
  datatype Caller = TheReader | TheWatcher | TheMonitor | TheCloser

  // ReadMsg: between messages; blocked in recvWrite <- p; inside done() called by
  // processEnd; about to record the error onMessage returned; returned.
  datatype Reader =
    | Reading
    | Sending(payload: Payload)
    | ReaderInDone(err: Option<Error>)
    | Recording(error: Error)
    | ReaderExited

  // The watcher, pongMonitor and Client.Close.
  datatype Helper = Waiting | WritingEnd(err: Error) | InDone | HelperExited

  // The caller inside SendMsg.
  datatype Sender = SenderIdle | WritingCall(payload: Payload) | WritingData(payload: Payload)

  datatype Pinger = PingerIdle | WritingPing(timestamp: int)

  // How far the body of done() has come, for the one caller that won the
  // compare-and-swap: 1 entered, 2 reported End, 3 cancelled, 4 closed
  // heartbeatStop, 5 unsubscribed, 6 closed msgCh, 7 removed from Client.streams.
  const DONE_ENTERED: nat := 1
  const DONE_REPORTED: nat := 2
  const DONE_CANCELLED: nat := 3
  const DONE_HEARTBEAT: nat := 4
  const DONE_UNSUBSCRIBED: nat := 5
  const DONE_CHANNEL: nat := 6
  const DONE_REMOVED: nat := 7

  // How often each channel was closed.
  datatype Closes = Closes(heartbeat: nat, messages: nat, receive: nat)

  // The fields of clientStream, where its goroutines stand, and the histories the
  // properties speak of.
  //   live         the context is not cancelled; `expired` that its deadline passed
  //   mapped       Client.streams holds the stream; `late` that it was stored
  //                after done() had removed it
  //   out          requests published; arrived, processed  responses delivered
  //                into msgCh, and taken from it
  //   got, sawEof, answered  what RecvMsg returned: payloads, io.EOF, errors
  //   crashed      a send on, or close of, a closed channel
  datatype Client = Client(
    path: string,
    live: Flag,
    expired: Flag,
    closed: Flag,
    hasBegun: Flag,
    lastErr: Option<Error>,
    endErr: Option<Error>,
    msgCh: seq<Response>,
    msgChOpen: Flag,
    subscribed: Flag,
    heartbeatOpen: Flag,
    recv: seq<Payload>,
    recvOpen: Flag,
    stats: seq<StatEvent>,
    registered: Flag,
    mapped: Flag,
    late: Flag,
    reader: Reader,
    watcher: Helper,
    monitor: Helper,
    closer: Helper,
    sender: Sender,
    pinger: Pinger,
    winner: Option<Caller>,
    stage: nat,
    out: seq<Request>,
    arrived: seq<Response>,
    processed: seq<Response>,
    got: seq<Payload>,
    sawEof: Flag,
    answered: seq<Error>,
    closes: Closes,
    crashed: Flag)

  // newClientStream: Begin has been reported, and the stream is not yet stored.
  function Init(path: string): Client {
    Client(path, On, Off, Off, Off, None, None, [], On, On, On, [], On, [StatBegin], Off, Off, Off,
           Reading, Waiting, Waiting, Waiting, SenderIdle, PingerIdle, None, 0,
           [], [], [], [], Off, [], Closes(0, 0, 0), Off)
  }

  datatype Event =
    | Arrive(response: Response)
    | ReaderTake
    | ReaderDeliver
    | ReaderRecord
    | ReaderExit
    | CallDone(caller: Caller)
    | DoneStep
    | UserCancel(expired: Flag)
    | WatcherWake
    | MonitorTimeout
    | MonitorWrite(ok: Flag)
    | MonitorExit
    | CloserSnapshot
    | Register
    | SendMsg(payload: Payload)
    | SenderStep(ok: Flag)
    | CloseSend(ok: Flag)
    | RecvMsg
    | RecvEof
    | RecvCancelled
    | PingTick(timestamp: int)
    | PingWrite(ok: Flag)

  const HEARTBEAT_TIMEOUT := StatusError(Status(CODE_UNAVAILABLE, "server heartbeat timeout"))
  const UNPARSEABLE := PlainError("unmarshal")
  const HALF_CLOSE := End(None)
  const CANCELED := StatusError(Status(CODE_CANCELED, "context canceled"))

  const DEADLINE_EXCEEDED := StatusError(Status(CODE_DEADLINE_EXCEEDED, "deadline exceeded"))

  // The status of the cancelled context.
  function ContextError(c: Client): Error {
    if c.expired.On? then DEADLINE_EXCEEDED else CANCELED
  }

  // What RecvMsg returns when it picks the cancelled context.
  function RecvError(c: Client): Error {
    if c.lastErr.Some? then c.lastErr.value else ContextError(c)
  }

  function Publish(c: Client, r: Request, ok: Flag): Client {
    if ok.On? then c.(out := c.out + [r]) else c
  }

  // onMessage on the message just taken from msgCh.
  function OnMessage(c: Client, r: Response): Client {
    match r
    case Begin(_, _) => c
    case Reply(p) =>
      if c.recvOpen.On? then c.(stats := c.stats + [InPayload(|p|)], reader := Sending(p)) else c
    case Finish(status, _) =>
      if !IsOk(status) then
        var err := StatusError(status.value);
        c.(endErr := Some(err), reader := ReaderInDone(Some(err)))
      else if c.recvOpen.On? then
        c.(recvOpen := Off, closes := c.closes.(receive := c.closes.receive + 1), reader := ReaderInDone(None))
      else c.(reader := ReaderInDone(None))
    case Pong(_) => c
    case Garbled => c.(reader := Recording(UNPARSEABLE))
  }

  predicate IsInDone(c: Client, t: Caller) {
    match t
    case TheReader => c.reader.ReaderInDone?
    case TheWatcher => c.watcher.InDone?
    case TheMonitor => c.monitor.InDone?
    case TheCloser => c.closer.InDone?
  }

  // The caller that won is still in the body of done().
  predicate InBody(c: Client, t: Caller) { c.winner == Some(t) && c.stage < DONE_REMOVED }

  // done() returns to its caller.
  function LeaveDone(c: Client, t: Caller): Client {
    match t
    case TheReader =>
      if c.reader.ReaderInDone? && c.reader.err.Some? then c.(reader := Recording(c.reader.err.value))
      else c.(reader := Reading)
    case TheWatcher => c.(watcher := HelperExited)
    case TheMonitor => c.(monitor := HelperExited)
    case TheCloser => c.(closer := Waiting)
  }

  function CloseHeartbeat(c: Client): Client {
    c.(heartbeatOpen := Off, closes := c.closes.(heartbeat := c.closes.heartbeat + 1),
       crashed := if c.heartbeatOpen.Off? then On else c.crashed)
  }

  function CloseMessages(c: Client): Client {
    c.(msgChOpen := Off, closes := c.closes.(messages := c.closes.messages + 1),
       crashed := if c.msgChOpen.Off? then On else c.crashed)
  }

  // The next statement of the body of done().
  function DoneBody(c: Client): Client {
    if c.winner.None? || c.stage >= DONE_REMOVED then c
    else if c.stage == DONE_ENTERED then c.(stats := c.stats + [StatEnd(c.endErr)], stage := DONE_REPORTED)
    else if c.stage == DONE_REPORTED then c.(live := Off, stage := DONE_CANCELLED)
    else if c.stage == DONE_CANCELLED then CloseHeartbeat(c).(stage := DONE_HEARTBEAT)
    else if c.stage == DONE_HEARTBEAT then c.(subscribed := Off, stage := DONE_UNSUBSCRIBED)
    else if c.stage == DONE_UNSUBSCRIBED then CloseMessages(c).(stage := DONE_CHANNEL)
    else LeaveDone(c.(mapped := Off, stage := DONE_REMOVED), c.winner.value)
  }

  // One atomic step. A step that is not enabled changes nothing.
  function Step(c: Client, e: Event): Client {
    match e
    case Arrive(r) =>
      if c.subscribed.On? && |c.msgCh| < MSG_CAPACITY then
        c.(msgCh := c.msgCh + [r], arrived := c.arrived + [r],
           crashed := if c.msgChOpen.Off? then On else c.crashed)
      else c
    case ReaderTake =>
      if c.reader.Reading? && c.msgCh != [] then OnMessage(TakeMessage(c), c.msgCh[0]) else c
    case ReaderDeliver =>
      if c.reader.Sending? && |c.recv| < RECV_CAPACITY then
        c.(recv := c.recv + [c.reader.payload], reader := Reading,
           crashed := if c.recvOpen.Off? then On else c.crashed)
      else c
    case ReaderRecord =>
      if c.reader.Recording? then
        c.(lastErr := if c.lastErr.None? then Some(c.reader.error) else c.lastErr, reader := ReaderExited)
      else c
    case ReaderExit =>
      if c.reader.Reading? && (c.live.Off? || (c.msgCh == [] && c.msgChOpen.Off?)) then
        c.(reader := ReaderExited)
      else c
    case CallDone(t) =>
      if !IsInDone(c, t) || InBody(c, t) then c
      else if c.closed.On? then LeaveDone(c, t)
      else c.(closed := On, winner := Some(t), stage := DONE_ENTERED)
    case DoneStep => DoneBody(c)
    case UserCancel(expired) => if c.live.On? then c.(live := Off, expired := expired) else c
    case WatcherWake => if c.watcher.Waiting? && c.live.Off? then c.(watcher := InDone) else c
    case MonitorTimeout =>
      if c.monitor.Waiting? then
        c.(endErr := Some(HEARTBEAT_TIMEOUT), monitor := WritingEnd(HEARTBEAT_TIMEOUT))
      else c
    case MonitorWrite(ok) =>
      if c.monitor.WritingEnd? then Publish(c, End(Some(HEARTBEAT_TIMEOUT.status)), ok).(monitor := InDone) else c
    case MonitorExit =>
      if c.monitor.Waiting? && (c.heartbeatOpen.Off? || c.live.Off?) then c.(monitor := HelperExited) else c
    case CloserSnapshot =>
      if c.closer.Waiting? && c.mapped.On? then c.(closer := InDone) else c
    case Register =>
      if c.registered.Off? then
        c.(registered := On, mapped := On, late := if c.stage == DONE_REMOVED then On else Off)
      else c
    case SendMsg(p) =>
      if !c.sender.SenderIdle? || c.closed.On? then c
      else if c.hasBegun.On? then c.(sender := WritingData(p))
      else c.(hasBegun := On, sender := WritingCall(p))
    case SenderStep(ok) =>
      (match c.sender
       case SenderIdle => c
       case WritingCall(p) => Publish(c, Call(c.path), ok).(sender := WritingData(p))
       case WritingData(p) =>
         Publish(c.(stats := c.stats + [OutPayload(|p|)]), Data(p), ok).(sender := SenderIdle))
    case CloseSend(ok) => if c.sender.SenderIdle? then Publish(c, HALF_CLOSE, ok) else c
    case RecvMsg =>
      if c.recv != [] then c.(recv := c.recv[1..], got := c.got + [c.recv[0]]) else c
    case RecvEof => if c.recv == [] && c.recvOpen.Off? then c.(sawEof := On) else c
    case RecvCancelled => if c.live.Off? then c.(answered := c.answered + [RecvError(c)]) else c
    case PingTick(ts) => if c.pinger.PingerIdle? && c.closed.Off? then c.(pinger := WritingPing(ts)) else c
    case PingWrite(ok) =>
      if c.pinger.WritingPing? then Publish(c, Ping(c.pinger.timestamp), ok).(pinger := PingerIdle) else c
  }

  function TakeMessage(c: Client): Client
    requires c.msgCh != []
  {
    c.(msgCh := c.msgCh[1..], processed := c.processed + [c.msgCh[0]])
  }

  function Run(c: Client, events: seq<Event>): Client {
    if events == [] then c else Step(Run(c, events[..|events| - 1]), events[|events| - 1])
  }

  // ---------------------------------------------------------------------
  // What every step keeps
  // ---------------------------------------------------------------------

  function Held(r: Reader): seq<Payload> { if r.Sending? then [r.payload] else [] }

  // Responses: what arrived was processed or waits; what RecvMsg returned, the
  // buffer and the blocked payload are what was processed before the OK End.
  ghost predicate QueueInv(c: Client) {
    && c.arrived == c.processed + c.msgCh
    && |c.recv| <= RECV_CAPACITY
    && c.recvOpen == Not(Completed(c.processed))
    && (c.reader.Sending? ==> c.recvOpen.On?)
    && c.got + c.recv + Held(c.reader) == PayloadsBeforeEnd(c.processed)
    && (c.sawEof.On? ==> c.recvOpen.Off? && c.recv == [])
    && c.closes.receive == (if c.recvOpen.Off? then 1 else 0)
  }

  // done(): one caller wins, and what it has undone is exactly what its progress
  // says. Nothing is ever sent on, or closed, twice.
  ghost predicate DoneInv(c: Client) {
    && c.stage <= DONE_REMOVED
    && (c.closed.On? <==> c.stage >= DONE_ENTERED)
    && (c.winner.Some? <==> c.stage >= DONE_ENTERED)
    && (c.winner.Some? && c.stage < DONE_REMOVED ==> IsInDone(c, c.winner.value))
    && (c.stage >= DONE_CANCELLED ==> c.live.Off?)
    && c.heartbeatOpen == (if c.stage >= DONE_HEARTBEAT then Off else On)
    && c.subscribed == (if c.stage >= DONE_UNSUBSCRIBED then Off else On)
    && c.msgChOpen == (if c.stage >= DONE_CHANNEL then Off else On)
    && c.closes.heartbeat == (if c.stage >= DONE_HEARTBEAT then 1 else 0)
    && c.closes.messages == (if c.stage >= DONE_CHANNEL then 1 else 0)
    && c.crashed.Off?
  }

  ghost predicate StatInv(c: Client) {
    if c.stage >= DONE_REPORTED then StatPhaseOf(c.stats).Closed? else StatPhaseOf(c.stats) == Opened
  }

  // Client.streams: stored and not yet removed, or stored after the removal.
  ghost predicate MapInv(c: Client) {
    && (c.late.On? ==> c.stage == DONE_REMOVED && c.registered.On?)
    && c.mapped == (if c.registered.On? && (c.stage < DONE_REMOVED || c.late.On?) then On else Off)
  }

  // The Call goes first and only once.
  ghost predicate SendInv(c: Client) {
    && (c.sender.WritingCall? ==> c.hasBegun.On?)
    && (c.sender.WritingData? ==> c.hasBegun.On?)
    && (c.hasBegun.Off? || c.sender.WritingCall? ==> Unstarted(c.out))
    && CallLeads(c.out)
  }

  ghost predicate Unstarted(out: seq<Request>) {
    forall i :: 0 <= i < |out| ==> !out[i].Call? && !out[i].Data?
  }

  ghost predicate CallLeads(out: seq<Request>) {
    forall i, j :: 0 <= i < j < |out| && out[j].Call? ==> !out[i].Call? && !out[i].Data?
  }

  // An End with an error status.
  predicate IsErrorEnd(r: Response) { r.Finish? && !IsOk(r.status) }

  // The error RecvMsg reports after cancellation is the status of an End the
  // reader took, or a message it could not parse. The reader takes nothing after
  // an error End, and records its status last of all.
  ghost predicate ErrorInv(c: Client) {
    && (c.lastErr.Some? ==> c.reader.ReaderExited? && Explained(c.lastErr.value, c.processed))
    && (c.reader.Recording? ==> Explained(c.reader.error, c.processed))
    && (c.reader.ReaderInDone? && c.reader.err.Some? ==> Explained(c.reader.err.value, c.processed))
    && !VerdictOf(c.processed).Ignored?
    && (VerdictOf(c.processed).Failed? ==>
          var err := VerdictOf(c.processed).error;
          || c.reader == ReaderInDone(Some(err))
          || c.reader == Recording(err)
          || (c.reader.ReaderExited? && c.lastErr == Some(err)))
  }

  // What the responses say about the RPC: no error End; an error End, last of
  // all; or an error End that was not the last response taken.
  datatype Verdict = NoVerdict | Failed(error: Error) | Ignored

  function VerdictAdvance(v: Verdict, r: Response): Verdict {
    if !v.NoVerdict? then Ignored
    else if IsErrorEnd(r) then Failed(StatusError(r.status.value))
    else NoVerdict
  }

  function VerdictOf(rs: seq<Response>): Verdict {
    if rs == [] then NoVerdict else VerdictAdvance(VerdictOf(rs[..|rs| - 1]), rs[|rs| - 1])
  }

  lemma VerdictAppend(rs: seq<Response>, r: Response)
    ensures VerdictOf(rs + [r]) == VerdictAdvance(VerdictOf(rs), r)
  {
    assert (rs + [r])[..|rs|] == rs;
  }

  ghost predicate Explained(e: Error, processed: seq<Response>) {
    exists i :: 0 <= i < |processed| && Explains(e, processed[i])
  }

  ghost predicate Explains(e: Error, r: Response) {
    (IsErrorEnd(r) && e == StatusError(r.status.value)) || (r.Garbled? && e == UNPARSEABLE)
  }

  ghost predicate Inv(c: Client) {
    QueueInv(c) && DoneInv(c) && StatInv(c) && MapInv(c) && SendInv(c) && ErrorInv(c)
  }

  lemma InitInv(path: string)
    ensures Inv(Init(path))
  {
    StatAppend([], StatBegin);
  }

  lemma ExplainedLater(e: Error, processed: seq<Response>, r: Response)
    ensures Explained(e, processed) ==> Explained(e, processed + [r])
    ensures Explains(e, r) ==> Explained(e, processed + [r])
  {
    var all := processed + [r];
    if Explained(e, processed) {
      var i :| 0 <= i < |processed| && Explains(e, processed[i]);
      assert all[i] == processed[i];
    }
    assert all[|processed|] == r;
  }

  // ---------------------------------------------------------------------
  // Every step keeps the invariant
  // ---------------------------------------------------------------------

  lemma ArriveKeeps(c: Client, r: Response)
    requires Inv(c)
    ensures Inv(Step(c, Arrive(r)))
  {
    assert c.arrived + [r] == c.processed + (c.msgCh + [r]);
  }

  // ReadMsg takes a message: the queues ...
  lemma TakeQueue(c: Client)
    requires QueueInv(c) && c.reader.Reading? && c.msgCh != []
    ensures QueueInv(Step(c, ReaderTake))
  {
    var r := c.msgCh[0];
    assert c.arrived == (c.processed + [r]) + c.msgCh[1..];
    CompletedAppend(c.processed, r);
    match r
    case Reply(_) =>
    case Finish(status, _) => if IsOk(status) {} else {}
    case _ =>
  }

  // ... teardown, stats and what was sent ...
  lemma TakeFrame(c: Client)
    requires c.reader.Reading? && c.msgCh != []
    ensures SameTeardown(c, Step(c, ReaderTake))
  {
    match c.msgCh[0]
    case Reply(_) =>
    case Finish(status, _) => if IsOk(status) {} else {}
    case _ =>
  }

  // What DoneInv and MapInv look at, the reader's place aside.
  predicate SameTeardown(c: Client, c': Client) {
    && c'.stage == c.stage && c'.closed == c.closed && c'.winner == c.winner && c'.live == c.live
    && c'.heartbeatOpen == c.heartbeatOpen && c'.subscribed == c.subscribed && c'.msgChOpen == c.msgChOpen
    && c'.closes.heartbeat == c.closes.heartbeat && c'.closes.messages == c.closes.messages
    && c'.crashed == c.crashed && c'.watcher == c.watcher && c'.monitor == c.monitor && c'.closer == c.closer
    && c'.late == c.late && c'.registered == c.registered && c'.mapped == c.mapped
  }

  lemma TeardownKept(c: Client, c': Client)
    requires DoneInv(c) && MapInv(c) && SameTeardown(c, c') && !c.reader.ReaderInDone?
    ensures DoneInv(c') && MapInv(c')
  {}

  lemma TakeReports(c: Client)
    requires c.reader.Reading? && c.msgCh != []
    ensures var r, c' := c.msgCh[0], Step(c, ReaderTake);
            c'.stats == if r.Reply? && c.recvOpen.On? then c.stats + [InPayload(|r.payload|)] else c.stats
  {
    match c.msgCh[0]
    case Reply(_) =>
    case Finish(status, _) => if IsOk(status) {} else {}
    case _ =>
  }

  lemma StatKept(c: Client, c': Client, more: seq<StatEvent>)
    requires StatInv(c) && c'.stage == c.stage && c'.stats == c.stats + more
    requires |more| <= 1 && forall k :: 0 <= k < |more| ==> more[k].InPayload? || more[k].OutPayload?
    ensures StatInv(c')
  {
    if more == [] { assert c.stats + more == c.stats; } else { StatAppend(c.stats, more[0]); }
  }

  lemma TakeStat(c: Client)
    requires StatInv(c) && c.reader.Reading? && c.msgCh != []
    ensures StatInv(Step(c, ReaderTake))
  {
    TakeFrame(c);
    TakeReports(c);
    var r, c' := c.msgCh[0], Step(c, ReaderTake);
    if r.Reply? && c.recvOpen.On? {
      StatKept(c, c', [InPayload(|r.payload|)]);
    } else {
      StatKept(c, c', []);
    }
  }

  lemma TakeSend(c: Client)
    requires SendInv(c) && c.reader.Reading? && c.msgCh != []
    ensures SendInv(Step(c, ReaderTake))
  {
    var c' := Step(c, ReaderTake);
    match c.msgCh[0]
    case Reply(_) => assert c'.out == c.out;
    case Finish(status, _) => assert c'.out == c.out;
    case _ => assert c'.out == c.out;
  }

  // ... and the error: what the reader has been told, and what it is about to record.
  lemma TakeErrorEnd(c: Client)
    requires ErrorInv(c) && c.reader.Reading? && c.msgCh != [] && IsErrorEnd(c.msgCh[0])
    ensures ErrorInv(Step(c, ReaderTake))
  {
    var r := c.msgCh[0];
    VerdictAppend(c.processed, r);
    ExplainedLater(StatusError(r.status.value), c.processed, r);
  }

  lemma TakeGarbled(c: Client)
    requires ErrorInv(c) && c.reader.Reading? && c.msgCh != [] && c.msgCh[0].Garbled?
    ensures ErrorInv(Step(c, ReaderTake))
  {
    VerdictAppend(c.processed, c.msgCh[0]);
    ExplainedLater(UNPARSEABLE, c.processed, c.msgCh[0]);
  }

  lemma TakeHarmless(c: Client)
    requires ErrorInv(c) && c.reader.Reading? && c.msgCh != [] && !IsErrorEnd(c.msgCh[0]) && !c.msgCh[0].Garbled?
    ensures ErrorInv(Step(c, ReaderTake))
  {
    VerdictAppend(c.processed, c.msgCh[0]);
    match c.msgCh[0]
    case Reply(_) =>
    case Finish(_, _) =>
    case _ =>
  }

  lemma TakeError(c: Client)
    requires ErrorInv(c) && c.reader.Reading? && c.msgCh != []
    ensures ErrorInv(Step(c, ReaderTake))
  {
    if IsErrorEnd(c.msgCh[0]) { TakeErrorEnd(c); }
    else if c.msgCh[0].Garbled? { TakeGarbled(c); }
    else { TakeHarmless(c); }
  }

  lemma TakeKeeps(c: Client)
    requires Inv(c) && c.reader.Reading? && c.msgCh != []
    ensures Inv(Step(c, ReaderTake))
  {
    TakeQueue(c);
    TakeFrame(c);
    TeardownKept(c, Step(c, ReaderTake));
    TakeStat(c);
    TakeSend(c);
    TakeError(c);
  }

  lemma ReaderKeeps(c: Client, e: Event)
    requires Inv(c) && (e.ReaderDeliver? || e.ReaderRecord? || e.ReaderExit?)
    ensures Inv(Step(c, e))
  {
    match e
    case ReaderDeliver =>
    case ReaderRecord =>
    case _ =>
  }

  // Leaving done() only moves the goroutine that leaves.
  lemma LeaveQueue(c: Client, t: Caller)
    requires QueueInv(c) && ErrorInv(c) && IsInDone(c, t)
    ensures QueueInv(LeaveDone(c, t)) && ErrorInv(LeaveDone(c, t))
  {
    match t
    case TheReader => if c.reader.err.Some? {} else {}
    case TheWatcher =>
    case TheMonitor =>
    case TheCloser =>
  }

  lemma LeaveRest(c: Client, t: Caller)
    requires StatInv(c) && SendInv(c) && IsInDone(c, t)
    ensures StatInv(LeaveDone(c, t)) && SendInv(LeaveDone(c, t))
    ensures MapInv(c) ==> MapInv(LeaveDone(c, t))
  {
    match t
    case TheReader => if c.reader.err.Some? {} else {}
    case TheWatcher =>
    case TheMonitor =>
    case TheCloser =>
  }

  lemma LeaveTeardown(c: Client, t: Caller)
    requires DoneInv(c) && IsInDone(c, t) && c.closed.On? && (c.winner != Some(t) || c.stage == DONE_REMOVED)
    ensures DoneInv(LeaveDone(c, t))
  {
    match t
    case TheReader => if c.reader.err.Some? {} else {}
    case TheWatcher =>
    case TheMonitor =>
    case TheCloser =>
  }

  // A caller that lost the race leaves done() at once.
  lemma LoserKeeps(c: Client, t: Caller)
    requires Inv(c) && c.closed.On? && IsInDone(c, t) && !InBody(c, t)
    ensures Inv(LeaveDone(c, t))
  {
    LeaveQueue(c, t);
    LeaveRest(c, t);
    LeaveTeardown(c, t);
  }

  lemma WinnerKeeps(c: Client, t: Caller)
    requires Inv(c) && IsInDone(c, t) && c.closed.Off?
    ensures Inv(c.(closed := On, winner := Some(t), stage := DONE_ENTERED))
  {}

  lemma CallDoneKeeps(c: Client, t: Caller)
    requires Inv(c)
    ensures Inv(Step(c, CallDone(t)))
  {
    if IsInDone(c, t) && !InBody(c, t) {
      if c.closed.On? { LoserKeeps(c, t); } else { WinnerKeeps(c, t); }
    }
  }

  lemma DoneReportKeeps(c: Client)
    requires Inv(c) && c.winner.Some? && c.stage == DONE_ENTERED
    ensures Inv(DoneBody(c))
  {
    StatAppend(c.stats, StatEnd(c.endErr));
  }

  lemma DoneBodyKeeps(c: Client)
    requires Inv(c) && c.winner.Some? && DONE_ENTERED < c.stage < DONE_CHANNEL
    ensures Inv(DoneBody(c))
  {
    if c.stage == DONE_REPORTED {
    } else if c.stage == DONE_CANCELLED {
    } else if c.stage == DONE_HEARTBEAT {
    } else {
    }
  }

  lemma RemoveKeeps(c: Client)
    requires Inv(c) && c.stage == DONE_CHANNEL
    ensures Inv(c.(mapped := Off, stage := DONE_REMOVED))
  {}

  lemma DoneLeaveKeeps(c: Client)
    requires Inv(c) && c.winner.Some? && c.stage == DONE_CHANNEL
    ensures Inv(DoneBody(c))
  {
    var t, c' := c.winner.value, c.(mapped := Off, stage := DONE_REMOVED);
    RemoveKeeps(c);
    assert IsInDone(c', t);
    LeaveQueue(c', t);
    LeaveRest(c', t);
    LeaveTeardown(c', t);
  }

  lemma HelperKeeps(c: Client, e: Event)
    requires Inv(c)
    requires e.UserCancel? || e.WatcherWake? || e.MonitorTimeout? || e.MonitorExit? || e.CloserSnapshot? || e.Register?
    ensures Inv(Step(c, e))
  {
    match e
    case UserCancel(_) =>
    case WatcherWake =>
    case MonitorTimeout =>
    case MonitorExit =>
    case CloserSnapshot =>
    case _ =>
  }

  // A request joins what was published.
  lemma PublishedOrder(out: seq<Request>, r: Request)
    requires CallLeads(out)
    ensures !r.Call? ==> CallLeads(out + [r])
    ensures Unstarted(out) ==> CallLeads(out + [r])
    ensures Unstarted(out) && !r.Call? && !r.Data? ==> Unstarted(out + [r])
  {
    assert forall i :: 0 <= i < |out| ==> (out + [r])[i] == out[i];
  }

  lemma OutOnly(c: Client, out: seq<Request>)
    requires QueueInv(c) && DoneInv(c) && StatInv(c) && MapInv(c) && ErrorInv(c)
    ensures var c' := c.(out := out); QueueInv(c') && DoneInv(c') && StatInv(c') && MapInv(c') && ErrorInv(c')
  {}

  lemma PublishKeeps(c: Client, r: Request, ok: Flag)
    requires Inv(c) && !r.Call? && (r.Data? ==> c.hasBegun.On? && !c.sender.WritingCall?)
    ensures Inv(Publish(c, r, ok))
  {
    if ok.On? {
      PublishedOrder(c.out, r);
      OutOnly(c, c.out + [r]);
    }
  }

  lemma PublishCallKeeps(c: Client, ok: Flag)
    requires Inv(c) && c.sender.WritingCall?
    ensures Inv(Publish(c, Call(c.path), ok).(sender := WritingData(c.sender.payload)))
  {
    PublishedOrder(c.out, Call(c.path));
  }

  lemma SenderKeeps(c: Client, e: Event)
    requires Inv(c) && (e.SendMsg? || e.SenderStep? || e.CloseSend?)
    ensures Inv(Step(c, e))
  {
    match e
    case SendMsg(p) =>
    case CloseSend(ok) => PublishKeeps(c, HALF_CLOSE, ok);
    case SenderStep(ok) =>
      if c.sender.WritingCall? { PublishCallKeeps(c, ok); }
      else if c.sender.WritingData? { PublishDataKeeps(c, ok); }
  }

  lemma PublishDataKeeps(c: Client, ok: Flag)
    requires Inv(c) && c.sender.WritingData?
    ensures Inv(Step(c, SenderStep(ok)))
  {
    var p := c.sender.payload;
    OutPayloadKeeps(c, p);
    PublishKeeps(c.(stats := c.stats + [OutPayload(|p|)]), Data(p), ok);
    SenderRestKeeps(Publish(c.(stats := c.stats + [OutPayload(|p|)]), Data(p), ok));
  }

  lemma OutPayloadKeeps(c: Client, p: Payload)
    requires Inv(c)
    ensures Inv(c.(stats := c.stats + [OutPayload(|p|)]))
  {
    StatKept(c, c.(stats := c.stats + [OutPayload(|p|)]), [OutPayload(|p|)]);
  }

  lemma SenderRestKeeps(c: Client)
    requires Inv(c) && !c.sender.WritingCall?
    ensures Inv(c.(sender := SenderIdle))
  {}

  lemma CallerKeeps(c: Client, e: Event)
    requires Inv(c) && (e.RecvMsg? || e.RecvEof? || e.RecvCancelled? || e.PingTick?)
    ensures Inv(Step(c, e))
  {
    match e
    case RecvMsg =>
    case RecvEof =>
    case RecvCancelled =>
    case PingTick(_) =>
  }

  lemma HeartbeatKeeps(c: Client, e: Event)
    requires Inv(c) && (e.PingWrite? || e.MonitorWrite?)
    ensures Inv(Step(c, e))
  {
    match e
    case PingWrite(ok) => if c.pinger.WritingPing? { PublishKeeps(c, Ping(c.pinger.timestamp), ok); }
    case MonitorWrite(ok) => PublishKeeps(c, End(Some(HEARTBEAT_TIMEOUT.status)), ok);
  }

  /** Every step keeps the invariant. */
  lemma StepKeeps(c: Client, e: Event)
    requires Inv(c)
    ensures Inv(Step(c, e))
  {
    match e
    case Arrive(r) => ArriveKeeps(c, r);
    case ReaderTake =>
      if c.reader.Reading? && c.msgCh != [] { TakeKeeps(c); }
    case ReaderDeliver => ReaderKeeps(c, e);
    case ReaderRecord => ReaderKeeps(c, e);
    case ReaderExit => ReaderKeeps(c, e);
    case CallDone(t) => CallDoneKeeps(c, t);
    case DoneStep =>
      if c.winner.Some? && c.stage < DONE_REMOVED {
        if c.stage == DONE_ENTERED { DoneReportKeeps(c); }
        else if c.stage == DONE_CHANNEL { DoneLeaveKeeps(c); }
        else { DoneBodyKeeps(c); }
      }
    case SendMsg(_) => SenderKeeps(c, e);
    case SenderStep(_) => SenderKeeps(c, e);
    case CloseSend(_) => SenderKeeps(c, e);
    case RecvMsg => CallerKeeps(c, e);
    case RecvEof => CallerKeeps(c, e);
    case RecvCancelled => CallerKeeps(c, e);
    case PingTick(_) => CallerKeeps(c, e);
    case PingWrite(_) => HeartbeatKeeps(c, e);
    case MonitorWrite(_) => HeartbeatKeeps(c, e);
    case _ => HelperKeeps(c, e);
  }

  lemma {:induction false} RunKeeps(c: Client, events: seq<Event>)
    requires Inv(c)
    ensures Inv(Run(c, events))
  {
    if events != [] {
      RunKeeps(c, events[..|events| - 1]);
      StepKeeps(Run(c, events[..|events| - 1]), events[|events| - 1]);
    }
  }
}
