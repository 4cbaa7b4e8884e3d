// One server-side stream (serverStream in pkg/rpc/server.go): its fields, the
// critical sections its goroutines run, and what every one of them keeps.
module ServerStreams {
  import opened Wire

  const INBOX_CAPACITY: nat := 8192
  const RECV_CAPACITY: nat := 1

  // A request frame with its position in the client's publication order.
  datatype Frame = Frame(no: nat, body: Request)

  // The fields of serverStream that its methods update. `recv` is the buffer of
  // the channel behind recvRead and recvWrite; `recvOpen` is recvWrite != nil.
  datatype Stream = Stream(
    live: Flag,
    inbox: seq<Frame>,
    recv: seq<Payload>,
    recvOpen: Flag,
    hasBegun: Flag,
    header: Option<MD>,
    trailer: Option<MD>,
    statsBegun: Flag,
    finalized: Flag,
    endErr: Option<Error>,
    stats: seq<StatEvent>)

  function NewStream(live: Flag): Stream {
    Stream(live, [], [], On, Off, None, None, Off, Off, None, [])
  }

  // ---------------------------------------------------------------------
  // Critical sections
  // ---------------------------------------------------------------------

  function StatsBegin(s: Stream): Stream {
    if s.statsBegun.On? then s else s.(statsBegun := On, stats := s.stats + [StatBegin])
  }

  // The body that endOnce guards in finalize.
  function FinalizeOnce(s: Stream, err: Option<Error>): Stream {
    if s.finalized.On? then s
    else s.(finalized := On, endErr := err,
            stats := if s.statsBegun.On? then s.stats + [StatEnd(err)] else s.stats)
  }

  // beginMaybe: the Begin to publish, if any.
  function BeginMaybe(s: Stream, nid: string): (Stream, Option<Response>) {
    if s.hasBegun.On? then (s, None)
    else (s.(hasBegun := On), Some(Begin(MakeMetadata(s.header), nid)))
  }

  function JoinOption(old_: Option<MD>, md: Option<MD>): Option<MD> {
    if old_.None? then md
    else if md.None? then old_
    else Some(Join(old_.value, md.value))
  }

  // SetHeader reports whether the header was accepted.
  function SetHeader(s: Stream, md: Option<MD>): (Stream, Flag) {
    if s.hasBegun.On? then (s, Off) else (s.(header := JoinOption(s.header, md)), On)
  }

  function SetTrailer(s: Stream, md: Option<MD>): Stream {
    s.(trailer := JoinOption(s.trailer, md))
  }

  // processData up to the blocking send.
  function AcceptData(s: Stream, p: Payload): Stream {
    var b := StatsBegin(s);
    b.(stats := b.stats + [InPayload(|p|)])
  }

  function CloseRecv(s: Stream): Stream { s.(recvOpen := Off) }

  function FinishFrame(s: Stream, err: Option<Error>): Response
    requires WellFormedError(err)
  {
    Finish(StatusProto(err), MakeMetadata(s.trailer))
  }

  // ---------------------------------------------------------------------
  // Goroutines
  // ---------------------------------------------------------------------

  // Where a goroutine stands. `back` tells whether the close it runs returns to
  // the caller's loop or ends the goroutine; `last` marks the SendMsg that
  // serverUnaryHandler follows with close(nil).
  datatype Thread =
    | NotStarted
    | Idle
    | Sending(payload: Payload)
    | WriteBegin(payload: Payload, last: Flag)
    | WriteData(payload: Payload, last: Flag)
    | CloseBegin(err: Option<Error>, back: Flag)
    | CloseEnd(err: Option<Error>, back: Flag)
    | FinOnce(err: Option<Error>, back: Flag)
    | FinCancel(back: Flag)
    | FinRemove(back: Flag)
    | Exited

  // One incarnation of the stream of a reply inbox: the stream, its inbox worker
  // and its handler, with the histories the properties speak of.
  //   first       number of the frame that created it
  //   enq, done   frames accepted by enqueue; frames taken by the worker
  //   out         responses published successfully; `failed` if any was not
  //   got, sawEof what RecvMsg returned to the handler
  //   closing     some goroutine has entered close()
  //   begunAtEnd  the first finalize saw statsBegun
  //   removed     a finalize of this stream has completed
  datatype Inc = Inc(
    s: Stream,
    worker: Thread,
    handler: Thread,
    launches: nat,
    first: nat,
    enq: seq<Frame>,
    done: seq<Frame>,
    out: seq<Response>,
    failed: Flag,
    got: seq<Payload>,
    sawEof: Flag,
    closing: Flag,
    begunAtEnd: Flag,
    removed: Flag)

  function NewInc(live: Flag, first: nat): Inc {
    Inc(NewStream(live), Idle, NotStarted, 0, first, [], [], [], Off, [], Off, Off, Off, Off)
  }

  // The atomic steps of the worker and of the handler. `ok` says whether a
  // publication made by the step reaches NATS.
  datatype Local =
    | WorkerTake(ok: Flag)
    | WorkerDeliver
    | WorkerStep(ok: Flag)
    | WorkerExit
    | CallSetHeader(md: Option<MD>)
    | CallSendHeader(md: Option<MD>, ok: Flag)
    | CallSetTrailer(md: Option<MD>)
    | CallSendMsg(payload: Payload)
    | CallRecvMsg
    | CallRecvEof
    | HandlerReturn(err: Option<Error>)
    | UnaryReturn(payload: Payload)
    | HandlerStep(ok: Flag)

  const PUBLISH_FAILED := Some(PlainError("nats: publish failed"))
  const SERVER_STOPPING := Some(StatusError(Status(CODE_UNAVAILABLE, "server stopping")))
  const UNIMPLEMENTED := Some(StatusError(Status(CODE_UNIMPLEMENTED, "Unimplemented")))

  function Publish(inc: Inc, r: Response, ok: Flag): Inc {
    if ok.On? then inc.(out := inc.out + [r]) else inc.(failed := On)
  }

  function PublishMaybe(inc: Inc, r: Option<Response>, ok: Flag): Inc {
    if r.Some? then Publish(inc, r.value, ok) else inc
  }

  // FinalizeOnce with the history of what it saw.
  function FinalizeInc(inc: Inc, err: Option<Error>): Inc {
    inc.(s := FinalizeOnce(inc.s, err),
         begunAtEnd := if inc.s.finalized.On? then inc.begunAtEnd else inc.s.statsBegun)
  }

  function CancelInc(inc: Inc): Inc { inc.(s := inc.s.(live := Off)) }

  // One step of a goroutine that is inside SendMsg, close or finalize. The result
  // is the stream afterwards and where the goroutine goes.
  function StepThread(inc: Inc, nid: string, t: Thread, ok: Flag): (Inc, Thread) {
    match t
    case WriteBegin(p, last) =>
      var (s', begin) := BeginMaybe(inc.s, nid);
      var inc' := PublishMaybe(inc.(s := s'), begin, ok);
      if begin.None? || ok.On? then (inc', WriteData(p, last))
      else (inc'.(closing := On), CloseBegin(PUBLISH_FAILED, Not(last)))
    case WriteData(p, last) =>
      var inc' := Publish(inc.(s := inc.s.(stats := inc.s.stats + [OutPayload(|p|)])), Reply(p), ok);
      if last.On? then (inc'.(closing := On), CloseBegin(None, Off)) else (inc', Idle)
    case CloseBegin(err, back) =>
      var (s', begin) := BeginMaybe(inc.s, nid);
      (PublishMaybe(inc.(s := s'), begin, ok), CloseEnd(err, back))
    case CloseEnd(err, back) =>
      if WellFormedError(err) then (Publish(inc, FinishFrame(inc.s, err), ok), FinOnce(err, back)) else (inc, t)
    case FinOnce(err, back) => (FinalizeInc(inc, err), FinCancel(back))
    case FinCancel(back) => (CancelInc(inc), FinRemove(back))
    case FinRemove(back) => (inc.(removed := On), if back.On? then Idle else Exited)
    case _ => (inc, t)
  }

  // onRequest on the frame at the head of the inbox.
  function ProcessFrame(inc: Inc, registered: Flag, r: Request, ok: Flag): Inc {
    match r
    case Call(_) =>
      if registered.On? then inc.(s := StatsBegin(inc.s), handler := Idle, launches := inc.launches + 1)
      else inc.(worker := CloseBegin(UNIMPLEMENTED, On), closing := On)
    case Data(p) =>
      if inc.s.recvOpen.On? then inc.(s := AcceptData(inc.s, p), worker := Sending(p)) else inc
    case End(status) =>
      if IsOk(status) then inc.(s := CloseRecv(inc.s))
      else inc.(worker := FinOnce(Some(StatusError(status.value)), On))
    case Ping(ts) => Publish(inc, Pong(ts), ok)
    case Unknown => inc
  }

  // Taking frame f off the inbox, before it is processed.
  function Take(inc: Inc): Inc
    requires inc.s.inbox != []
  {
    inc.(s := inc.s.(inbox := inc.s.inbox[1..]), done := inc.done + [inc.s.inbox[0]])
  }

  // A local step. A step that is not enabled leaves the stream as it is.
  function LocalStep(inc: Inc, registered: Flag, nid: string, e: Local): Inc {
    match e
    case WorkerTake(ok) =>
      if inc.worker.Idle? && inc.s.inbox != [] then
        ProcessFrame(Take(inc), registered, inc.s.inbox[0].body, ok)
      else inc
    case WorkerDeliver =>
      if inc.worker.Sending? && |inc.s.recv| < RECV_CAPACITY then
        inc.(s := inc.s.(recv := inc.s.recv + [inc.worker.payload]), worker := Idle)
      else inc
    case WorkerStep(ok) =>
      if InClose(inc.worker) then
        var (inc', t) := StepThread(inc, nid, inc.worker, ok);
        inc'.(worker := t)
      else inc
    case WorkerExit =>
      if inc.worker.Idle? && inc.s.live.Off? then inc.(worker := Exited) else inc
    case CallSetHeader(md) =>
      if inc.handler.Idle? then inc.(s := SetHeader(inc.s, md).0) else inc
    case CallSendHeader(md, ok) =>
      if inc.handler.Idle? && SetHeader(inc.s, md).1.On? then
        var (s', begin) := BeginMaybe(SetHeader(inc.s, md).0, nid);
        PublishMaybe(inc.(s := s'), begin, ok)
      else inc
    case CallSetTrailer(md) =>
      if inc.handler.Idle? then inc.(s := SetTrailer(inc.s, md)) else inc
    case CallSendMsg(p) =>
      if inc.handler.Idle? then inc.(handler := WriteBegin(p, Off)) else inc
    case CallRecvMsg =>
      if inc.handler.Idle? && inc.s.recv != [] then
        inc.(s := inc.s.(recv := inc.s.recv[1..]), got := inc.got + [inc.s.recv[0]])
      else inc
    case CallRecvEof =>
      if inc.handler.Idle? && inc.s.recv == [] && inc.s.recvOpen.Off? then inc.(sawEof := On) else inc
    case HandlerReturn(err) =>
      if !inc.handler.Idle? || !WellFormedError(err) then inc
      else if inc.s.live.On? then inc.(handler := CloseBegin(err, Off), closing := On)
      else inc.(handler := Exited)
    case UnaryReturn(p) =>
      if !inc.handler.Idle? then inc
      else if inc.s.live.On? then inc.(handler := WriteBegin(p, On))
      else inc.(handler := Exited)
    case HandlerStep(ok) =>
      if InSend(inc.handler) || InClose(inc.handler) then
        var (inc', t) := StepThread(inc, nid, inc.handler, ok);
        inc'.(handler := t)
      else inc
  }

  predicate InSend(t: Thread) { t.WriteBegin? || t.WriteData? }

  predicate InClose(t: Thread) { t.CloseBegin? || t.CloseEnd? || InFinalize(t) }

  predicate InFinalize(t: Thread) { t.FinOnce? || t.FinCancel? || t.FinRemove? }

  // The step completes Server.remove(reply).
  predicate Removes(inc: Inc, e: Local) {
    || (e.WorkerStep? && inc.worker.FinRemove?)
    || (e.HandlerStep? && inc.handler.FinRemove?)
  }

  // ---------------------------------------------------------------------
  // What every local step keeps
  // ---------------------------------------------------------------------

  function Bodies(fs: seq<Frame>): (r: seq<Request>)
    ensures |r| == |fs|
    ensures forall i :: 0 <= i < |fs| ==> r[i] == fs[i].body
  {
    seq(|fs|, i requires 0 <= i < |fs| => fs[i].body)
  }

  lemma BodiesConcat(a: seq<Frame>, b: seq<Frame>)
    ensures Bodies(a + b) == Bodies(a) + Bodies(b)
  {}

  function Held(t: Thread): seq<Payload> { if t.Sending? then [t.payload] else [] }

  // Whether a Call is among the requests.
  function CallSeen(rs: seq<Request>): Flag {
    if rs == [] then Off
    else if rs[|rs| - 1].Call? then On
    else CallSeen(rs[..|rs| - 1])
  }

  predicate HasCall(inc: Inc) { CallSeen(Bodies(inc.done)).On? }

  // The thread that may run close(): the handler when the method is registered,
  // the worker (with Unimplemented) when it is not.
  function Closer(inc: Inc, registered: Flag): Thread {
    if registered.On? then inc.handler else inc.worker
  }

  // Frames: what was enqueued is what was processed and what waits; what the
  // handler got, the buffer and the blocked payload are what was processed.
  ghost predicate QueueInv(inc: Inc) {
    && inc.enq == inc.done + inc.s.inbox
    && |inc.s.recv| <= RECV_CAPACITY
    && inc.s.recvOpen == Not(HalfClosed(Bodies(inc.done)))
    && (inc.worker.Sending? ==> inc.s.recvOpen.On?)
    && inc.got + inc.s.recv + Held(inc.worker) == SentBeforeEnd(Bodies(inc.done))
    && (inc.sawEof.On? ==> inc.s.recvOpen.Off? && inc.s.recv == [])
    && (inc.worker.Exited? ==> inc.s.live.Off?)
  }

  // What monitors have seen: whether a Call was taken, the digest of the
  // publications, the phase of the stats trace.
  datatype Seen = Seen(called: Flag, wire: Digest, stats: StatPhase)

  function SeenOf(inc: Inc): Seen {
    Seen(CallSeen(Bodies(inc.done)), DigestOf(inc.out), StatPhaseOf(inc.s.stats))
  }

  // Goroutines: only the stream that processed the Call runs a handler or close.
  ghost predicate ThreadInv(inc: Inc, registered: Flag, n: Seen) {
    && !inc.worker.NotStarted? && !InSend(inc.worker) && !inc.handler.Sending?
    && (registered.On? ==> !inc.worker.CloseBegin? && !inc.worker.CloseEnd?)
    && (registered.Off? ==> inc.handler.NotStarted?)
    && (!inc.handler.NotStarted? ==> n.called.On? && inc.s.statsBegun.On?)
    && inc.launches == (if inc.handler.NotStarted? then 0 else 1)
    && (n.called.Off? ==> inc.s.hasBegun.Off? && inc.closing.Off? && n.wire.phase.Fresh?
                               && !inc.worker.CloseBegin? && !inc.worker.CloseEnd?)
    && (inc.worker.CloseBegin? || inc.worker.CloseEnd? ==>
          inc.worker.err.Some? && WellFormedError(inc.worker.err) && inc.worker.back.On?)
    && (InFinalize(inc.worker) ==> inc.worker.back.On?)
    && (inc.handler.CloseBegin? || inc.handler.CloseEnd? ==>
          WellFormedError(inc.handler.err) && (inc.handler.back.On? ==> inc.handler.err.Some?))
  }

  // close() runs at most once: a goroutine enters it only while the stream is
  // live, and leaves it only after cancelling.
  ghost predicate CloseInv(inc: Inc, registered: Flag) {
    var t := Closer(inc, registered);
    && (t.CloseBegin? || t.CloseEnd? ==> inc.closing.On?)
    && (t.CloseEnd? || t.WriteData? ==> inc.s.hasBegun.On?)
    && (InSend(t) && t.last.On? ==> inc.closing.Off?)
    && (inc.closing.On? ==> inc.s.hasBegun.On? || t.CloseBegin?)
    && (inc.closing.On? ==> inc.s.live.Off? || t.CloseBegin? || t.CloseEnd? || t.FinOnce? || t.FinCancel?)
    && (registered.On? && inc.closing.On? && inc.failed.Off? ==> (InClose(t) && t.back.Off?) || t.Exited?)
    && (inc.removed.On? ==> inc.s.finalized.On?)
    && (inc.worker.FinCancel? || inc.worker.FinRemove? ==> inc.s.finalized.On?)
    && (inc.handler.FinCancel? || inc.handler.FinRemove? ==> inc.s.finalized.On?)
    && (inc.worker.FinRemove? || inc.handler.FinRemove? ==> inc.s.live.Off?)
  }

  // The wire: while no publication failed, Begin Data* End; whatever fails, at
  // most one End, and an OK End is final.
  ghost predicate WireInv(inc: Inc, registered: Flag, n: Seen) {
    var t := Closer(inc, registered);
    var d := n.wire;
    && (inc.failed.Off? ==> d.phase == ExpectedPhase(inc, t))
    && d.finishes <= (if inc.closing.On? && !t.CloseBegin? && !t.CloseEnd? then 1 else 0)
    && (d.okFinish.On? ==>
          registered.On? && inc.closing.On? && ((InFinalize(t) && t.back.Off?) || t.Exited?))
    && d.overrun.Off?
  }

  function ExpectedPhase(inc: Inc, t: Thread): Phase {
    if inc.s.hasBegun.Off? then Fresh
    else if inc.closing.On? && !t.CloseBegin? && !t.CloseEnd? then Ended
    else Begun
  }

  // Stats: one leading Begin, one End exactly when Begin preceded the first
  // finalize, and that End carries the first finalize's error.
  ghost predicate StatInv(inc: Inc, n: Seen) {
    && n.stats == ExpectedStats(inc)
    && (inc.begunAtEnd.On? ==> inc.s.statsBegun.On? && inc.s.finalized.On?)
  }

  function ExpectedStats(inc: Inc): StatPhase {
    if inc.s.statsBegun.Off? then Silent
    else if inc.begunAtEnd.On? then Closed(inc.s.endErr)
    else Opened
  }

  // Everything but the queues.
  ghost predicate BusyInv(inc: Inc, registered: Flag, n: Seen) {
    ThreadInv(inc, registered, n) && CloseInv(inc, registered) && WireInv(inc, registered, n) && StatInv(inc, n)
  }

  ghost predicate IncInv(inc: Inc, registered: Flag) {
    QueueInv(inc) && BusyInv(inc, registered, SeenOf(inc))
  }

  // A Call is taken at most once.
  predicate FirstCall(inc: Inc) {
    inc.s.inbox != [] && inc.s.inbox[0].body.Call? ==> !HasCall(inc)
  }

  lemma NewIncInv(live: Flag, first: nat, registered: Flag)
    ensures IncInv(NewInc(live, first), registered)
  {}

  lemma BodiesAppend(fs: seq<Frame>, f: Frame)
    ensures Bodies(fs + [f]) == Bodies(fs) + [f.body]
    ensures CallSeen(Bodies(fs + [f])) == if f.body.Call? then On else CallSeen(Bodies(fs))
  {
    assert Bodies(fs + [f]) == Bodies(fs) + [f.body];
    assert (Bodies(fs) + [f.body])[..|fs|] == Bodies(fs);
  }

  // ---------------------------------------------------------------------
  // What a step shows the monitors
  // ---------------------------------------------------------------------

  function Publishing(n: Seen, r: Response, ok: Flag): Seen {
    if ok.On? then n.(wire := Advance(n.wire, r)) else n
  }

  function Reporting(n: Seen, e: StatEvent): Seen {
    n.(stats := StatAdvance(n.stats, e))
  }

  function ReportingBegin(n: Seen, s: Stream): Seen {
    if s.statsBegun.Off? then Reporting(n, StatBegin) else n
  }

  function ThreadShows(inc: Inc, nid: string, t: Thread, ok: Flag, n: Seen): Seen {
    match t
    case WriteBegin(_, _) =>
      if inc.s.hasBegun.Off? then Publishing(n, Begin(MakeMetadata(inc.s.header), nid), ok) else n
    case CloseBegin(_, _) =>
      if inc.s.hasBegun.Off? then Publishing(n, Begin(MakeMetadata(inc.s.header), nid), ok) else n
    case WriteData(p, _) => Reporting(Publishing(n, Reply(p), ok), OutPayload(|p|))
    case CloseEnd(err, _) => if WellFormedError(err) then Publishing(n, FinishFrame(inc.s, err), ok) else n
    case FinOnce(err, _) =>
      if inc.s.finalized.Off? && inc.s.statsBegun.On? then Reporting(n, StatEnd(err)) else n
    case _ => n
  }

  function FrameShows(inc: Inc, registered: Flag, r: Request, ok: Flag, n: Seen): Seen {
    match r
    case Call(_) => if registered.On? then ReportingBegin(n, inc.s) else n
    case Data(p) =>
      if inc.s.recvOpen.On? then Reporting(ReportingBegin(n, inc.s), InPayload(|p|)) else n
    case Ping(ts) => Publishing(n, Pong(ts), ok)
    case _ => n
  }

  lemma PublishShows(inc: Inc, r: Response, ok: Flag)
    ensures SeenOf(Publish(inc, r, ok)) == Publishing(SeenOf(inc), r, ok)
  {
    DigestAppend(inc.out, r);
  }

  lemma ReportShows(inc: Inc, s: Stream, e: StatEvent)
    requires s.stats == inc.s.stats + [e]
    ensures SeenOf(inc.(s := s)) == Reporting(SeenOf(inc), e)
  {
    StatAppend(inc.s.stats, e);
  }

  lemma StepShows(inc: Inc, nid: string, t: Thread, ok: Flag)
    ensures SeenOf(StepThread(inc, nid, t, ok).0) == ThreadShows(inc, nid, t, ok, SeenOf(inc))
  {
    match t
    case WriteBegin(_, _) => BeginShows(inc, nid, ok);
    case CloseBegin(_, _) => BeginShows(inc, nid, ok);
    case WriteData(p, _) =>
      PublishShows(inc, Reply(p), ok);
      var s' := inc.s.(stats := inc.s.stats + [OutPayload(|p|)]);
      ReportShows(Publish(inc, Reply(p), ok), s', OutPayload(|p|));
    case CloseEnd(err, _) => if WellFormedError(err) { PublishShows(inc, FinishFrame(inc.s, err), ok); }
    case FinOnce(err, _) =>
      if inc.s.finalized.Off? && inc.s.statsBegun.On? { ReportShows(inc, FinalizeOnce(inc.s, err), StatEnd(err)); }
    case _ =>
  }

  lemma BeginShows(inc: Inc, nid: string, ok: Flag)
    ensures var (s', begin) := BeginMaybe(inc.s, nid);
            SeenOf(PublishMaybe(inc.(s := s'), begin, ok)) ==
              if inc.s.hasBegun.On? then SeenOf(inc)
              else Publishing(SeenOf(inc), Begin(MakeMetadata(inc.s.header), nid), ok)
  {
    if inc.s.hasBegun.Off? {
      PublishShows(inc.(s := inc.s.(hasBegun := On)), Begin(MakeMetadata(inc.s.header), nid), ok);
    }
  }

  lemma StatsBeginShows(inc: Inc)
    ensures SeenOf(inc.(s := StatsBegin(inc.s))) == ReportingBegin(SeenOf(inc), inc.s)
  {
    if inc.s.statsBegun.Off? { ReportShows(inc, StatsBegin(inc.s), StatBegin); }
  }

  lemma ProcessShows(inc: Inc, registered: Flag, r: Request, ok: Flag)
    ensures SeenOf(ProcessFrame(inc, registered, r, ok)) == FrameShows(inc, registered, r, ok, SeenOf(inc))
  {
    match r
    case Call(_) => StatsBeginShows(inc);
    case Data(p) =>
      StatsBeginShows(inc);
      ReportShows(inc.(s := StatsBegin(inc.s)), AcceptData(inc.s, p), InPayload(|p|));
    case Ping(ts) => PublishShows(inc, Pong(ts), ok);
    case _ =>
  }

  // ---------------------------------------------------------------------
  // The worker takes a frame
  // ---------------------------------------------------------------------

  lemma ProcessCallKeeps(inc: Inc, registered: Flag, r: Request, ok: Flag, n: Seen)
    requires r.Call? && BusyInv(inc, registered, n) && inc.worker.Idle? && inc.handler.NotStarted?
    requires inc.closing.Off? && inc.s.hasBegun.Off? && n.called.On?
    ensures BusyInv(ProcessFrame(inc, registered, r, ok), registered, FrameShows(inc, registered, r, ok, n))
  {}

  lemma ProcessDataKeeps(inc: Inc, registered: Flag, r: Request, ok: Flag, n: Seen)
    requires r.Data? && BusyInv(inc, registered, n) && inc.worker.Idle?
    ensures BusyInv(ProcessFrame(inc, registered, r, ok), registered, FrameShows(inc, registered, r, ok, n))
  {}

  lemma ProcessEndKeeps(inc: Inc, registered: Flag, r: Request, ok: Flag, n: Seen)
    requires r.End? && BusyInv(inc, registered, n) && inc.worker.Idle?
    ensures BusyInv(ProcessFrame(inc, registered, r, ok), registered, FrameShows(inc, registered, r, ok, n))
  {
    if IsOk(r.status) {
    } else {
    }
  }

  lemma ProcessPingKeeps(inc: Inc, registered: Flag, r: Request, ok: Flag, n: Seen)
    requires r.Ping? && BusyInv(inc, registered, n) && inc.worker.Idle?
    ensures BusyInv(ProcessFrame(inc, registered, r, ok), registered, FrameShows(inc, registered, r, ok, n))
  {}

  lemma ProcessKeeps(inc: Inc, registered: Flag, r: Request, ok: Flag, n: Seen)
    requires BusyInv(inc, registered, n) && inc.worker.Idle?
    requires r.Call? ==> inc.handler.NotStarted? && inc.closing.Off? && inc.s.hasBegun.Off? && n.called.On?
    ensures BusyInv(ProcessFrame(inc, registered, r, ok), registered, FrameShows(inc, registered, r, ok, n))
  {
    match r
    case Call(_) => ProcessCallKeeps(inc, registered, r, ok, n);
    case Data(_) => ProcessDataKeeps(inc, registered, r, ok, n);
    case End(_) => ProcessEndKeeps(inc, registered, r, ok, n);
    case Ping(_) => ProcessPingKeeps(inc, registered, r, ok, n);
    case Unknown =>
  }

  // The frames and payloads in the queues, before `r` is processed, add up.
  lemma TakeKeepsQueue(inc: Inc, registered: Flag, ok: Flag)
    requires QueueInv(inc) && inc.worker.Idle? && inc.s.inbox != []
    ensures QueueInv(ProcessFrame(Take(inc), registered, inc.s.inbox[0].body, ok))
  {
    var f := inc.s.inbox[0];
    assert inc.enq == (inc.done + [f]) + inc.s.inbox[1..];
    BodiesAppend(inc.done, f);
    HalfClosedAppend(Bodies(inc.done), f.body);
    ProcessKeepsQueue(Take(inc), Bodies(inc.done), registered, f.body, ok);
  }

  lemma ProcessKeepsQueue(inc: Inc, before: seq<Request>, registered: Flag, r: Request, ok: Flag)
    requires inc.enq == inc.done + inc.s.inbox && |inc.s.recv| <= RECV_CAPACITY && inc.worker.Idle?
    requires inc.s.recvOpen == Not(HalfClosed(before)) && inc.got + inc.s.recv == SentBeforeEnd(before)
    requires inc.sawEof.On? ==> inc.s.recvOpen.Off? && inc.s.recv == []
    requires HalfClosed(Bodies(inc.done)) == if r.End? && IsOk(r.status) then On else HalfClosed(before)
    requires SentBeforeEnd(Bodies(inc.done)) ==
             SentBeforeEnd(before) + (if r.Data? && HalfClosed(before).Off? then [r.payload] else [])
    ensures QueueInv(ProcessFrame(inc, registered, r, ok))
  {
    match r
    case Data(p) =>
    case End(status) => if IsOk(status) {}
    case _ =>
  }

  // A taken Call finds neither handler nor close under way.
  lemma TakeIsBusy(inc: Inc, registered: Flag, n: Seen, called: Flag)
    requires BusyInv(inc, registered, n) && inc.worker.Idle? && inc.s.inbox != []
    requires called == if inc.s.inbox[0].body.Call? then On else n.called
    requires inc.s.inbox[0].body.Call? ==> n.called.Off?
    ensures BusyInv(Take(inc), registered, n.(called := called))
    ensures inc.s.inbox[0].body.Call? ==>
              inc.handler.NotStarted? && inc.closing.Off? && inc.s.hasBegun.Off?
  {}

  lemma TakeKeeps(inc: Inc, registered: Flag, nid: string, ok: Flag)
    requires IncInv(inc, registered) && FirstCall(inc) && inc.worker.Idle? && inc.s.inbox != []
    ensures IncInv(LocalStep(inc, registered, nid, WorkerTake(ok)), registered)
  {
    var r, n := inc.s.inbox[0].body, SeenOf(inc);
    BodiesAppend(inc.done, inc.s.inbox[0]);
    var n' := n.(called := if r.Call? then On else n.called);
    assert SeenOf(Take(inc)) == n';
    TakeKeepsQueue(inc, registered, ok);
    TakeIsBusy(inc, registered, n, n'.called);
    ProcessKeeps(Take(inc), registered, r, ok, n');
    ProcessShows(Take(inc), registered, r, ok);
  }

  // ---------------------------------------------------------------------
  // Steps inside close(), finalize() and SendMsg
  // ---------------------------------------------------------------------

  // They leave the queues alone.
  lemma StepThreadQueues(inc: Inc, nid: string, t: Thread, ok: Flag)
    requires InSend(t) || InClose(t)
    ensures var (inc', t') := StepThread(inc, nid, t, ok);
            && SameQueues(inc, inc') && inc'.worker == inc.worker
            && !t'.Sending? && (t'.Exited? ==> t.FinRemove? && t.back.Off?)
  {
    match t
    case WriteBegin(_, _) =>
    case CloseBegin(_, _) =>
    case _ =>
  }

  predicate SameQueues(inc: Inc, inc': Inc) {
    && inc'.enq == inc.enq && inc'.done == inc.done && inc'.got == inc.got && inc'.sawEof == inc.sawEof
    && inc'.s.inbox == inc.s.inbox && inc'.s.recv == inc.s.recv && inc'.s.recvOpen == inc.s.recvOpen
    && (inc.s.live.Off? ==> inc'.s.live.Off?)
  }

  lemma QueuesKept(inc: Inc, inc': Inc)
    requires QueueInv(inc) && SameQueues(inc, inc')
    requires inc'.worker == inc.worker || (!inc.worker.Sending? && !inc'.worker.Sending? && !inc'.worker.Exited?)
    ensures QueueInv(inc')
  {}

  lemma WorkerCloseKeeps(inc: Inc, registered: Flag, nid: string, ok: Flag, n: Seen)
    requires BusyInv(inc, registered, n) && InClose(inc.worker) && !InFinalize(inc.worker)
    ensures BusyInv(LocalStep(inc, registered, nid, WorkerStep(ok)), registered,
                    ThreadShows(inc, nid, inc.worker, ok, n))
  {
    if ok.On? {} else {}
  }

  lemma WorkerFinOnceKeeps(inc: Inc, registered: Flag, nid: string, ok: Flag, n: Seen)
    requires BusyInv(inc, registered, n) && inc.worker.FinOnce?
    ensures BusyInv(LocalStep(inc, registered, nid, WorkerStep(ok)), registered,
                    ThreadShows(inc, nid, inc.worker, ok, n))
  {
    if inc.s.finalized.On? {
    } else if inc.s.statsBegun.On? {
    } else {
    }
  }

  lemma WorkerFinRestKeeps(inc: Inc, registered: Flag, nid: string, ok: Flag, n: Seen)
    requires BusyInv(inc, registered, n) && (inc.worker.FinCancel? || inc.worker.FinRemove?)
    ensures BusyInv(LocalStep(inc, registered, nid, WorkerStep(ok)), registered, n)
  {
    if inc.worker.FinCancel? {
      assert LocalStep(inc, registered, nid, WorkerStep(ok)) == CancelInc(inc).(worker := FinRemove(inc.worker.back));
    } else if inc.worker.back.On? {
      assert LocalStep(inc, registered, nid, WorkerStep(ok)) == inc.(removed := On, worker := Idle);
    }
  }

  lemma WorkerFinalizeKeeps(inc: Inc, registered: Flag, nid: string, ok: Flag, n: Seen)
    requires BusyInv(inc, registered, n) && InFinalize(inc.worker)
    ensures BusyInv(LocalStep(inc, registered, nid, WorkerStep(ok)), registered,
                    ThreadShows(inc, nid, inc.worker, ok, n))
  {
    match inc.worker
    case FinOnce(_, _) => WorkerFinOnceKeeps(inc, registered, nid, ok, n);
    case _ => WorkerFinRestKeeps(inc, registered, nid, ok, n);
  }

  lemma SendBeginKeeps(inc: Inc, registered: Flag, nid: string, ok: Flag, n: Seen)
    requires BusyInv(inc, registered, n) && inc.handler.WriteBegin?
    ensures BusyInv(LocalStep(inc, registered, nid, HandlerStep(ok)), registered,
                    ThreadShows(inc, nid, inc.handler, ok, n))
  {
    if inc.s.hasBegun.Off? {
      if ok.On? {} else {}
    }
  }

  lemma SendDataKeeps(inc: Inc, registered: Flag, nid: string, ok: Flag, n: Seen)
    requires BusyInv(inc, registered, n) && inc.handler.WriteData?
    ensures BusyInv(LocalStep(inc, registered, nid, HandlerStep(ok)), registered,
                    ThreadShows(inc, nid, inc.handler, ok, n))
  {
    if inc.handler.last.On? {
      if ok.On? {} else {}
    } else {
      if ok.On? {} else {}
    }
  }

  lemma HandlerCloseKeeps(inc: Inc, registered: Flag, nid: string, ok: Flag, n: Seen)
    requires BusyInv(inc, registered, n) && InClose(inc.handler) && !InFinalize(inc.handler)
    ensures BusyInv(LocalStep(inc, registered, nid, HandlerStep(ok)), registered,
                    ThreadShows(inc, nid, inc.handler, ok, n))
  {
    if inc.handler.CloseBegin? {
      if ok.On? {} else {}
    } else {
      if ok.On? {} else {}
    }
  }

  lemma HandlerFinOnceKeeps(inc: Inc, registered: Flag, nid: string, ok: Flag, n: Seen)
    requires BusyInv(inc, registered, n) && inc.handler.FinOnce?
    ensures BusyInv(LocalStep(inc, registered, nid, HandlerStep(ok)), registered,
                    ThreadShows(inc, nid, inc.handler, ok, n))
  {
    if inc.s.finalized.On? {
    } else if inc.s.statsBegun.On? {
    } else {
    }
  }

  lemma HandlerFinRestKeeps(inc: Inc, registered: Flag, nid: string, ok: Flag, n: Seen)
    requires BusyInv(inc, registered, n) && (inc.handler.FinCancel? || inc.handler.FinRemove?)
    ensures BusyInv(LocalStep(inc, registered, nid, HandlerStep(ok)), registered, n)
  {
    if inc.handler.FinCancel? {
      assert LocalStep(inc, registered, nid, HandlerStep(ok))
          == CancelInc(inc).(handler := FinRemove(inc.handler.back));
    } else if inc.handler.back.On? {
      assert LocalStep(inc, registered, nid, HandlerStep(ok)) == inc.(removed := On, handler := Idle);
    }
  }

  lemma HandlerFinalizeKeeps(inc: Inc, registered: Flag, nid: string, ok: Flag, n: Seen)
    requires BusyInv(inc, registered, n) && InFinalize(inc.handler)
    ensures BusyInv(LocalStep(inc, registered, nid, HandlerStep(ok)), registered,
                    ThreadShows(inc, nid, inc.handler, ok, n))
  {
    match inc.handler
    case FinOnce(_, _) => HandlerFinOnceKeeps(inc, registered, nid, ok, n);
    case _ => HandlerFinRestKeeps(inc, registered, nid, ok, n);
  }

  lemma WorkerStepKeeps(inc: Inc, registered: Flag, nid: string, ok: Flag)
    requires IncInv(inc, registered) && InClose(inc.worker)
    ensures IncInv(LocalStep(inc, registered, nid, WorkerStep(ok)), registered)
  {
    var inc', n := LocalStep(inc, registered, nid, WorkerStep(ok)), SeenOf(inc);
    StepThreadQueues(inc, nid, inc.worker, ok);
    assert InFinalize(inc.worker) ==> inc.worker.back.On?;
    QueuesKept(inc, inc');
    if InFinalize(inc.worker) {
      WorkerFinalizeKeeps(inc, registered, nid, ok, n);
    } else {
      WorkerCloseKeeps(inc, registered, nid, ok, n);
    }
    StepShows(inc, nid, inc.worker, ok);
    assert SeenOf(inc') == SeenOf(StepThread(inc, nid, inc.worker, ok).0);
  }

  lemma HandlerStepBusy(inc: Inc, registered: Flag, nid: string, ok: Flag, n: Seen)
    requires BusyInv(inc, registered, n) && (InSend(inc.handler) || InClose(inc.handler))
    ensures BusyInv(LocalStep(inc, registered, nid, HandlerStep(ok)), registered,
                    ThreadShows(inc, nid, inc.handler, ok, n))
  {
    if inc.handler.WriteBegin? { SendBeginKeeps(inc, registered, nid, ok, n); }
    else if inc.handler.WriteData? { SendDataKeeps(inc, registered, nid, ok, n); }
    else if InFinalize(inc.handler) { HandlerFinalizeKeeps(inc, registered, nid, ok, n); }
    else { HandlerCloseKeeps(inc, registered, nid, ok, n); }
  }

  lemma HandlerStepKeeps(inc: Inc, registered: Flag, nid: string, ok: Flag)
    requires IncInv(inc, registered) && (InSend(inc.handler) || InClose(inc.handler))
    ensures IncInv(LocalStep(inc, registered, nid, HandlerStep(ok)), registered)
  {
    var inc', n := LocalStep(inc, registered, nid, HandlerStep(ok)), SeenOf(inc);
    StepThreadQueues(inc, nid, inc.handler, ok);
    QueuesKept(inc, inc');
    HandlerStepBusy(inc, registered, nid, ok, n);
    StepShows(inc, nid, inc.handler, ok);
    assert SeenOf(inc') == SeenOf(StepThread(inc, nid, inc.handler, ok).0);
  }

  // ---------------------------------------------------------------------
  // Calls of the handler
  // ---------------------------------------------------------------------

  // Headers and trailers are not part of any other property.
  lemma MetadataKeeps(inc: Inc, registered: Flag, header: Option<MD>, trailer: Option<MD>, n: Seen)
    requires BusyInv(inc, registered, n)
    ensures BusyInv(inc.(s := inc.s.(header := header, trailer := trailer)), registered, n)
  {}

  lemma EarlyBeginKeeps(inc: Inc, registered: Flag, begin: Response, ok: Flag, n: Seen)
    requires BusyInv(inc, registered, n) && inc.handler.Idle? && inc.s.hasBegun.Off? && begin.Begin?
    ensures BusyInv(Publish(inc.(s := inc.s.(hasBegun := On)), begin, ok), registered, Publishing(n, begin, ok))
  {
    if ok.On? {} else {}
  }

  lemma SendHeaderKeeps(inc: Inc, registered: Flag, nid: string, md: Option<MD>, ok: Flag)
    requires IncInv(inc, registered) && inc.handler.Idle? && inc.s.hasBegun.Off?
    ensures IncInv(LocalStep(inc, registered, nid, CallSendHeader(md, ok)), registered)
  {
    var s' := SetHeader(inc.s, md).0;
    var begin := Begin(MakeMetadata(s'.header), nid);
    var inc' := Publish(inc.(s := s'.(hasBegun := On)), begin, ok);
    assert LocalStep(inc, registered, nid, CallSendHeader(md, ok)) == inc';
    HeaderSent(inc, registered, s'.header, begin, ok);
  }

  lemma HeaderSent(inc: Inc, registered: Flag, header: Option<MD>, begin: Response, ok: Flag)
    requires IncInv(inc, registered) && inc.handler.Idle? && inc.s.hasBegun.Off? && begin.Begin?
    ensures IncInv(Publish(inc.(s := inc.s.(header := header, hasBegun := On)), begin, ok), registered)
  {
    var n, set1 := SeenOf(inc), inc.(s := inc.s.(header := header, trailer := inc.s.trailer));
    MetadataKeeps(inc, registered, header, inc.s.trailer, n);
    EarlyBeginKeeps(set1, registered, begin, ok, n);
    PublishShows(set1.(s := set1.s.(hasBegun := On)), begin, ok);
    QueuesKept(inc, Publish(set1.(s := set1.s.(hasBegun := On)), begin, ok));
  }

  lemma HeaderCallKeeps(inc: Inc, registered: Flag, nid: string, e: Local)
    requires IncInv(inc, registered) && (e.CallSetHeader? || e.CallSendHeader? || e.CallSetTrailer?)
    ensures IncInv(LocalStep(inc, registered, nid, e), registered)
  {
    match e
    case CallSetHeader(md) =>
      MetadataKeeps(inc, registered, SetHeader(inc.s, md).0.header, inc.s.trailer, SeenOf(inc));
      QueuesKept(inc, LocalStep(inc, registered, nid, e));
    case CallSetTrailer(md) =>
      MetadataKeeps(inc, registered, inc.s.header, SetTrailer(inc.s, md).trailer, SeenOf(inc));
      QueuesKept(inc, LocalStep(inc, registered, nid, e));
    case CallSendHeader(md, ok) =>
      if inc.handler.Idle? && inc.s.hasBegun.Off? { SendHeaderKeeps(inc, registered, nid, md, ok); }
  }

  lemma QueueCallQueue(inc: Inc, registered: Flag, nid: string, e: Local)
    requires QueueInv(inc) && (e.WorkerDeliver? || e.WorkerExit? || e.CallRecvMsg? || e.CallRecvEof?)
    ensures QueueInv(LocalStep(inc, registered, nid, e))
  {
    match e
    case WorkerDeliver =>
    case WorkerExit =>
    case CallRecvMsg =>
    case _ =>
  }

  lemma QueueCallBusy(inc: Inc, registered: Flag, nid: string, e: Local, n: Seen)
    requires BusyInv(inc, registered, n) && (e.WorkerDeliver? || e.WorkerExit? || e.CallRecvMsg? || e.CallRecvEof?)
    ensures BusyInv(LocalStep(inc, registered, nid, e), registered, n)
  {
    match e
    case WorkerDeliver =>
    case WorkerExit =>
    case CallRecvMsg =>
    case _ =>
  }

  lemma QueueCallKeeps(inc: Inc, registered: Flag, nid: string, e: Local)
    requires IncInv(inc, registered) && (e.WorkerDeliver? || e.WorkerExit? || e.CallRecvMsg? || e.CallRecvEof?)
    ensures IncInv(LocalStep(inc, registered, nid, e), registered)
  {
    QueueCallQueue(inc, registered, nid, e);
    QueueCallBusy(inc, registered, nid, e, SeenOf(inc));
    assert SeenOf(LocalStep(inc, registered, nid, e)) == SeenOf(inc);
  }

  lemma HandlerCallBusy(inc: Inc, registered: Flag, nid: string, e: Local, n: Seen)
    requires BusyInv(inc, registered, n) && inc.handler.Idle? && (e.CallSendMsg? || e.HandlerReturn? || e.UnaryReturn?)
    ensures BusyInv(LocalStep(inc, registered, nid, e), registered, n)
  {
    match e
    case CallSendMsg(_) =>
    case HandlerReturn(_) =>
    case _ =>
  }

  // These calls move the handler and may enter close.
  lemma HandlerCallFrame(inc: Inc, registered: Flag, nid: string, e: Local)
    requires e.CallSendMsg? || e.HandlerReturn? || e.UnaryReturn?
    ensures var inc' := LocalStep(inc, registered, nid, e);
            inc' == inc.(handler := inc'.handler, closing := inc'.closing)
  {
    match e
    case CallSendMsg(_) =>
    case HandlerReturn(_) =>
    case _ =>
  }

  lemma MovedHandler(inc: Inc, t: Thread, closing: Flag)
    requires QueueInv(inc)
    ensures var inc' := inc.(handler := t, closing := closing); QueueInv(inc') && SeenOf(inc') == SeenOf(inc)
  {}

  lemma HandlerCallKeeps(inc: Inc, registered: Flag, nid: string, e: Local)
    requires IncInv(inc, registered) && (e.CallSendMsg? || e.HandlerReturn? || e.UnaryReturn?)
    ensures IncInv(LocalStep(inc, registered, nid, e), registered)
  {
    if inc.handler.Idle? {
      var inc' := LocalStep(inc, registered, nid, e);
      HandlerCallBusy(inc, registered, nid, e, SeenOf(inc));
      HandlerCallFrame(inc, registered, nid, e);
      MovedHandler(inc, inc'.handler, inc'.closing);
    }
  }

  /** Every step of the worker and of the handler keeps the invariant. */
  lemma LocalStepKeeps(inc: Inc, registered: Flag, nid: string, e: Local)
    requires IncInv(inc, registered) && FirstCall(inc)
    ensures IncInv(LocalStep(inc, registered, nid, e), registered)
  {
    match e
    case WorkerTake(ok) =>
      if inc.worker.Idle? && inc.s.inbox != [] { TakeKeeps(inc, registered, nid, ok); }
    case WorkerStep(ok) => if InClose(inc.worker) { WorkerStepKeeps(inc, registered, nid, ok); }
    case HandlerStep(ok) =>
      if InSend(inc.handler) || InClose(inc.handler) { HandlerStepKeeps(inc, registered, nid, ok); }
    case CallSetHeader(_) => HeaderCallKeeps(inc, registered, nid, e);
    case CallSendHeader(_, _) => HeaderCallKeeps(inc, registered, nid, e);
    case CallSetTrailer(_) => HeaderCallKeeps(inc, registered, nid, e);
    case CallSendMsg(_) => HandlerCallKeeps(inc, registered, nid, e);
    case HandlerReturn(_) => HandlerCallKeeps(inc, registered, nid, e);
    case UnaryReturn(_) => HandlerCallKeeps(inc, registered, nid, e);
    case _ => QueueCallKeeps(inc, registered, nid, e);
  }
}
