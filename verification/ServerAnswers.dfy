// What the handler of a server stream did, and what the stream makes of it
// (pkg/rpc/server.go): the payloads it was handed to send, the error it returned, and
// the Data and the End on the wire.
module ServerAnswers {
  import opened Wire
  import opened ServerStreams
  import opened ServerSystem

  // The deeds of a handler: the payloads it gave SendMsg, or returned as the response of
  // a unary method; the error it returned while its stream was live; whether one of its
  // calls of SendMsg could not publish Begin; and whether it has returned at all.
  datatype Deeds = Deeds(sent: seq<Payload>, exit: Option<Option<Error>>, lost: Flag, returned: Flag)

  const NOTHING_DONE := Deeds([], None, Off, Off)

  // What a step of the handler of a stream in state inc adds.
  function Did(d: Deeds, inc: Inc, e: Local): Deeds {
    match e
    case CallSendMsg(p) => if inc.handler.Idle? then d.(sent := d.sent + [p]) else d
    case UnaryReturn(p) =>
      if !inc.handler.Idle? then d
      else if inc.s.live.On? then d.(sent := d.sent + [p], exit := Some(None), returned := On)
      else d.(returned := On)
    case HandlerReturn(err) =>
      if !inc.handler.Idle? || !WellFormedError(err) then d
      else if inc.s.live.On? then d.(exit := Some(err), returned := On)
      else d.(returned := On)
    case HandlerStep(ok) =>
      if inc.handler.WriteBegin? && inc.s.hasBegun.Off? && ok.Off? then d.(lost := On) else d
    case _ => d
  }

  // What step e of the server adds to the deeds of stream i.
  function DidIn(d: Deeds, y: System, e: Event, i: nat): Deeds {
    if e.At? && e.target == i && i < |y.incs| then Did(d, y.incs[i], e.local) else d
  }

  // The status is the error's: OK for nil, a status error as it is, anything else
  // Unknown with the error's text.
  predicate Says(status: Option<Status>, err: Option<Error>) {
    match err
    case None => status.None? || status.value.code == 0
    case Some(StatusError(s)) => s.code != 0 && status == Some(Status(s.code, s.message))
    case Some(PlainError(text)) => status == Some(Status(2, text))
  }

  // An End says what the handler returned, but for two: no handler is registered, or
  // Begin could not be published.
  predicate EndSays(status: Option<Status>, registered: Flag, d: Deeds) {
    || (registered.On? && d.exit.Some? && Says(status, d.exit.value))
    || (registered.Off? && status == Some(Status(12, "Unimplemented")))
    || (d.lost.On? && status == Some(Status(2, "nats: publish failed")))
  }

  // The same for the error finalize keeps, which the client or Stop may set as well.
  ghost predicate KeptError(err: Option<Error>, inc: Inc, registered: Flag, d: Deeds) {
    || d.exit == Some(err)
    || (registered.Off? && err == Some(StatusError(Status(12, "Unimplemented"))))
    || (d.lost.On? && err == Some(PlainError("nats: publish failed")))
    || err == Some(StatusError(Status(14, "server stopping")))
    || GaveUp(err, inc.done)
  }

  // The client has sent an End with that error.
  ghost predicate GaveUp(err: Option<Error>, done: seq<Frame>) {
    exists k :: 0 <= k < |done| && IsGiveUp(done[k].body, err)
  }

  predicate IsGiveUp(r: Request, err: Option<Error>) {
    r.End? && r.status.Some? && r.status.value.code != 0 && err == Some(StatusError(r.status.value))
  }

  lemma GaveUpLater(err: Option<Error>, done: seq<Frame>, f: Frame)
    ensures GaveUp(err, done) ==> GaveUp(err, done + [f])
    ensures IsGiveUp(f.body, err) ==> GaveUp(err, done + [f])
  {
    var more := done + [f];
    assert more[|done|] == f && forall k :: 0 <= k < |done| ==> more[k] == done[k];
    if GaveUp(err, done) {
      var k :| 0 <= k < |done| && IsGiveUp(done[k].body, err);
      assert IsGiveUp(more[k].body, err);
    }
  }

  // ---------------------------------------------------------------------
  // The handler's error and the End
  // ---------------------------------------------------------------------

  // The error a goroutine of the handler closes with.
  predicate ClosesWith(err: Option<Error>, d: Deeds) {
    d.exit == Some(err) || (d.lost.On? && err == Some(PlainError("nats: publish failed")))
  }

  predicate Closing(t: Thread) { t.CloseBegin? || t.CloseEnd? || t.FinOnce? }

  ghost predicate ExitInv(inc: Inc, registered: Flag, d: Deeds) {
    var t := inc.handler;
    && (Closing(t) ==> ClosesWith(t.err, d))
    && (InSend(t) && t.last.On? ==> d.exit == Some(None))
    && (d.exit.Some? ==>
          && !t.Idle? && !t.NotStarted? && !t.Sending?
          && (InSend(t) ==> t.last.On?) && (InClose(t) ==> t.back.Off?)
          && (inc.closing.On? || InSend(t)))
    && (d.lost.On? ==> inc.failed.On?)
    && (inc.worker.CloseBegin? || inc.worker.CloseEnd? ==>
          registered.Off? && inc.worker.err == Some(StatusError(Status(12, "Unimplemented"))))
  }

  ghost predicate EndsInv(out: seq<Response>, registered: Flag, d: Deeds) {
    forall k :: 0 <= k < |out| && out[k].Finish? ==> EndSays(out[k].status, registered, d)
  }

  ghost predicate KeptInv(inc: Inc, registered: Flag, d: Deeds) {
    && (inc.s.finalized.On? ==> KeptError(inc.s.endErr, inc, registered, d))
    && (inc.worker.FinOnce? ==> KeptError(inc.worker.err, inc, registered, d))
  }

  // What a step of a goroutine inside SendMsg, close or finalize publishes.
  function ThreadSays(inc: Inc, nid: string, t: Thread): Option<Response> {
    match t
    case WriteBegin(_, _) => BeginMaybe(inc.s, nid).1
    case CloseBegin(_, _) => BeginMaybe(inc.s, nid).1
    case WriteData(p, _) => Some(Reply(p))
    case CloseEnd(err, _) => if WellFormedError(err) then Some(FinishFrame(inc.s, err)) else None
    case _ => None
  }

  lemma ThreadOut(inc: Inc, nid: string, t: Thread, ok: Flag)
    ensures var inc', says := StepThread(inc, nid, t, ok).0, ThreadSays(inc, nid, t);
            && inc'.out == (if says.Some? && ok.On? then inc.out + [says.value] else inc.out)
            && inc'.failed == (if says.Some? && ok.Off? then On else inc.failed)
            && inc'.done == inc.done && inc'.handler == inc.handler && inc'.worker == inc.worker
            && (inc.closing.On? ==> inc'.closing.On?)
  {
    match t
    case WriteBegin(_, _) =>
    case _ =>
  }

  lemma FinishSays(inc: Inc, err: Option<Error>)
    requires WellFormedError(err)
    ensures Says(FinishFrame(inc.s, err).status, err)
  {}

  lemma EndsAppend(out: seq<Response>, r: Response, registered: Flag, d: Deeds)
    requires EndsInv(out, registered, d)
    requires r.Finish? ==> EndSays(r.status, registered, d)
    ensures EndsInv(out + [r], registered, d)
  {}

  // Where a goroutine of the handler goes.
  lemma SenderGoes(inc: Inc, registered: Flag, nid: string, ok: Flag, d: Deeds)
    requires ExitInv(inc, registered, d) && InSend(inc.handler)
    ensures ExitInv(LocalStep(inc, registered, nid, HandlerStep(ok)), registered, Did(d, inc, HandlerStep(ok)))
  {
    match inc.handler
    case WriteBegin(_, _) => ThreadOut(inc, nid, inc.handler, ok);
    case WriteData(_, _) => ThreadOut(inc, nid, inc.handler, ok);
  }

  lemma CloserGoes(inc: Inc, registered: Flag, nid: string, ok: Flag, d: Deeds)
    requires ExitInv(inc, registered, d) && (inc.handler.CloseBegin? || inc.handler.CloseEnd?)
    ensures ExitInv(LocalStep(inc, registered, nid, HandlerStep(ok)), registered, Did(d, inc, HandlerStep(ok)))
  {
    ThreadOut(inc, nid, inc.handler, ok);
    match inc.handler
    case CloseBegin(_, _) =>
    case CloseEnd(_, _) =>
  }

  lemma FinalizerGoes(inc: Inc, registered: Flag, nid: string, ok: Flag, d: Deeds)
    requires ExitInv(inc, registered, d) && InFinalize(inc.handler)
    ensures ExitInv(LocalStep(inc, registered, nid, HandlerStep(ok)), registered, Did(d, inc, HandlerStep(ok)))
  {
    match inc.handler
    case FinOnce(_, _) =>
    case FinCancel(_) =>
    case FinRemove(_) =>
  }

  lemma WorkerGoes(inc: Inc, registered: Flag, nid: string, ok: Flag, d: Deeds)
    requires ExitInv(inc, registered, d) && InClose(inc.worker)
    ensures ExitInv(LocalStep(inc, registered, nid, WorkerStep(ok)), registered, d)
  {
    ThreadOut(inc, nid, inc.worker, ok);
    match inc.worker
    case CloseBegin(_, _) =>
    case CloseEnd(_, _) =>
    case FinOnce(_, _) =>
    case FinCancel(_) =>
    case FinRemove(_) =>
  }

  lemma TakeGoes(inc: Inc, registered: Flag, ok: Flag, d: Deeds)
    requires ExitInv(inc, registered, d) && inc.s.inbox != [] && inc.worker.Idle?
    requires inc.s.inbox[0].body.Call? ==> inc.handler.NotStarted?
    ensures ExitInv(ProcessFrame(Take(inc), registered, inc.s.inbox[0].body, ok), registered, d)
  {
    match inc.s.inbox[0].body
    case Call(_) =>
    case Data(_) =>
    case End(_) =>
    case Ping(_) =>
    case Unknown =>
  }

  // The calls of the handler, and the steps that hand over payloads.
  lemma CallGoes(inc: Inc, registered: Flag, nid: string, e: Local, d: Deeds)
    requires ExitInv(inc, registered, d) && !e.WorkerTake? && !e.WorkerStep? && !e.HandlerStep?
    ensures ExitInv(LocalStep(inc, registered, nid, e), registered, Did(d, inc, e))
  {
    match e
    case HandlerReturn(_) =>
    case UnaryReturn(_) =>
    case CallSendMsg(_) =>
    case CallSendHeader(_, ok) =>
    case CallSetHeader(_) =>
    case _ =>
  }

  lemma LocalGoes(inc: Inc, registered: Flag, nid: string, e: Local, d: Deeds)
    requires ExitInv(inc, registered, d)
    requires inc.s.inbox != [] && inc.s.inbox[0].body.Call? ==> inc.handler.NotStarted?
    ensures ExitInv(LocalStep(inc, registered, nid, e), registered, Did(d, inc, e))
  {
    match e
    case WorkerTake(ok) =>
      if inc.worker.Idle? && inc.s.inbox != [] { TakeGoes(inc, registered, ok, d); }
    case WorkerStep(ok) => if InClose(inc.worker) { WorkerGoes(inc, registered, nid, ok, d); }
    case HandlerStep(ok) =>
      if InSend(inc.handler) { SenderGoes(inc, registered, nid, ok, d); }
      else if InFinalize(inc.handler) { FinalizerGoes(inc, registered, nid, ok, d); }
      else if InClose(inc.handler) { CloserGoes(inc, registered, nid, ok, d); }
    case _ => CallGoes(inc, registered, nid, e, d);
  }

  // What a local step publishes, and whether the publication succeeds.
  function LocalSays(inc: Inc, nid: string, e: Local): (Option<Response>, Flag) {
    match e
    case WorkerTake(ok) =>
      if inc.worker.Idle? && inc.s.inbox != [] && inc.s.inbox[0].body.Ping?
      then (Some(Pong(inc.s.inbox[0].body.timestamp)), ok) else (None, ok)
    case WorkerStep(ok) => (if InClose(inc.worker) then ThreadSays(inc, nid, inc.worker) else None, ok)
    case HandlerStep(ok) =>
      (if InSend(inc.handler) || InClose(inc.handler) then ThreadSays(inc, nid, inc.handler) else None, ok)
    case CallSendHeader(md, ok) =>
      (if inc.handler.Idle? && inc.s.hasBegun.Off? then BeginMaybe(SetHeader(inc.s, md).0, nid).1 else None, ok)
    case _ => (None, On)
  }

  lemma LocalOut(inc: Inc, registered: Flag, nid: string, e: Local)
    ensures var (says, ok) := LocalSays(inc, nid, e);
            var inc' := LocalStep(inc, registered, nid, e);
            && inc'.out == (if says.Some? && ok.On? then inc.out + [says.value] else inc.out)
            && inc'.failed == (if says.Some? && ok.Off? then On else inc.failed)
  {
    match e
    case WorkerTake(ok) => if inc.worker.Idle? && inc.s.inbox != [] { TakeOut(inc, registered, ok); }
    case WorkerStep(ok) => if InClose(inc.worker) { ThreadOut(inc, nid, inc.worker, ok); }
    case HandlerStep(ok) => if InSend(inc.handler) || InClose(inc.handler) { ThreadOut(inc, nid, inc.handler, ok); }
    case CallSendHeader(_, _) =>
    case _ =>
  }

  lemma TakeOut(inc: Inc, registered: Flag, ok: Flag)
    requires inc.s.inbox != []
    ensures var r := inc.s.inbox[0].body;
            var inc' := ProcessFrame(Take(inc), registered, r, ok);
            && inc'.out == (if r.Ping? && ok.On? then inc.out + [Pong(r.timestamp)] else inc.out)
            && inc'.failed == (if r.Ping? && ok.Off? then On else inc.failed)
            && inc'.done == inc.done + [inc.s.inbox[0]]
  {
    match inc.s.inbox[0].body
    case Call(_) =>
    case Data(_) =>
    case End(_) =>
    case Ping(_) =>
    case Unknown =>
  }

  // An End that a step publishes says what it should.
  lemma SaysTheExit(inc: Inc, registered: Flag, nid: string, e: Local, d: Deeds)
    requires ExitInv(inc, registered, d) && (registered.Off? ==> inc.handler.NotStarted?)
    ensures var says := LocalSays(inc, nid, e).0;
            says.Some? && says.value.Finish? ==> EndSays(says.value.status, registered, d)
  {
    if e.HandlerStep? && inc.handler.CloseEnd? && WellFormedError(inc.handler.err) { FinishSays(inc, inc.handler.err); }
    if e.WorkerStep? && inc.worker.CloseEnd? && WellFormedError(inc.worker.err) { FinishSays(inc, inc.worker.err); }
  }

  // Ends said before the handler returned do not depend on what it returned.
  lemma EndsLater(out: seq<Response>, registered: Flag, d: Deeds, d': Deeds)
    requires EndsInv(out, registered, d) && (d.exit.None? || d'.exit == d.exit) && (d.lost.On? ==> d'.lost.On?)
    ensures EndsInv(out, registered, d')
  {}

  lemma LocalEnds(inc: Inc, registered: Flag, nid: string, e: Local, d: Deeds)
    requires ExitInv(inc, registered, d) && (registered.Off? ==> inc.handler.NotStarted?)
    requires EndsInv(inc.out, registered, d)
    ensures var inc' := LocalStep(inc, registered, nid, e);
            EndsInv(inc'.out, registered, Did(d, inc, e))
  {
    LocalOut(inc, registered, nid, e);
    SaysTheExit(inc, registered, nid, e, d);
    var (says, ok) := LocalSays(inc, nid, e);
    if says.Some? { EndsAppend(inc.out, says.value, registered, d); }
    var inc' := LocalStep(inc, registered, nid, e);
    EndsLater(inc'.out, registered, d, Did(d, inc, e));
  }

  // ---------------------------------------------------------------------
  // The payloads
  // ---------------------------------------------------------------------

  // The payload SendMsg has not published yet.
  function InHand(t: Thread): seq<Payload> { if InSend(t) then [t.payload] else [] }

  // `paid` are the payloads published: those the handler gave, in order, none missing
  // while publications succeed.
  ghost predicate PaidInv(t: Thread, failed: Flag, paid: seq<Payload>, sent: seq<Payload>) {
    && (failed.Off? ==> paid + InHand(t) == sent)
    && (if InSend(t) then sent != [] && sent[|sent| - 1] == t.payload && Subsequence(paid, sent[..|sent| - 1])
        else Subsequence(paid, sent))
  }

  lemma SubsequenceMore<T(!new)>(a: seq<T>, b: seq<T>, x: T)
    requires Subsequence(a, b)
    ensures Subsequence(a, b + [x]) && Subsequence(a + [x], b + [x])
  {
    assert (b + [x])[..|b|] == b;
    assert (a + [x])[..|a|] == a;
  }

  // SendMsg takes one more payload ...
  lemma GivesOne(t: Thread, failed: Flag, paid: seq<Payload>, sent: seq<Payload>, p: Payload, last: Flag)
    requires PaidInv(t, failed, paid, sent) && !InSend(t)
    ensures PaidInv(WriteBegin(p, last), failed, paid, sent + [p])
  {
    assert (sent + [p])[..|sent|] == sent;
    assert paid + [] == paid;
  }

  // ... and publishes it, fails to, or closes instead.
  lemma PaysOne(t: Thread, failed: Flag, paid: seq<Payload>, sent: seq<Payload>, t': Thread)
    requires PaidInv(t, failed, paid, sent) && InSend(t) && !InSend(t')
    ensures PaidInv(t', failed, paid + [t.payload], sent)
    ensures PaidInv(t', On, paid, sent)
  {
    var front := sent[..|sent| - 1];
    assert sent == front + [t.payload];
    SubsequenceMore(paid, front, t.payload);
    assert paid + [t.payload] + [] == paid + [t.payload];
  }

  lemma PaidLater(t: Thread, failed: Flag, paid: seq<Payload>, sent: seq<Payload>, t': Thread, failed': Flag)
    requires PaidInv(t, failed, paid, sent) && (failed.On? ==> failed'.On?)
    requires InSend(t') == InSend(t) && (InSend(t) ==> t'.payload == t.payload)
    ensures PaidInv(t', failed', paid, sent)
  {}

  // The payload a step of a goroutine publishes.
  function ThreadPays(t: Thread, ok: Flag): seq<Payload> { if t.WriteData? && ok.On? then [t.payload] else [] }

  lemma ThreadPayloads(inc: Inc, nid: string, t: Thread, ok: Flag)
    ensures Payloads(StepThread(inc, nid, t, ok).0.out) == Payloads(inc.out) + ThreadPays(t, ok)
  {
    ThreadOut(inc, nid, t, ok);
    var says := ThreadSays(inc, nid, t);
    assert Payloads(inc.out) + [] == Payloads(inc.out);
    if says.Some? { PayloadsAppend(inc.out, says.value); }
  }

  lemma PaidThread(inc: Inc, nid: string, t: Thread, ok: Flag, paid: seq<Payload>, sent: seq<Payload>)
    requires PaidInv(t, inc.failed, paid, sent) && (InSend(t) || InClose(t))
    ensures var (inc', t') := StepThread(inc, nid, t, ok); PaidInv(t', inc'.failed, paid + ThreadPays(t, ok), sent)
  {
    ThreadOut(inc, nid, t, ok);
    ThreadGoes(inc, nid, t, ok);
    var (inc', t') := StepThread(inc, nid, t, ok);
    assert paid + [] == paid;
    if InSend(t) && !InSend(t') {
      PaysOne(t, inc.failed, paid, sent, t');
    } else {
      PaidLater(t, inc.failed, paid, sent, t', inc'.failed);
    }
  }

  lemma HandlerPays(inc: Inc, registered: Flag, nid: string, ok: Flag, sent: seq<Payload>)
    requires PaidInv(inc.handler, inc.failed, Payloads(inc.out), sent)
    requires InSend(inc.handler) || InClose(inc.handler)
    ensures var inc' := LocalStep(inc, registered, nid, HandlerStep(ok));
            PaidInv(inc'.handler, inc'.failed, Payloads(inc'.out), sent)
  {
    PaidThread(inc, nid, inc.handler, ok, Payloads(inc.out), sent);
    ThreadPayloads(inc, nid, inc.handler, ok);
  }

  // Whether the goroutine is still in SendMsg, and with what.
  lemma ThreadGoes(inc: Inc, nid: string, t: Thread, ok: Flag)
    requires InSend(t) || InClose(t)
    ensures var t' := StepThread(inc, nid, t, ok).1;
            && (InSend(t') <==> t.WriteBegin? && (ThreadSays(inc, nid, t).None? || ok.On?))
            && (InSend(t') ==> t'.payload == t.payload)
  {
    match t
    case WriteBegin(_, _) =>
    case _ =>
  }

  lemma LocalPays(inc: Inc, registered: Flag, nid: string, e: Local, d: Deeds)
    requires PaidInv(inc.handler, inc.failed, Payloads(inc.out), d.sent)
    requires inc.s.inbox != [] && inc.s.inbox[0].body.Call? ==> inc.handler.NotStarted?
    requires !InSend(inc.worker)
    ensures var inc' := LocalStep(inc, registered, nid, e);
            PaidInv(inc'.handler, inc'.failed, Payloads(inc'.out), Did(d, inc, e).sent)
  {
    var inc' := LocalStep(inc, registered, nid, e);
    if e.HandlerStep? {
      if InSend(inc.handler) || InClose(inc.handler) { HandlerPays(inc, registered, nid, e.ok, d.sent); }
    } else if (e.CallSendMsg? && inc.handler.Idle?) || (e.UnaryReturn? && inc.handler.Idle? && inc.s.live.On?) {
      GivesOne(inc.handler, inc.failed, Payloads(inc.out), d.sent, e.payload, if e.CallSendMsg? then Off else On);
    } else {
      OthersPayNothing(inc, registered, nid, e);
      LocalOut(inc, registered, nid, e);
      var says := LocalSays(inc, nid, e).0;
      if says.Some? { PayloadsAppend(inc.out, says.value); }
      PaidLater(inc.handler, inc.failed, Payloads(inc.out), d.sent, inc'.handler, inc'.failed);
    }
  }

  lemma OthersPayNothing(inc: Inc, registered: Flag, nid: string, e: Local)
    requires !e.HandlerStep? && !(e.CallSendMsg? && inc.handler.Idle?)
    requires !(e.UnaryReturn? && inc.handler.Idle? && inc.s.live.On?)
    requires inc.s.inbox != [] && inc.s.inbox[0].body.Call? ==> inc.handler.NotStarted?
    requires !InSend(inc.worker)
    ensures var inc' := LocalStep(inc, registered, nid, e);
            && InSend(inc'.handler) == InSend(inc.handler) && (InSend(inc.handler) ==> inc'.handler == inc.handler)
    ensures LocalSays(inc, nid, e).0.Some? ==> !LocalSays(inc, nid, e).0.value.Reply?
  {
    match e
    case WorkerTake(ok) => if inc.s.inbox != [] { TakeKeepsSender(inc, registered, ok); }
    case WorkerStep(ok) => ThreadOut(inc, nid, inc.worker, ok);
    case HandlerReturn(_) =>
    case CallSendHeader(_, _) =>
    case _ =>
  }

  lemma TakeKeepsSender(inc: Inc, registered: Flag, ok: Flag)
    requires inc.s.inbox != []
    requires inc.s.inbox[0].body.Call? ==> inc.handler.NotStarted?
    ensures var inc' := ProcessFrame(Take(inc), registered, inc.s.inbox[0].body, ok);
            InSend(inc'.handler) == InSend(inc.handler) && (InSend(inc.handler) ==> inc'.handler == inc.handler)
  {
    match inc.s.inbox[0].body
    case Call(_) =>
    case Data(_) =>
    case End(_) =>
    case Ping(_) =>
    case Unknown =>
  }

  // ---------------------------------------------------------------------
  // The error finalize keeps
  // ---------------------------------------------------------------------

  // Time passes: frames are taken, publications fail, the handler returns.
  ghost predicate Onwards(inc: Inc, d: Deeds, inc': Inc, d': Deeds) {
    && (d.exit.None? || d'.exit == d.exit)
    && (d.lost.On? ==> d'.lost.On?)
    && (inc'.done == inc.done || (inc.s.inbox != [] && inc'.done == inc.done + [inc.s.inbox[0]]))
  }

  lemma KeptLater(err: Option<Error>, inc: Inc, registered: Flag, d: Deeds, inc': Inc, d': Deeds)
    requires KeptError(err, inc, registered, d) && Onwards(inc, d, inc', d')
    ensures KeptError(err, inc', registered, d')
  {
    if inc'.done != inc.done { GaveUpLater(err, inc.done, inc.s.inbox[0]); }
  }

  // The worker or the handler is about to run endOnce with err.
  predicate Finalizes(inc: Inc, e: Local, err: Option<Error>) {
    || (e.WorkerStep? && inc.worker.FinOnce? && inc.worker.err == err)
    || (e.HandlerStep? && inc.handler.FinOnce? && inc.handler.err == err)
  }

  lemma ThreadKeeps(inc: Inc, nid: string, t: Thread, ok: Flag)
    ensures var inc' := StepThread(inc, nid, t, ok).0;
            if t.FinOnce? && inc.s.finalized.Off? then inc'.s.finalized.On? && inc'.s.endErr == t.err
            else inc'.s.finalized == inc.s.finalized && inc'.s.endErr == inc.s.endErr
  {
    match t
    case WriteBegin(_, _) =>
    case _ =>
  }

  // Where the worker's FinOnce comes from.
  lemma WorkerTurns(inc: Inc, nid: string, ok: Flag)
    requires InClose(inc.worker)
    ensures var t' := StepThread(inc, nid, inc.worker, ok).1;
            t'.FinOnce? ==> inc.worker.CloseEnd? && t'.err == inc.worker.err
  {
    match inc.worker
    case CloseBegin(_, _) =>
    case _ =>
  }

  lemma TakeTurns(inc: Inc, registered: Flag, ok: Flag)
    requires inc.s.inbox != [] && inc.worker.Idle?
    ensures var inc' := ProcessFrame(Take(inc), registered, inc.s.inbox[0].body, ok);
            && inc'.s.finalized == inc.s.finalized && inc'.s.endErr == inc.s.endErr
            && (inc'.worker.FinOnce? ==> IsGiveUp(inc.s.inbox[0].body, inc'.worker.err))
  {
    match inc.s.inbox[0].body
    case Call(_) =>
    case Data(_) =>
    case End(_) =>
    case Ping(_) =>
    case Unknown =>
  }

  lemma CallTurns(inc: Inc, registered: Flag, nid: string, e: Local)
    requires !e.WorkerTake? && !e.WorkerStep? && !e.HandlerStep?
    ensures var inc' := LocalStep(inc, registered, nid, e);
            && inc'.s.finalized == inc.s.finalized && inc'.s.endErr == inc.s.endErr && inc'.done == inc.done
            && (inc'.worker.FinOnce? ==> inc'.worker == inc.worker)
  {
    match e
    case CallSetHeader(_) =>
    case CallSendHeader(_, _) =>
    case _ =>
  }

  lemma TakeKept(inc: Inc, registered: Flag, nid: string, ok: Flag, d: Deeds)
    requires KeptInv(inc, registered, d) && inc.s.inbox != [] && inc.worker.Idle?
    ensures KeptInv(LocalStep(inc, registered, nid, WorkerTake(ok)), registered, d)
  {
    var inc' := LocalStep(inc, registered, nid, WorkerTake(ok));
    TakeTurns(inc, registered, ok);
    TakeOut(inc, registered, ok);
    if inc.s.finalized.On? { KeptLater(inc.s.endErr, inc, registered, d, inc', d); }
    if inc'.worker.FinOnce? { GaveUpLater(inc'.worker.err, inc.done, inc.s.inbox[0]); }
  }

  lemma WorkerKept(inc: Inc, registered: Flag, nid: string, ok: Flag, d: Deeds)
    requires KeptInv(inc, registered, d) && ExitInv(inc, registered, d) && InClose(inc.worker)
    ensures KeptInv(LocalStep(inc, registered, nid, WorkerStep(ok)), registered, d)
  {
    var inc' := LocalStep(inc, registered, nid, WorkerStep(ok));
    ThreadOut(inc, nid, inc.worker, ok);
    ThreadKeeps(inc, nid, inc.worker, ok);
    WorkerTurns(inc, nid, ok);
    if inc.s.finalized.On? { KeptLater(inc.s.endErr, inc, registered, d, inc', d); }
    if inc.worker.FinOnce? { KeptLater(inc.worker.err, inc, registered, d, inc', d); }
  }

  lemma HandlerKept(inc: Inc, registered: Flag, nid: string, ok: Flag, d: Deeds)
    requires KeptInv(inc, registered, d) && ExitInv(inc, registered, d)
    requires InSend(inc.handler) || InClose(inc.handler)
    ensures KeptInv(LocalStep(inc, registered, nid, HandlerStep(ok)), registered, Did(d, inc, HandlerStep(ok)))
  {
    var inc', d' := LocalStep(inc, registered, nid, HandlerStep(ok)), Did(d, inc, HandlerStep(ok));
    ThreadOut(inc, nid, inc.handler, ok);
    ThreadKeeps(inc, nid, inc.handler, ok);
    if inc.s.finalized.On? { KeptLater(inc.s.endErr, inc, registered, d, inc', d'); }
    if inc.worker.FinOnce? { KeptLater(inc.worker.err, inc, registered, d, inc', d'); }
  }

  lemma CallKept(inc: Inc, registered: Flag, nid: string, e: Local, d: Deeds)
    requires KeptInv(inc, registered, d) && ExitInv(inc, registered, d)
    requires !e.WorkerTake? && !e.WorkerStep? && !e.HandlerStep?
    ensures KeptInv(LocalStep(inc, registered, nid, e), registered, Did(d, inc, e))
  {
    var inc', d' := LocalStep(inc, registered, nid, e), Did(d, inc, e);
    CallTurns(inc, registered, nid, e);
    LocalOut(inc, registered, nid, e);
    if inc.s.finalized.On? { KeptLater(inc.s.endErr, inc, registered, d, inc', d'); }
    if inc'.worker.FinOnce? { KeptLater(inc.worker.err, inc, registered, d, inc', d'); }
  }

  lemma LocalKept(inc: Inc, registered: Flag, nid: string, e: Local, d: Deeds)
    requires KeptInv(inc, registered, d) && ExitInv(inc, registered, d)
    ensures KeptInv(LocalStep(inc, registered, nid, e), registered, Did(d, inc, e))
  {
    match e
    case WorkerTake(ok) =>
      if inc.worker.Idle? && inc.s.inbox != [] { TakeKept(inc, registered, nid, ok, d); }
    case WorkerStep(ok) => if InClose(inc.worker) { WorkerKept(inc, registered, nid, ok, d); }
    case HandlerStep(ok) =>
      if InSend(inc.handler) || InClose(inc.handler) { HandlerKept(inc, registered, nid, ok, d); }
    case _ => CallKept(inc, registered, nid, e, d);
  }

  // ---------------------------------------------------------------------
  // Pongs
  // ---------------------------------------------------------------------

  // Each Ping is answered with its own timestamp, unless a publication failed.
  ghost predicate PongInv(out: seq<Response>, done: seq<Frame>, failed: Flag) {
    Subsequence(Pongs(out), Pings(Bodies(done))) && (failed.Off? ==> Pongs(out) == Pings(Bodies(done)))
  }

  lemma TakePongs(inc: Inc, registered: Flag, ok: Flag)
    requires PongInv(inc.out, inc.done, inc.failed) && inc.s.inbox != []
    ensures var inc' := ProcessFrame(Take(inc), registered, inc.s.inbox[0].body, ok);
            PongInv(inc'.out, inc'.done, inc'.failed)
  {
    var f := inc.s.inbox[0];
    TakeOut(inc, registered, ok);
    BodiesAppend(inc.done, f);
    PingsAppend(Bodies(inc.done), f.body);
    if f.body.Ping? {
      PongsAppend(inc.out, Pong(f.body.timestamp));
      SubsequenceMore(Pongs(inc.out), Pings(Bodies(inc.done)), f.body.timestamp);
    } else {
      assert Pings(Bodies(inc.done)) + [] == Pings(Bodies(inc.done));
    }
  }

  // Nothing but taking a Ping publishes a Pong.
  lemma LocalPongs(inc: Inc, registered: Flag, nid: string, e: Local)
    requires PongInv(inc.out, inc.done, inc.failed)
    ensures var inc' := LocalStep(inc, registered, nid, e); PongInv(inc'.out, inc'.done, inc'.failed)
  {
    if e.WorkerTake? {
      if inc.worker.Idle? && inc.s.inbox != [] { TakePongs(inc, registered, e.ok); }
    } else {
      LocalOut(inc, registered, nid, e);
      TakesNothing(inc, registered, nid, e);
      var says := LocalSays(inc, nid, e).0;
      if says.Some? {
        PongsAppend(inc.out, says.value);
        assert Pongs(inc.out) + [] == Pongs(inc.out);
      }
    }
  }

  lemma TakesNothing(inc: Inc, registered: Flag, nid: string, e: Local)
    requires !e.WorkerTake?
    ensures LocalStep(inc, registered, nid, e).done == inc.done
    ensures LocalSays(inc, nid, e).0.Some? ==> !LocalSays(inc, nid, e).0.value.Pong?
  {
    match e
    case WorkerStep(ok) => ThreadOut(inc, nid, inc.worker, ok);
    case HandlerStep(ok) => ThreadOut(inc, nid, inc.handler, ok);
    case _ => CallTurns(inc, registered, nid, e);
  }

  // ---------------------------------------------------------------------
  // Every step of the server
  // ---------------------------------------------------------------------

  ghost predicate AnswerInv(inc: Inc, registered: Flag, d: Deeds) {
    && ExitInv(inc, registered, d)
    && EndsInv(inc.out, registered, d)
    && PaidInv(inc.handler, inc.failed, Payloads(inc.out), d.sent)
    && KeptInv(inc, registered, d)
    && PongInv(inc.out, inc.done, inc.failed)
  }

  // The error Stop finalizes with.
  ghost predicate StopSays(y: System) {
    y.stop.Finalizing? && y.stop.thread.FinOnce? ==>
      y.stop.thread.err == Some(StatusError(Status(14, "server stopping")))
  }

  // What the invariant of a stream says about its goroutines.
  lemma GoroutineFacts(inc: Inc, registered: Flag)
    requires IncInv(inc, registered) && FirstCall(inc)
    ensures inc.s.inbox != [] && inc.s.inbox[0].body.Call? ==> inc.handler.NotStarted?
    ensures registered.Off? ==> inc.handler.NotStarted?
    ensures !InSend(inc.worker)
  {
    assert SeenOf(inc).called == CallSeen(Bodies(inc.done));
  }

  lemma LocalAnswers(inc: Inc, registered: Flag, nid: string, e: Local, d: Deeds)
    requires IncInv(inc, registered) && FirstCall(inc) && AnswerInv(inc, registered, d)
    ensures AnswerInv(LocalStep(inc, registered, nid, e), registered, Did(d, inc, e))
  {
    GoroutineFacts(inc, registered);
    LocalGoes(inc, registered, nid, e, d);
    LocalEnds(inc, registered, nid, e, d);
    LocalPays(inc, registered, nid, e, d);
    LocalKept(inc, registered, nid, e, d);
    LocalPongs(inc, registered, nid, e);
  }

  lemma NewAnswers(live: Flag, first: nat, registered: Flag)
    ensures AnswerInv(NewInc(live, first), registered, NOTHING_DONE)
  {}

  // What AnswerInv looks at, the kept error aside.
  predicate SameAnswers(inc: Inc, inc': Inc) {
    && inc'.handler == inc.handler && inc'.worker == inc.worker && inc'.out == inc.out && inc'.failed == inc.failed
    && inc'.closing == inc.closing && inc'.done == inc.done
  }

  lemma AnswersKept(inc: Inc, inc': Inc, registered: Flag, d: Deeds)
    requires AnswerInv(inc, registered, d) && SameAnswers(inc, inc')
    requires inc'.s.finalized.On? ==>
               || (inc.s.finalized.On? && inc'.s.endErr == inc.s.endErr)
               || inc'.s.endErr == Some(StatusError(Status(14, "server stopping")))
    ensures AnswerInv(inc', registered, d)
  {
    if inc.s.finalized.On? { KeptLater(inc.s.endErr, inc, registered, d, inc', d); }
    if inc.worker.FinOnce? { KeptLater(inc.worker.err, inc, registered, d, inc', d); }
  }

  lemma StopAnswers(y: System, i: nat, d: Deeds)
    requires StopSays(y) && i < |y.incs| && AnswerInv(y.incs[i], y.registered, d)
    ensures AnswerInv(StepStop(y).incs[i], y.registered, d)
  {
    match y.stop
    case Finalizing(FinOnce(err, _), j) => AnswersKept(y.incs[i], StepStop(y).incs[i], y.registered, d);
    case Finalizing(FinCancel(_), j) => AnswersKept(y.incs[i], StepStop(y).incs[i], y.registered, d);
    case Finalizing(FinRemove(_), j) => AnswersKept(y.incs[i], StepStop(y).incs[i], y.registered, d);
    case CancellingServer => AnswersKept(y.incs[i], CancelInc(y.incs[i]), y.registered, d);
    case _ =>
  }

  lemma EnqueueAnswers(y: System, i: nat, d: Deeds)
    requires i < |y.incs| && AnswerInv(y.incs[i], y.registered, d) && y.dispatcher.Some?
    ensures i < |Step(y, Enqueue).incs| && AnswerInv(Step(y, Enqueue).incs[i], y.registered, d)
  {
    AnswersKept(y.incs[i], Accept(y.incs[i], y.dispatcher.value.frame), y.registered, d);
  }

  lemma AtAnswers(y: System, j: nat, e: Local, i: nat, d: Deeds)
    requires FramesInv(y) && IncsInv(y) && OneCall(y.sent) && i < |y.incs| && j < |y.incs|
    requires AnswerInv(y.incs[i], y.registered, d)
    ensures AnswerInv(StepAt(y, j, e).incs[i], y.registered, DidIn(d, y, At(j, e), i))
  {
    if i == j {
      CallTakenOnce(y, i);
      assert IncInv(y.incs[i], y.registered);
      LocalAnswers(y.incs[i], y.registered, y.nid, e, d);
    }
  }

  lemma StopSaysKept(y: System, e: Event)
    requires StopSays(y)
    ensures StopSays(Step(y, e)) && Step(y, e).registered == y.registered
  {
    match e
    case StopStep =>
    case _ =>
  }

  lemma StaysPut(y: System, e: Event, i: nat)
    requires i < |y.incs| && !e.Enqueue? && !e.At? && !e.StopStep?
    ensures i < |Step(y, e).incs| && Step(y, e).incs[i] == y.incs[i]
  {}

  lemma OldAnswers(y: System, e: Event, i: nat, d: Deeds)
    requires FramesInv(y) && IncsInv(y) && OneCall(y.sent) && StopSays(y)
    requires i < |y.incs| && AnswerInv(y.incs[i], y.registered, d)
    ensures i < |Step(y, e).incs| && AnswerInv(Step(y, e).incs[i], y.registered, DidIn(d, y, e, i))
  {
    match e
    case Enqueue => if y.dispatcher.Some? { EnqueueAnswers(y, i, d); }
    case At(j, local) => if j < |y.incs| { AtAnswers(y, j, local, i, d); }
    case StopStep => StopAnswers(y, i, d);
    case _ => StaysPut(y, e, i);
  }

  lemma FirstAnswers(y: System, e: Event, i: nat)
    requires |y.incs| <= i < |Step(y, e).incs|
    ensures AnswerInv(Step(y, e).incs[i], y.registered, NOTHING_DONE)
  {
    NewAnswers(y.serverLive, y.taken, y.registered);
  }

  /** Every step of the server keeps what its streams answer in line with what their
      handlers did. */
  lemma StepAnswers(y: System, e: Event, i: nat, d: Deeds)
    requires FramesInv(y) && IncsInv(y) && OneCall(y.sent) && StopSays(y)
    requires if i < |y.incs| then AnswerInv(y.incs[i], y.registered, d) else d == NOTHING_DONE
    ensures StopSays(Step(y, e)) && Step(y, e).registered == y.registered
    ensures if i < |Step(y, e).incs| then AnswerInv(Step(y, e).incs[i], y.registered, DidIn(d, y, e, i))
            else DidIn(d, y, e, i) == NOTHING_DONE
  {
    StopSaysKept(y, e);
    if i < |y.incs| {
      OldAnswers(y, e, i, d);
    } else if i < |Step(y, e).incs| {
      FirstAnswers(y, e, i);
    }
  }
}
