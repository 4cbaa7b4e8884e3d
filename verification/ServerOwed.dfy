// What a server stream owes (pkg/rpc/server.go): an answer to every Call, an end to a
// stream given up by its client or closed, and a stats report of every payload.
module ServerOwed {
  import opened Wire
  import opened ServerStreams
  import opened ServerSystem
  import opened ServerAnswers

  // ---------------------------------------------------------------------
  // Ends that are due
  // ---------------------------------------------------------------------

  predicate IsErrorEnd(r: Request) { r.End? && r.status.Some? && r.status.value.code != 0 }

  // The client has given the stream up with an End.
  function GivenUp(done: seq<Frame>): Flag {
    if done == [] then Off else if IsErrorEnd(done[|done| - 1].body) then On else GivenUp(done[..|done| - 1])
  }

  lemma GivenUpAppend(done: seq<Frame>, f: Frame)
    ensures GivenUp(done + [f]) == if IsErrorEnd(f.body) then On else GivenUp(done)
  {
    assert (done + [f])[..|done|] == done;
  }

  // A finalize of the worker is over, or how far it is.
  predicate WorkerFinalizes(inc: Inc) {
    || inc.worker.FinOnce?
    || (inc.s.finalized.On? && (inc.worker.FinCancel?
                                || (inc.s.live.Off? && (inc.worker.FinRemove? || inc.removed.On?))))
  }

  ghost predicate OwedInv(inc: Inc, registered: Flag, d: Deeds) {
    OwedAs(inc, registered, d, CallSeen(Bodies(inc.done)), GivenUp(inc.done))
  }

  ghost predicate OwedAs(inc: Inc, registered: Flag, d: Deeds, called: Flag, givenUp: Flag) {
    && (registered.Off? && called.On? ==> inc.closing.On?)
    && (d.lost.On? ==> inc.closing.On?)
    && (inc.closing.On? ==> InClose(Closer(inc, registered)) || inc.removed.On?)
    && (d.returned.On? ==> d.exit.Some? || inc.handler.Exited?)
    && (givenUp.On? ==> WorkerFinalizes(inc))
  }

  // What a step of a goroutine inside close or finalize gets done.
  lemma ThreadEnds(inc: Inc, nid: string, t: Thread, ok: Flag)
    requires InSend(t) || InClose(t)
    ensures var (inc', t') := StepThread(inc, nid, t, ok);
            && (InClose(t) ==> InClose(t') || inc'.removed.On?)
            && (InClose(t) ==> inc'.closing == inc.closing)
            && (inc'.closing.On? && inc.closing.Off? ==> InClose(t'))
            && (inc.removed.On? ==> inc'.removed.On?)
            && (inc.s.finalized.On? ==> inc'.s.finalized.On?)
            && (inc.s.live.Off? ==> inc'.s.live.Off?)
            && (t.WriteBegin? && inc.s.hasBegun.Off? && ok.Off? ==> inc'.closing.On?)
  {
    match t
    case WriteBegin(_, _) =>
    case _ =>
  }

  lemma ThreadFinalizes(inc: Inc, nid: string, t: Thread, ok: Flag)
    requires InFinalize(t)
    ensures var (inc', t') := StepThread(inc, nid, t, ok);
            && (t.FinOnce? ==> t'.FinCancel? && inc'.s.finalized.On?)
            && (t.FinCancel? ==> t'.FinRemove? && inc'.s.live.Off? && inc'.s.finalized == inc.s.finalized)
            && (t.FinRemove? ==> inc'.removed.On? && inc'.s == inc.s)
  {}

  lemma WorkerOwes(inc: Inc, registered: Flag, nid: string, ok: Flag, d: Deeds)
    requires OwedInv(inc, registered, d) && InClose(inc.worker)
    ensures OwedInv(LocalStep(inc, registered, nid, WorkerStep(ok)), registered, d)
  {
    ThreadOut(inc, nid, inc.worker, ok);
    ThreadEnds(inc, nid, inc.worker, ok);
    if InFinalize(inc.worker) { ThreadFinalizes(inc, nid, inc.worker, ok); }
  }

  lemma HandlerOwes(inc: Inc, registered: Flag, nid: string, ok: Flag, d: Deeds)
    requires OwedInv(inc, registered, d) && (InSend(inc.handler) || InClose(inc.handler))
    requires registered.Off? ==> inc.handler.NotStarted?
    ensures OwedInv(LocalStep(inc, registered, nid, HandlerStep(ok)), registered, Did(d, inc, HandlerStep(ok)))
  {
    ThreadOut(inc, nid, inc.handler, ok);
    ThreadEnds(inc, nid, inc.handler, ok);
  }

  lemma TakeOwes(inc: Inc, registered: Flag, ok: Flag, d: Deeds)
    requires OwedInv(inc, registered, d) && inc.s.inbox != [] && inc.worker.Idle?
    requires inc.s.inbox[0].body.Call? ==> inc.handler.NotStarted? && inc.closing.Off? && d == NOTHING_DONE
    requires registered.Off? ==> inc.handler.NotStarted?
    ensures OwedInv(ProcessFrame(Take(inc), registered, inc.s.inbox[0].body, ok), registered, d)
  {
    var f := inc.s.inbox[0];
    GivenUpAppend(inc.done, f);
    BodiesAppend(inc.done, f);
    TakeOut(inc, registered, ok);
    FrameOwes(Take(inc), registered, f.body, ok, d, CallSeen(Bodies(inc.done)), GivenUp(inc.done));
  }

  lemma FrameOwes(inc: Inc, registered: Flag, r: Request, ok: Flag, d: Deeds, called: Flag, givenUp: Flag)
    requires OwedAs(inc, registered, d, called, givenUp) && inc.worker.Idle?
    requires r.Call? ==> inc.handler.NotStarted? && inc.closing.Off? && d == NOTHING_DONE
    ensures OwedAs(ProcessFrame(inc, registered, r, ok), registered, d,
                   if r.Call? then On else called, if IsErrorEnd(r) then On else givenUp)
  {
    match r
    case Call(_) =>
    case Data(_) =>
    case End(status) => if IsOk(status) {} else {}
    case Ping(_) =>
    case Unknown =>
  }

  // What OwedAs looks at is the same.
  predicate OwesAsBefore(inc: Inc, inc': Inc) {
    && inc'.handler == inc.handler && inc'.worker == inc.worker && inc'.closing == inc.closing
    && inc'.done == inc.done && inc'.removed == inc.removed
    && inc'.s.finalized == inc.s.finalized && inc'.s.live == inc.s.live
  }

  lemma OwedKept(inc: Inc, inc': Inc, registered: Flag, d: Deeds)
    requires OwedInv(inc, registered, d) && OwesAsBefore(inc, inc')
    ensures OwedInv(inc', registered, d)
  {}

  lemma CallOwes(inc: Inc, registered: Flag, nid: string, e: Local, d: Deeds)
    requires OwedInv(inc, registered, d) && (registered.Off? ==> inc.handler.NotStarted?)
    requires !e.WorkerTake? && !e.WorkerStep? && !e.HandlerStep?
    ensures OwedInv(LocalStep(inc, registered, nid, e), registered, Did(d, inc, e))
  {
    if e.HandlerReturn? || e.UnaryReturn? || e.CallSendMsg? || e.WorkerExit? || e.WorkerDeliver? {
      HandlerCallOwes(inc, registered, nid, e, d);
    } else {
      CallKeepsDebts(inc, registered, nid, e);
      OwedKept(inc, LocalStep(inc, registered, nid, e), registered, d);
    }
  }

  lemma HandlerCallOwes(inc: Inc, registered: Flag, nid: string, e: Local, d: Deeds)
    requires OwedInv(inc, registered, d) && (registered.Off? ==> inc.handler.NotStarted?)
    requires e.HandlerReturn? || e.UnaryReturn? || e.CallSendMsg? || e.WorkerExit? || e.WorkerDeliver?
    ensures OwedInv(LocalStep(inc, registered, nid, e), registered, Did(d, inc, e))
  {
    match e
    case HandlerReturn(_) =>
    case UnaryReturn(_) =>
    case CallSendMsg(_) =>
    case WorkerExit =>
    case WorkerDeliver =>
  }

  lemma CallKeepsDebts(inc: Inc, registered: Flag, nid: string, e: Local)
    requires e.CallSetHeader? || e.CallSendHeader? || e.CallSetTrailer? || e.CallRecvMsg? || e.CallRecvEof?
    ensures OwesAsBefore(inc, LocalStep(inc, registered, nid, e))
  {
    match e
    case CallSetHeader(_) =>
    case CallSendHeader(_, _) =>
    case _ =>
  }

  // Before the Call there is no handler and nothing is closed.
  lemma BeforeTheCall(inc: Inc, registered: Flag)
    requires IncInv(inc, registered) && FirstCall(inc)
    ensures inc.s.inbox != [] && inc.s.inbox[0].body.Call? ==> inc.handler.NotStarted? && inc.closing.Off?
  {
    assert ThreadInv(inc, registered, SeenOf(inc));
  }

  lemma LocalOwes(inc: Inc, registered: Flag, nid: string, e: Local, d: Deeds)
    requires IncInv(inc, registered) && FirstCall(inc) && OwedInv(inc, registered, d)
    requires inc.handler.NotStarted? ==> d == NOTHING_DONE
    ensures OwedInv(LocalStep(inc, registered, nid, e), registered, Did(d, inc, e))
  {
    GoroutineFacts(inc, registered);
    BeforeTheCall(inc, registered);
    match e
    case WorkerTake(ok) =>
      if inc.worker.Idle? && inc.s.inbox != [] { TakeOwes(inc, registered, ok, d); }
    case WorkerStep(ok) => if InClose(inc.worker) { WorkerOwes(inc, registered, nid, ok, d); }
    case HandlerStep(ok) =>
      if InSend(inc.handler) || InClose(inc.handler) { HandlerOwes(inc, registered, nid, ok, d); }
    case _ => CallOwes(inc, registered, nid, e, d);
  }

  // ---------------------------------------------------------------------
  // Payload reports
  // ---------------------------------------------------------------------

  // Every payload accepted from the client is reported, and every payload of SendMsg
  // once its Begin is out.
  ghost predicate ReportInv(stats: seq<StatEvent>, accepted: seq<Payload>, t: Thread, lost: Flag, sent: seq<Payload>) {
    && InLengths(stats) == Lengths(accepted)
    && (lost.Off? ==> OutLengths(stats) + Lengths(InHand(t)) == Lengths(sent))
  }

  ghost predicate Reported(inc: Inc, d: Deeds) {
    ReportInv(inc.s.stats, SentBeforeEnd(Bodies(inc.done)), inc.handler, d.lost, d.sent)
  }

  // The length a local step reports, if any.
  function InReport(inc: Inc, e: Local): seq<nat> {
    if e.WorkerTake? && inc.worker.Idle? && inc.s.inbox != [] && inc.s.inbox[0].body.Data? && inc.s.recvOpen.On?
    then [|inc.s.inbox[0].body.payload|] else []
  }

  function OutReport(inc: Inc, e: Local): seq<nat> {
    if e.HandlerStep? && inc.handler.WriteData? then [|inc.handler.payload|] else []
  }

  lemma StatsBeginReports(s: Stream)
    ensures var stats := StatsBegin(s).stats;
            InLengths(stats) == InLengths(s.stats) && OutLengths(stats) == OutLengths(s.stats)
  {
    LengthsAppend(s.stats, StatBegin);
  }

  lemma AcceptReports(s: Stream, p: Payload)
    ensures InLengths(AcceptData(s, p).stats) == InLengths(s.stats) + [|p|]
    ensures OutLengths(AcceptData(s, p).stats) == OutLengths(s.stats)
  {
    StatsBeginReports(s);
    LengthsAppend(StatsBegin(s).stats, InPayload(|p|));
  }

  lemma TakeReports(inc: Inc, registered: Flag, ok: Flag)
    requires inc.s.inbox != [] && inc.worker.Idle?
    ensures var inc' := ProcessFrame(Take(inc), registered, inc.s.inbox[0].body, ok);
            && InLengths(inc'.s.stats) == InLengths(inc.s.stats) + InReport(inc, WorkerTake(ok))
            && OutLengths(inc'.s.stats) == OutLengths(inc.s.stats)
  {
    match inc.s.inbox[0].body
    case Call(_) => StatsBeginReports(Take(inc).s);
    case Data(p) => AcceptReports(Take(inc).s, p);
    case End(_) =>
    case Ping(_) =>
    case Unknown =>
  }

  lemma ThreadReports(inc: Inc, nid: string, t: Thread, ok: Flag)
    ensures var stats := StepThread(inc, nid, t, ok).0.s.stats;
            && InLengths(stats) == InLengths(inc.s.stats)
            && OutLengths(stats) == OutLengths(inc.s.stats) + (if t.WriteData? then [|t.payload|] else [])
  {
    ThreadShowsStats(inc, nid, t, ok);
    if t.WriteData? { LengthsAppend(inc.s.stats, OutPayload(|t.payload|)); }
    if t.FinOnce? { LengthsAppend(inc.s.stats, StatEnd(t.err)); }
  }

  lemma ThreadShowsStats(inc: Inc, nid: string, t: Thread, ok: Flag)
    ensures var stats := StepThread(inc, nid, t, ok).0.s.stats;
            if t.WriteData? then stats == inc.s.stats + [OutPayload(|t.payload|)]
            else stats == inc.s.stats || (t.FinOnce? && stats == inc.s.stats + [StatEnd(t.err)])
  {
    match t
    case WriteBegin(_, _) =>
    case _ =>
  }

  lemma LocalReports(inc: Inc, registered: Flag, nid: string, e: Local)
    requires !InSend(inc.worker)
    ensures var stats := LocalStep(inc, registered, nid, e).s.stats;
            && InLengths(stats) == InLengths(inc.s.stats) + InReport(inc, e)
            && OutLengths(stats) == OutLengths(inc.s.stats) + OutReport(inc, e)
  {
    match e
    case WorkerTake(ok) => if inc.worker.Idle? && inc.s.inbox != [] { TakeReports(inc, registered, ok); }
    case WorkerStep(ok) => if InClose(inc.worker) { ThreadReports(inc, nid, inc.worker, ok); }
    case HandlerStep(ok) => ThreadReports(inc, nid, inc.handler, ok);
    case _ => CallReportsNothing(inc, registered, nid, e);
  }

  lemma CallReportsNothing(inc: Inc, registered: Flag, nid: string, e: Local)
    requires !e.WorkerTake? && !e.WorkerStep? && !e.HandlerStep?
    ensures LocalStep(inc, registered, nid, e).s.stats == inc.s.stats
  {
    match e
    case CallSetHeader(_) =>
    case CallSendHeader(_, _) =>
    case _ =>
  }

  lemma TakeReported(inc: Inc, registered: Flag, nid: string, ok: Flag, d: Deeds)
    requires Reported(inc, d) && QueueInv(inc) && inc.worker.Idle? && inc.s.inbox != [] && !InSend(inc.worker)
    requires inc.s.inbox[0].body.Call? ==> inc.handler.NotStarted?
    ensures Reported(LocalStep(inc, registered, nid, WorkerTake(ok)), d)
  {
    var f := inc.s.inbox[0];
    LocalReports(inc, registered, nid, WorkerTake(ok));
    TakeOut(inc, registered, ok);
    TakeKeepsSender(inc, registered, ok);
    BodiesAppend(inc.done, f);
    HalfClosedAppend(Bodies(inc.done), f.body);
    if f.body.Data? { LengthsMore(SentBeforeEnd(Bodies(inc.done)), f.body.payload); }
  }

  lemma LengthsOfHand(t: Thread)
    ensures Lengths(InHand(t)) == if InSend(t) then [|t.payload|] else []
  {}

  lemma HandlerReported(inc: Inc, registered: Flag, nid: string, ok: Flag, d: Deeds)
    requires Reported(inc, d) && (InSend(inc.handler) || InClose(inc.handler)) && !InSend(inc.worker)
    ensures Reported(LocalStep(inc, registered, nid, HandlerStep(ok)), Did(d, inc, HandlerStep(ok)))
  {
    var stats, t, d' := HandlerMoves(inc, registered, nid, ok, d);
    Reports(inc.s.stats, SentBeforeEnd(Bodies(inc.done)), inc.handler, d.lost, d.sent, stats, t, d'.lost);
  }

  lemma HandlerMoves(inc: Inc, registered: Flag, nid: string, ok: Flag, d: Deeds)
    returns (stats: seq<StatEvent>, t: Thread, d': Deeds)
    requires (InSend(inc.handler) || InClose(inc.handler)) && !InSend(inc.worker)
    ensures var inc' := LocalStep(inc, registered, nid, HandlerStep(ok));
            stats == inc'.s.stats && t == inc'.handler && inc'.done == inc.done
    ensures d' == Did(d, inc, HandlerStep(ok)) && d'.sent == d.sent
    ensures InLengths(stats) == InLengths(inc.s.stats)
    ensures OutLengths(stats) ==
            OutLengths(inc.s.stats) + (if inc.handler.WriteData? then [|inc.handler.payload|] else [])
    ensures d'.lost.Off? ==> d.lost.Off? && HandsOver(inc.handler, t, false)
  {
    stats, t := StepThread(inc, nid, inc.handler, ok).0.s.stats, StepThread(inc, nid, inc.handler, ok).1;
    d' := Did(d, inc, HandlerStep(ok));
    ThreadReports(inc, nid, inc.handler, ok);
    ThreadOut(inc, nid, inc.handler, ok);
    HandMoves(inc, nid, inc.handler, ok);
  }

  // A payload leaves SendMsg's hand when it is reported, or when Begin is lost.
  predicate HandsOver(t: Thread, t': Thread, lost: bool) {
    if t.WriteData? || (t.WriteBegin? && lost) || !InSend(t) then !InSend(t')
    else InSend(t') && t'.payload == t.payload
  }

  lemma HandMoves(inc: Inc, nid: string, t: Thread, ok: Flag)
    requires InSend(t) || InClose(t)
    ensures HandsOver(t, StepThread(inc, nid, t, ok).1, inc.s.hasBegun.Off? && ok.Off?)
  {
    match t
    case WriteBegin(_, _) =>
    case _ =>
  }

  lemma Reports(stats: seq<StatEvent>, accepted: seq<Payload>, t: Thread, lost: Flag, sent: seq<Payload>,
                stats': seq<StatEvent>, t': Thread, lost': Flag)
    requires ReportInv(stats, accepted, t, lost, sent)
    requires InLengths(stats') == InLengths(stats)
    requires OutLengths(stats') == OutLengths(stats) + (if t.WriteData? then [|t.payload|] else [])
    requires lost'.Off? ==> lost.Off? && HandsOver(t, t', false)
    ensures ReportInv(stats', accepted, t', lost', sent)
  {
    LengthsOfHand(t);
    LengthsOfHand(t');
  }

  lemma CallReported(inc: Inc, registered: Flag, nid: string, e: Local, d: Deeds)
    requires Reported(inc, d) && !InSend(inc.worker) && !e.WorkerTake? && !e.HandlerStep?
    ensures Reported(LocalStep(inc, registered, nid, e), Did(d, inc, e))
  {
    LocalReports(inc, registered, nid, e);
    if e.WorkerStep? {
      if InClose(inc.worker) { ThreadOut(inc, nid, inc.worker, e.ok); }
    } else {
      CallTurns(inc, registered, nid, e);
      CallHands(inc, registered, nid, e, d);
    }
  }

  // SendMsg takes a payload in hand.
  lemma CallHands(inc: Inc, registered: Flag, nid: string, e: Local, d: Deeds)
    requires !e.WorkerTake? && !e.WorkerStep? && !e.HandlerStep?
    ensures var t', d' := LocalStep(inc, registered, nid, e).handler, Did(d, inc, e);
            && d'.lost == d.lost
            && (if d'.sent == d.sent then Lengths(InHand(t')) == Lengths(InHand(inc.handler))
                else !InSend(inc.handler) && Lengths(d'.sent) == Lengths(d.sent) + Lengths(InHand(t')))
  {
    match e
    case CallSendMsg(p) => LengthsMore(d.sent, p);
    case UnaryReturn(p) => LengthsMore(d.sent, p);
    case CallSendHeader(_, _) =>
    case CallSetHeader(_) =>
    case HandlerReturn(_) =>
    case _ =>
  }

  lemma LocalReported(inc: Inc, registered: Flag, nid: string, e: Local, d: Deeds)
    requires IncInv(inc, registered) && FirstCall(inc) && Reported(inc, d)
    ensures Reported(LocalStep(inc, registered, nid, e), Did(d, inc, e))
  {
    GoroutineFacts(inc, registered);
    if e.WorkerTake? {
      if inc.worker.Idle? && inc.s.inbox != [] { TakeReported(inc, registered, nid, e.ok, d); }
    } else if e.HandlerStep? {
      if InSend(inc.handler) || InClose(inc.handler) { HandlerReported(inc, registered, nid, e.ok, d); }
    } else {
      CallReported(inc, registered, nid, e, d);
    }
  }

  // ---------------------------------------------------------------------
  // Every step of the server
  // ---------------------------------------------------------------------

  ghost predicate DebtInv(inc: Inc, registered: Flag, d: Deeds) {
    && OwedInv(inc, registered, d)
    && Reported(inc, d)
    && (inc.handler.NotStarted? ==> d == NOTHING_DONE)
  }

  lemma LocalDebts(inc: Inc, registered: Flag, nid: string, e: Local, d: Deeds)
    requires IncInv(inc, registered) && FirstCall(inc) && DebtInv(inc, registered, d)
    ensures DebtInv(LocalStep(inc, registered, nid, e), registered, Did(d, inc, e))
  {
    LocalOwes(inc, registered, nid, e, d);
    LocalReported(inc, registered, nid, e, d);
    NothingYet(inc, registered, nid, e, d);
  }

  // A handler that has not started does nothing.
  lemma NothingYet(inc: Inc, registered: Flag, nid: string, e: Local, d: Deeds)
    requires inc.handler.NotStarted? ==> d == NOTHING_DONE
    ensures LocalStep(inc, registered, nid, e).handler.NotStarted? ==> Did(d, inc, e) == NOTHING_DONE
  {
    match e
    case WorkerTake(ok) =>
      if inc.worker.Idle? && inc.s.inbox != [] {
        match inc.s.inbox[0].body
        case Call(_) =>
        case _ =>
      }
    case WorkerStep(ok) => ThreadOut(inc, nid, inc.worker, ok);
    case HandlerStep(ok) => if InSend(inc.handler) || InClose(inc.handler) { ThreadStays(inc, nid, inc.handler, ok); }
    case CallSetHeader(_) =>
    case CallSendHeader(_, _) =>
    case _ =>
  }

  lemma ThreadStays(inc: Inc, nid: string, t: Thread, ok: Flag)
    requires InSend(t) || InClose(t)
    ensures !StepThread(inc, nid, t, ok).1.NotStarted?
  {
    match t
    case WriteBegin(_, _) =>
    case _ =>
  }

  lemma NewDebts(live: Flag, first: nat, registered: Flag)
    ensures DebtInv(NewInc(live, first), registered, NOTHING_DONE)
  {}

  // What DebtInv looks at is the same, progress of a finalize aside.
  ghost predicate SameDebts(inc: Inc, inc': Inc) {
    && inc'.handler == inc.handler && inc'.worker == inc.worker && inc'.closing == inc.closing
    && inc'.done == inc.done && (inc.removed.On? ==> inc'.removed.On?)
    && (inc.s.finalized.On? ==> inc'.s.finalized.On?) && (inc.s.live.Off? ==> inc'.s.live.Off?)
    && InLengths(inc'.s.stats) == InLengths(inc.s.stats) && OutLengths(inc'.s.stats) == OutLengths(inc.s.stats)
  }

  lemma DebtsKept(inc: Inc, inc': Inc, registered: Flag, d: Deeds)
    requires DebtInv(inc, registered, d) && SameDebts(inc, inc')
    ensures DebtInv(inc', registered, d)
  {}

  lemma FinalizeDebts(inc: Inc, err: Option<Error>)
    ensures SameDebts(inc, FinalizeInc(inc, err))
  {
    LengthsAppend(inc.s.stats, StatEnd(err));
  }

  lemma StopSame(y: System, i: nat)
    requires i < |y.incs|
    ensures i < |StepStop(y).incs| && SameDebts(y.incs[i], StepStop(y).incs[i])
  {
    match y.stop
    case Finalizing(FinOnce(err, _), j) => FinalizeDebts(y.incs[i], err);
    case Finalizing(FinCancel(_), j) =>
    case Finalizing(FinRemove(_), j) =>
    case CancellingServer =>
    case _ =>
  }

  lemma StopDebts(y: System, i: nat, d: Deeds)
    requires i < |y.incs| && DebtInv(y.incs[i], y.registered, d)
    ensures i < |StepStop(y).incs| && DebtInv(StepStop(y).incs[i], y.registered, d)
  {
    StopSame(y, i);
    DebtsKept(y.incs[i], StepStop(y).incs[i], y.registered, d);
  }

  lemma AtDebts(y: System, j: nat, e: Local, i: nat, d: Deeds)
    requires FramesInv(y) && IncsInv(y) && OneCall(y.sent) && i < |y.incs| && j < |y.incs|
    requires DebtInv(y.incs[i], y.registered, d)
    ensures DebtInv(StepAt(y, j, e).incs[i], y.registered, DidIn(d, y, At(j, e), i))
  {
    if i == j {
      CallTakenOnce(y, i);
      assert IncInv(y.incs[i], y.registered);
      LocalDebts(y.incs[i], y.registered, y.nid, e, d);
    }
  }

  lemma EnqueueDebts(y: System, i: nat, d: Deeds)
    requires i < |y.incs| && DebtInv(y.incs[i], y.registered, d) && y.dispatcher.Some?
    ensures i < |Step(y, Enqueue).incs| && DebtInv(Step(y, Enqueue).incs[i], y.registered, d)
  {
    DebtsKept(y.incs[i], Accept(y.incs[i], y.dispatcher.value.frame), y.registered, d);
  }

  lemma OldDebts(y: System, e: Event, i: nat, d: Deeds)
    requires FramesInv(y) && IncsInv(y) && OneCall(y.sent)
    requires i < |y.incs| && DebtInv(y.incs[i], y.registered, d)
    ensures i < |Step(y, e).incs| && DebtInv(Step(y, e).incs[i], y.registered, DidIn(d, y, e, i))
  {
    match e
    case Enqueue => if y.dispatcher.Some? { EnqueueDebts(y, i, d); }
    case At(j, local) => if j < |y.incs| { AtDebts(y, j, local, i, d); }
    case StopStep => StopDebts(y, i, d);
    case _ => StaysPut(y, e, i);
  }

  lemma FirstIsNew(y: System, e: Event, i: nat)
    requires |y.incs| <= i < |Step(y, e).incs|
    ensures Step(y, e).incs[i] == NewInc(y.serverLive, y.taken)
  {}

  lemma FirstDebts(y: System, e: Event, i: nat)
    requires |y.incs| <= i < |Step(y, e).incs|
    ensures DebtInv(Step(y, e).incs[i], y.registered, NOTHING_DONE)
  {
    FirstIsNew(y, e, i);
    NewDebts(y.serverLive, y.taken, y.registered);
  }

  // Stop cancels the context all streams derive from.
  predicate StopCancels(y: System) { y.stop.StopDone? ==> y.serverLive.Off? }

  lemma StepDebts(y: System, e: Event, i: nat, d: Deeds)
    requires FramesInv(y) && IncsInv(y) && OneCall(y.sent)
    requires if i < |y.incs| then DebtInv(y.incs[i], y.registered, d) else d == NOTHING_DONE
    ensures if i < |Step(y, e).incs| then DebtInv(Step(y, e).incs[i], y.registered, DidIn(d, y, e, i))
            else DidIn(d, y, e, i) == NOTHING_DONE
  {
    if i < |y.incs| {
      OldDebts(y, e, i, d);
    } else if i < |Step(y, e).incs| {
      FirstDebts(y, e, i);
    }
  }

  lemma StopCancelsKept(y: System, e: Event)
    requires StopCancels(y)
    ensures StopCancels(Step(y, e))
  {
    match e
    case StopStep =>
    case _ =>
  }
}
