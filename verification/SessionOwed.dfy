// What the streams of the server owe, in whole runs.
module SessionOwed {
  import opened Wire
  import opened Sessions
  import opened ServerAnswers
  import opened ServerOwed
  import opened SessionAnswers
  import SS = ServerStreams
  import S = ServerSystem

  ghost predicate Indebted(y: S.System, registered: Flag, i: nat, d: Deeds) {
    && y.registered == registered && StopCancels(y)
    && if i < |y.incs| then DebtInv(y.incs[i], registered, d) else d == NOTHING_DONE
  }

  lemma ServerIndebted(y: S.System, e: S.Event, registered: Flag, i: nat, d: Deeds)
    requires S.FramesInv(y) && S.IncsInv(y) && S.OneCall(y.sent) && Indebted(y, registered, i, d)
    ensures Indebted(S.Step(y, e), registered, i, DidIn(d, y, e, i))
  {
    RegisteredKept(y, e);
    StopCancelsKept(y, e);
    StepDebts(y, e, i, d);
  }

  lemma RegisteredKept(y: S.System, e: S.Event)
    ensures S.Step(y, e).registered == y.registered
  {
    match e
    case StopStep =>
    case _ =>
  }

  lemma StepIndebted(s: Session, e: Event, registered: Flag, i: nat, d: Deeds)
    requires S.FramesInv(s.server) && S.IncsInv(s.server) && S.OneCall(s.server.sent)
    requires Indebted(s.server, registered, i, d)
    ensures Indebted(Step(s, e).server, registered, i, DidNext(d, s, e, i))
  {
    match e
    case AtClient(_) =>
    case AtServer(se) => if !se.Send? { ServerIndebted(s.server, se, registered, i, d); }
    case Deliver =>
  }

  lemma {:induction false} IndebtedAfter(path: string, registered: Flag, nid: string, events: seq<Event>, i: nat)
    ensures Indebted(After(path, registered, nid, events).server, registered, i,
                     DeedsOf(path, registered, nid, events, i))
  {
    if events != [] {
      var front, last := events[..|events| - 1], events[|events| - 1];
      IndebtedAfter(path, registered, nid, front, i);
      AfterKeeps(path, registered, nid, front);
      OneCallSent(After(path, registered, nid, front));
      StepIndebted(After(path, registered, nid, front), last, registered, i,
                   DeedsOf(path, registered, nid, front, i));
    }
  }

  // What holds of one stream.
  lemma StreamDebts(path: string, registered: Flag, nid: string, events: seq<Event>, i: nat)
    returns (inc: SS.Inc, d: Deeds)
    requires i < |After(path, registered, nid, events).server.incs|
    ensures inc == After(path, registered, nid, events).server.incs[i]
    ensures d == DeedsOf(path, registered, nid, events, i)
    ensures SS.IncInv(inc, registered) && AnswerInv(inc, registered, d) && DebtInv(inc, registered, d)
  {
    IndebtedAfter(path, registered, nid, events, i);
    inc, d := StreamFacts(path, registered, nid, events, i);
  }

  /** A Call for which no handler is registered is answered: once the worker is through
      with close, and with every publication succeeding, the last thing on the wire, Pongs
      aside, is an End with Unimplemented. */
  lemma UnimplementedIsOwed(path: string, nid: string, events: seq<Event>, i: nat)
    requires var y := After(path, Off, nid, events).server;
             && i < |y.incs| && SS.HasCall(y.incs[i]) && y.incs[i].failed.Off? && !SS.InClose(y.incs[i].worker)
    ensures var e := ErasePongs(After(path, Off, nid, events).server.incs[i].out);
            && |e| >= 2 && e[|e| - 1].Finish? && e[|e| - 1].status == Some(Status(12, "Unimplemented"))
  {
    var inc, d := StreamDebts(path, Off, nid, events, i);
    UnimplementedIn(inc, d);
  }

  lemma UnimplementedIn(inc: SS.Inc, d: Deeds)
    requires SS.IncInv(inc, Off) && AnswerInv(inc, Off, d) && DebtInv(inc, Off, d)
    requires SS.HasCall(inc) && inc.failed.Off? && !SS.InClose(inc.worker)
    ensures var e := ErasePongs(inc.out);
            |e| >= 2 && e[|e| - 1].Finish? && e[|e| - 1].status == Some(Status(12, "Unimplemented"))
  {
    ClosedHasEnded(inc);
    DigestIsGrammar(inc.out);
    LastIsPublished(inc.out);
  }

  lemma ClosedHasEnded(inc: SS.Inc)
    requires SS.IncInv(inc, Off) && inc.closing.On? && inc.failed.Off? && !SS.InClose(inc.worker)
    ensures DigestOf(inc.out).phase == Ended
  {
    assert SS.SeenOf(inc).wire == DigestOf(inc.out);
    assert SS.CloseInv(inc, Off) && SS.WireInv(inc, Off, SS.SeenOf(inc));
  }

  /** A handler that returns is done: it makes no more calls, and once its goroutine is
      through it has exited; if it returned on a live stream, or one of its SendMsg could
      not publish Begin, the stream is then finalized, cancelled and off the map. */
  lemma ReturnedIsDone(path: string, nid: string, events: seq<Event>, i: nat)
    requires i < |After(path, On, nid, events).server.incs|
    ensures var inc, d := After(path, On, nid, events).server.incs[i], DeedsOf(path, On, nid, events, i);
            && (d.returned.On? ==> SS.InSend(inc.handler) || SS.InClose(inc.handler) || inc.handler.Exited?)
            && ((d.returned.On? && d.exit.Some?) || d.lost.On? ==>
                  || SS.InSend(inc.handler) || SS.InClose(inc.handler)
                  || (inc.s.finalized.On? && inc.s.live.Off? && inc.removed.On?))
  {
    var inc, d := StreamDebts(path, On, nid, events, i);
    assert SS.CloseInv(inc, On) && ExitInv(inc, On, d) && OwedInv(inc, On, d);
    assert SS.ThreadInv(inc, On, SS.SeenOf(inc));
  }

  /** A client that gives up is heard: once the worker that took its End with an error
      status is through, the stream is finalized, cancelled and off the map. */
  lemma GivingUpFinalizes(path: string, registered: Flag, nid: string, events: seq<Event>, i: nat, k: nat)
    requires var y := After(path, registered, nid, events).server;
             && i < |y.incs| && k < |y.incs[i].done| && IsErrorEnd(y.incs[i].done[k].body)
             && !SS.InFinalize(y.incs[i].worker)
    ensures var inc := After(path, registered, nid, events).server.incs[i];
            inc.s.finalized.On? && inc.s.live.Off? && inc.removed.On?
  {
    var inc, d := StreamDebts(path, registered, nid, events, i);
    GivenUpAt(inc.done, k);
    assert OwedInv(inc, registered, d);
  }

  lemma {:induction false} GivenUpAt(done: seq<SS.Frame>, k: nat)
    requires k < |done| && IsErrorEnd(done[k].body)
    ensures GivenUp(done).On?
  {
    if k < |done| - 1 { GivenUpAt(done[..|done| - 1], k); }
  }

  /** Stats of a server stream, in every run: the InPayload events are those of the
      payloads it accepted, and while no Begin is lost the OutPayload events those of the
      payloads its handler gave, but for the one SendMsg has in hand, in order and each
      with its length. */
  lemma PayloadsAreReported(path: string, registered: Flag, nid: string, events: seq<Event>, i: nat)
    requires i < |After(path, registered, nid, events).server.incs|
    ensures var inc := After(path, registered, nid, events).server.incs[i];
            var d := DeedsOf(path, registered, nid, events, i);
            && InLengths(inc.s.stats) == Lengths(SentBeforeEnd(SS.Bodies(inc.done)))
            && (d.lost.Off? ==> OutLengths(inc.s.stats) + Lengths(InHand(inc.handler)) == Lengths(d.sent))
  {
    var inc, d := StreamDebts(path, registered, nid, events, i);
    assert Reported(inc, d);
  }

  /** Once Server.Stop is done no stream of the reply is live, however late the frame
      that created it. */
  lemma StoppedIsDead(path: string, registered: Flag, nid: string, events: seq<Event>, i: nat)
    requires var y := After(path, registered, nid, events).server; y.stop.StopDone? && i < |y.incs|
    ensures var y := After(path, registered, nid, events).server; y.serverLive.Off? && y.incs[i].s.live.Off?
  {
    AfterKeeps(path, registered, nid, events);
    IndebtedAfter(path, registered, nid, events, i);
    assert S.StretchInv(After(path, registered, nid, events).server, i);
  }

  // ---------------------------------------------------------------------
  // Publications that fail
  // ---------------------------------------------------------------------

  // The step's publication, if it makes one, is lost.
  predicate Loses(e: SS.Local) {
    match e
    case WorkerTake(ok) => ok.Off?
    case WorkerStep(ok) => ok.Off?
    case CallSendHeader(_, ok) => ok.Off?
    case HandlerStep(ok) => ok.Off?
    case _ => false
  }

  predicate LosesAt(e: Event, i: nat) {
    e.AtServer? && e.serverEvent.At? && e.serverEvent.target == i && Loses(e.serverEvent.local)
  }

  predicate NotFailed(y: S.System, i: nat) { i < |y.incs| ==> y.incs[i].failed.Off? }

  lemma LocalNotFailed(inc: SS.Inc, registered: Flag, nid: string, e: SS.Local)
    requires inc.failed.Off? && !Loses(e)
    ensures SS.LocalStep(inc, registered, nid, e).failed.Off?
  {
    LocalOut(inc, registered, nid, e);
  }

  lemma StopNotFailed(y: S.System, i: nat)
    requires NotFailed(y, i)
    ensures NotFailed(S.StepStop(y), i)
  {
    match y.stop
    case Finalizing(FinOnce(_, _), _) =>
    case Finalizing(FinCancel(_), _) =>
    case Finalizing(FinRemove(_), _) =>
    case CancellingServer =>
    case _ =>
  }

  lemma ServerNotFailed(y: S.System, e: S.Event, i: nat)
    requires NotFailed(y, i) && !(e.At? && e.target == i && Loses(e.local))
    ensures NotFailed(S.Step(y, e), i)
  {
    match e
    case At(j, local) => if i == j && i < |y.incs| { LocalNotFailed(y.incs[i], y.registered, y.nid, local); }
    case StopStep => StopNotFailed(y, i);
    case _ =>
  }

  lemma StepNotFailed(s: Session, e: Event, i: nat)
    requires NotFailed(s.server, i) && !LosesAt(e, i)
    ensures NotFailed(Step(s, e).server, i)
  {
    match e
    case AtClient(_) =>
    case AtServer(se) => if !se.Send? { ServerNotFailed(s.server, se, i); }
    case Deliver =>
  }

  /** What the theorems ask of publications is a matter of the events: a stream none of
      whose steps loses its publication has not failed. */
  lemma NothingFails(path: string, registered: Flag, nid: string, events: seq<Event>, i: nat)
    requires forall k :: 0 <= k < |events| ==> !LosesAt(events[k], i)
    requires i < |After(path, registered, nid, events).server.incs|
    ensures After(path, registered, nid, events).server.incs[i].failed.Off?
  {
    FailsNever(path, registered, nid, events, i);
  }

  lemma {:induction false} FailsNever(path: string, registered: Flag, nid: string, events: seq<Event>, i: nat)
    requires forall k :: 0 <= k < |events| ==> !LosesAt(events[k], i)
    ensures NotFailed(After(path, registered, nid, events).server, i)
  {
    if events != [] {
      var front, last := events[..|events| - 1], events[|events| - 1];
      assert forall k :: 0 <= k < |front| ==> front[k] == events[k];
      FailsNever(path, registered, nid, front, i);
      StepNotFailed(After(path, registered, nid, front), last, i);
    }
  }
}
