// Courses of the server that show where its promises stop (pkg/rpc/server.go), in
// stretches during which the client publishes nothing.
module ServerLimits {
  import opened Wire
  import opened ServerStreams
  import opened ServerSystem
  import opened ServerTheorems

  // The server gets from y to y' while the client publishes nothing.
  ghost predicate Silently(y: System, y': System) {
    exists events: seq<Event> :: NoSends(events) && y' == Run(y, events)
  }

  ghost predicate NoSends(events: seq<Event>) { forall k :: 0 <= k < |events| ==> !events[k].Send? }

  lemma SilentlyStays(y: System)
    ensures Silently(y, y)
  {
    assert NoSends([]) && y == Run(y, []);
  }

  lemma SilentStep(y: System, y': System, e: Event)
    requires Silently(y, y') && !e.Send?
    ensures Silently(y, Step(y', e))
  {
    var events: seq<Event> :| NoSends(events) && y' == Run(y, events);
    assert (events + [e])[..|events|] == events;
    assert NoSends(events + [e]) && Step(y', e) == Run(y, events + [e]);
  }

  // The dispatcher brings the next frame to the stream of the reply.
  function Dispatch(y: System): System { Step(Step(y, Lookup), Enqueue) }

  lemma DispatchSilent(y: System, y': System)
    requires Silently(y, y')
    ensures Silently(y, Dispatch(y'))
  {
    SilentStep(y, y', Lookup);
    SilentStep(y, Step(y', Lookup), Enqueue);
  }

  // A published frame is next, and the dispatcher is free.
  predicate Pending(y: System, r: Request) {
    && y.taken + 1 == |y.sent| && y.sent[y.taken] == r && y.dispatcher.None? && y.subscribed.On?
  }

  // The reply has no entry in Server.streams: the frame creates a new stream.
  lemma DispatchFresh(y: System, r: Request)
    requires Pending(y, r) && y.mapped.None?
    ensures Dispatch(y) ==
            y.(taken := y.taken + 1, mapped := Some(|y.incs|),
               incs := y.incs + [Accept(NewInc(y.serverLive, y.taken), Frame(y.taken, r))])
  {
    var y2 := Step(y, Lookup);
    assert y2.dispatcher == Some(Delivery(|y.incs|, Frame(y.taken, r)));
    assert y2.incs[|y.incs| := Accept(NewInc(y.serverLive, y.taken), Frame(y.taken, r))]
        == y.incs + [Accept(NewInc(y.serverLive, y.taken), Frame(y.taken, r))];
  }

  // The frame goes to the only stream.
  lemma DispatchNext(y: System, r: Request)
    requires Pending(y, r) && |y.incs| == 1 && y.mapped == Some(0) && |y.incs[0].s.inbox| < INBOX_CAPACITY
    ensures Dispatch(y) == y.(taken := y.taken + 1, incs := [Accept(y.incs[0], Frame(y.taken, r))])
  {
    var y2 := Step(y, Lookup);
    assert y2.dispatcher == Some(Delivery(0, Frame(y.taken, r)));
    assert y2.incs[0 := Accept(y.incs[0], Frame(y.taken, r))] == [Accept(y.incs[0], Frame(y.taken, r))];
  }

  // ---------------------------------------------------------------------
  // Begin without End
  // ---------------------------------------------------------------------

  // The worker that closes a stream nobody serves, after n steps: Begin, End,
  // endOnce, cancel, remove.
  function CloseThread(n: nat): Thread {
    if n == 0 then CloseBegin(UNIMPLEMENTED, On)
    else if n == 1 then CloseEnd(UNIMPLEMENTED, On)
    else if n == 2 then FinOnce(UNIMPLEMENTED, On)
    else if n == 3 then FinCancel(On)
    else if n == 4 then FinRemove(On)
    else Idle
  }

  // statsBegin has not run, the receive channel is open, and `rest` is queued.
  ghost predicate ClosingUnbegun(inc: Inc, rest: seq<Frame>, n: nat) {
    && inc.worker == CloseThread(n) && inc.s.inbox == rest && inc.s.stats == [] && inc.s.recvOpen.On?
    && inc.s.statsBegun.Off? && (n >= 3 ==> inc.s.finalized.On?)
  }

  lemma ClosingStep(inc: Inc, nid: string, rest: seq<Frame>, n: nat)
    requires ClosingUnbegun(inc, rest, n) && n < 5
    ensures ClosingUnbegun(LocalStep(inc, Off, nid, WorkerStep(On)), rest, n + 1)
  {
    match inc.worker
    case CloseBegin(_, _) =>
    case CloseEnd(_, _) =>
    case FinOnce(_, _) =>
    case FinCancel(_) =>
    case FinRemove(_) =>
  }

  // The only stream of the reply takes a local step.
  ghost predicate Solo(y0: System, y: System) {
    Silently(y0, y) && |y.incs| == 1 && y.registered == y0.registered && y.nid == y0.nid && y.sent == y0.sent
  }

  lemma SoloStep(y0: System, y: System, e: Local)
    requires Solo(y0, y)
    ensures Solo(y0, Step(y, At(0, e)))
    ensures Step(y, At(0, e)).incs == [LocalStep(y.incs[0], y.registered, y.nid, e)]
  {
    SilentStep(y0, y, At(0, e));
  }

  lemma ClosesUnbegun(y0: System, y: System, rest: seq<Frame>) returns (y': System)
    requires Solo(y0, y) && y0.registered.Off? && ClosingUnbegun(y.incs[0], rest, 0)
    ensures Solo(y0, y') && ClosingUnbegun(y'.incs[0], rest, 5)
  {
    y' := y;
    for n := 0 to 5
      invariant Solo(y0, y') && ClosingUnbegun(y'.incs[0], rest, n)
    {
      SoloStep(y0, y', WorkerStep(On));
      ClosingStep(y'.incs[0], y0.nid, rest, n);
      y' := Step(y', At(0, WorkerStep(On)));
    }
  }

  lemma TakesUnserved(inc: Inc, nid: string, f: Frame, g: Frame)
    requires inc == Accept(Accept(NewInc(On, 0), f), g) && f.body.Call?
    ensures ClosingUnbegun(LocalStep(inc, Off, nid, WorkerTake(On)), [g], 0)
  {
    assert [f, g][1..] == [g];
  }

  lemma TakesAfterClose(inc: Inc, nid: string, g: Frame)
    requires ClosingUnbegun(inc, [g], 5) && g.body.Data?
    ensures var s := LocalStep(inc, Off, nid, WorkerTake(On)).s;
            s.finalized.On? && s.stats == [StatBegin, InPayload(|g.body.payload|)]
  {
    assert [] + [StatBegin] + [InPayload(|g.body.payload|)] == [StatBegin, InPayload(|g.body.payload|)];
  }

  /** With no handler registered and the payload queued behind the Call, the stream
      reports Begin after its finalize, so that no End follows. */
  lemma BegunTooLate(y0: System, path: string, p: Payload) returns (y: System)
    requires y0.registered.Off? && y0.subscribed.On? && y0.dispatcher.None? && y0.mapped == Some(0) && y0.taken == 1
    requires y0.sent == [Call(path), Data(p)] && y0.incs == [Accept(NewInc(On, 0), Frame(0, Call(path)))]
    ensures Silently(y0, y) && y.sent == y0.sent
    ensures |y.incs| == 1 && y.incs[0].s.finalized.On? && y.incs[0].s.stats == [StatBegin, InPayload(|p|)]
  {
    SilentlyStays(y0);
    DispatchSilent(y0, y0);
    DispatchNext(y0, Data(p));
    var y1 := Dispatch(y0);
    TakesUnserved(y1.incs[0], y0.nid, Frame(0, Call(path)), Frame(1, Data(p)));
    SoloStep(y0, y1, WorkerTake(On));
    var y2 := ClosesUnbegun(y0, Step(y1, At(0, WorkerTake(On))), [Frame(1, Data(p))]);
    SoloStep(y0, y2, WorkerTake(On));
    TakesAfterClose(y2.incs[0], y0.nid, Frame(1, Data(p)));
    y := Step(y2, At(0, WorkerTake(On)));
  }

  // ---------------------------------------------------------------------
  // Removal by reply, not by stream
  // ---------------------------------------------------------------------

  // A stream was created for an End with an error status, its worker has finalized
  // it and unmapped the reply, and Stop, which found it in the map before, is about
  // to finalize it as well.
  ghost predicate GivenUp(y: System) {
    && |y.incs| == 1 && y.taken == 1 && y.mapped.None? && y.dispatcher.None?
    && y.subscribed.On? && y.serverLive.On? && y.registered.On?
    && y.stop == Finalizing(FinOnce(SERVER_STOPPING, Off), 0)
  }

  lemma GivenUpDuringStop(y0: System, why: Status) returns (y: System)
    requires why.code != CODE_OK && y0 == Init(On, y0.nid).(sent := [End(Some(why))])
    ensures Silently(y0, y) && GivenUp(y) && y.sent == y0.sent
  {
    SilentlyStays(y0);
    DispatchSilent(y0, y0);
    DispatchFresh(y0, End(Some(why)));
    var y1 := Dispatch(y0);
    SilentStep(y0, y1, StopBegin);
    var y2 := Step(y1, StopBegin);
    TakesErrorEnd(y1.incs[0], y0.nid, why);
    SoloStep(y0, y2, WorkerTake(On));
    var y3 := Step(y2, At(0, WorkerTake(On)));
    y := WorkerFinalizes(y0, y3);
  }

  lemma TakesErrorEnd(inc: Inc, nid: string, why: Status)
    requires why.code != CODE_OK && inc == Accept(NewInc(On, 0), Frame(0, End(Some(why))))
    ensures LocalStep(inc, On, nid, WorkerTake(On)).worker == FinOnce(Some(StatusError(why)), On)
    ensures LocalStep(inc, On, nid, WorkerTake(On)).out == inc.out
  {}

  lemma WorkerFinalizes(y0: System, y: System) returns (y': System)
    requires Solo(y0, y) && y.incs[0].worker.FinOnce?
    ensures Solo(y0, y') && y' == y.(incs := y'.incs, published := y'.published, mapped := None)
  {
    FinalizeStep(y0, y);
    var y1 := Step(y, At(0, WorkerStep(On)));
    FinalizeStep(y0, y1);
    var y2 := Step(y1, At(0, WorkerStep(On)));
    FinalizeStep(y0, y2);
    y' := Step(y2, At(0, WorkerStep(On)));
  }

  lemma FinalizeStep(y0: System, y: System)
    requires Solo(y0, y) && InFinalize(y.incs[0].worker)
    ensures var y' := Step(y, At(0, WorkerStep(On)));
            && Solo(y0, y')
            && y' == y.(incs := y'.incs, published := y'.published, mapped := y'.mapped)
            && (y.incs[0].worker.FinOnce? ==> y'.incs[0].worker.FinCancel?)
            && (y.incs[0].worker.FinCancel? ==> y'.incs[0].worker.FinRemove?)
            && (y.incs[0].worker.FinRemove? ==> y'.mapped.None?)
  {
    SoloStep(y0, y, WorkerStep(On));
  }

  // The second stream has taken the Call and is live, its handler has started, and
  // the reply has no entry.
  ghost predicate Unmapped(y: System, path: string) {
    && |y.incs| == 2 && y.taken == 2 && y.mapped.None? && y.dispatcher.None? && y.subscribed.On?
    && y.incs[1].first == 1 && y.incs[1].enq == y.incs[1].done == [Frame(1, Call(path))]
    && y.incs[1].s.live.On? && y.incs[1].handler.Idle?
  }

  // The Call that was already under way reaches a second stream, and then Stop's
  // finalize of the first stream deletes the entry of the second.
  lemma UnmappedByStop(y0: System, path: string) returns (y: System)
    requires GivenUp(y0) && |y0.sent| == 2 && y0.sent[1] == Call(path)
    ensures Silently(y0, y) && y.sent == y0.sent && Unmapped(y, path)
  {
    SilentlyStays(y0);
    DispatchSilent(y0, y0);
    DispatchFresh(y0, Call(path));
    var y1 := Dispatch(y0);
    SilentStep(y0, y1, At(1, WorkerTake(On)));
    var y2 := Step(y1, At(1, WorkerTake(On)));
    TakesCall(y1.incs[1], y0.nid, path);
    y := StopFinalizes(y0, y2);
  }

  lemma TakesCall(inc: Inc, nid: string, path: string)
    requires inc == Accept(NewInc(On, 1), Frame(1, Call(path)))
    ensures var inc' := LocalStep(inc, On, nid, WorkerTake(On));
            && inc'.first == 1 && inc'.enq == inc'.done == [Frame(1, Call(path))]
            && inc'.s.live.On? && inc'.handler.Idle? && inc'.out == inc.out
  {}

  lemma StopFinalizes(y0: System, y: System) returns (y': System)
    requires Silently(y0, y) && |y.incs| == 2 && y.stop == Finalizing(FinOnce(SERVER_STOPPING, Off), 0)
    ensures Silently(y0, y') && |y'.incs| == 2 && y'.incs[1] == y.incs[1]
    ensures y' == y.(incs := y'.incs, stop := y'.stop, mapped := None)
  {
    StopFinalizeStep(y0, y);
    var y1 := Step(y, StopStep);
    StopFinalizeStep(y0, y1);
    var y2 := Step(y1, StopStep);
    StopFinalizeStep(y0, y2);
    y' := Step(y2, StopStep);
  }

  lemma StopFinalizeStep(y0: System, y: System)
    requires Silently(y0, y) && |y.incs| == 2
    requires y.stop.Finalizing? && InFinalize(y.stop.thread) && y.stop.target == 0
    ensures var y' := Step(y, StopStep);
            && Silently(y0, y') && |y'.incs| == 2 && y'.incs[1] == y.incs[1]
            && y' == y.(incs := y'.incs, stop := y'.stop, mapped := y'.mapped)
            && (y.stop.thread.FinOnce? ==> y'.stop == Finalizing(FinCancel(Off), 0))
            && (y.stop.thread.FinCancel? ==> y'.stop == Finalizing(FinRemove(Off), 0))
            && (y.stop.thread.FinRemove? ==> y'.mapped.None?)
  {
    SilentStep(y0, y, StopStep);
  }

  // The next payload goes to a third stream.
  lemma PayloadDiverted(y0: System, path: string, p: Payload)
    requires Unmapped(y0, path) && |y0.sent| == 3 && y0.sent[2] == Data(p)
    ensures var y := Dispatch(y0);
            && Silently(y0, y) && |y.incs| == 3 && y.incs[1] == y0.incs[1] && y.sent == y0.sent
            && y.taken == 3 && y.dispatcher.None? && !NothingDiverted(y, 1)
  {
    SilentlyStays(y0);
    DispatchSilent(y0, y0);
    DispatchFresh(y0, Data(p));
    assert y0.sent[2].Data?;
  }
}
