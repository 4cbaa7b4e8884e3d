// Whole streams that show where the promises of a session stop.
module SessionLimits {
  import opened Wire
  import opened Sessions
  import opened SessionRuns
  import C = ClientStreams
  import SS = ServerStreams
  import S = ServerSystem
  import ST = ServerTheorems
  import L = ServerLimits

  /** Begin without End: with no handler registered, a payload processed after the
      Unimplemented close makes the finalized stream report Begin, and no End
      follows. */
  lemma BeginWithoutEnd(path: string, nid: string, p: Payload) returns (s: Session)
    ensures Reached(s, path, Off, nid) && s.client.out == [Call(path), Data(p)]
    ensures var y := s.server;
            |y.incs| == 1 && y.incs[0].s.finalized.On? && y.incs[0].s.stats == [StatBegin, InPayload(|p|)]
  {
    var s0 := Init(path, Off, nid);
    InitReached(path, Off, nid);
    ClientReached(s0, C.SendMsg(p), path, Off, nid);
    var c1 := C.Step(s0.client, C.SendMsg(p));
    var s1 := Session(c1, s0.server.(sent := c1.out));
    ClientReached(s1, C.SenderStep(On), path, Off, nid);
    var c2 := C.Step(c1, C.SenderStep(On));
    assert c2.out == [Call(path)];
    var s2 := Session(c2, s1.server.(sent := c2.out));
    L.SilentlyStays(s2.server);
    L.DispatchSilent(s2.server, s2.server);
    L.DispatchFresh(s2.server, Call(path));
    ServerReached(s2, L.Dispatch(s2.server), path, Off, nid);
    var s3 := s2.(server := L.Dispatch(s2.server));
    ClientReached(s3, C.SenderStep(On), path, Off, nid);
    var c4 := C.Step(c2, C.SenderStep(On));
    assert c4.out == [Call(path), Data(p)];
    var s4 := Session(c4, s3.server.(sent := c4.out));
    var y := L.BegunTooLate(s4.server, path, p);
    ServerReached(s4, y, path, Off, nid);
    s := s4.(server := y);
  }

  // ---------------------------------------------------------------------
  // A stream that is closed with no message sent
  // ---------------------------------------------------------------------

  // The half-close of a caller that never sent: it has created a stream and closed
  // its receive side; no handler was started, and nothing is under way any more.
  ghost predicate ClosedUnstarted(y: S.System) {
    && y.sent == [C.HALF_CLOSE] && y.taken == 1 && y.dispatcher.None? && |y.incs| == 1 && y.mapped == Some(0)
    && y.incs[0].done == [SS.Frame(0, C.HALF_CLOSE)] && y.incs[0].s.inbox == [] && y.incs[0].s.recv == []
    && y.incs[0].s.recvOpen.Off? && y.incs[0].s.live.On?
    && y.incs[0].worker.Idle? && y.incs[0].handler.NotStarted? && y.incs[0].launches == 0
    && y.published == []
  }

  lemma TakesHalfClose(inc: SS.Inc, nid: string)
    requires inc == S.Accept(SS.NewInc(On, 0), SS.Frame(0, C.HALF_CLOSE))
    ensures var inc' := SS.LocalStep(inc, On, nid, SS.WorkerTake(On));
            && inc'.done == [SS.Frame(0, C.HALF_CLOSE)] && inc'.s.inbox == [] && inc'.s.recv == []
            && inc'.s.recvOpen.Off? && inc'.s.live.On? && inc'.worker.Idle? && inc'.handler.NotStarted?
            && inc'.launches == 0 && inc'.out == []
  {}

  /** CloseSend without a SendMsg, on a server that serves the method: the half-close
      goes out alone, the server makes a stream of it and closes its receive side, and
      no handler is started. */
  lemma CloseSendAlone(path: string, nid: string) returns (s: Session)
    ensures Reached(s, path, On, nid) && s.client.out == [C.HALF_CLOSE] && ClosedUnstarted(s.server)
  {
    var s0 := Init(path, On, nid);
    InitReached(path, On, nid);
    ClientReached(s0, C.CloseSend(On), path, On, nid);
    var c := C.Step(s0.client, C.CloseSend(On));
    assert c.out == [C.HALF_CLOSE];
    var y0 := s0.server.(sent := c.out);
    L.SilentlyStays(y0);
    L.DispatchSilent(y0, y0);
    L.DispatchFresh(y0, C.HALF_CLOSE);
    var y1 := L.Dispatch(y0);
    TakesHalfClose(y1.incs[0], nid);
    L.SilentStep(y0, y1, S.At(0, SS.WorkerTake(On)));
    var y2 := S.Step(y1, S.At(0, SS.WorkerTake(On)));
    ServerReached(Session(c, y0), y2, path, On, nid);
    s := Session(c, y2);
  }

  // ---------------------------------------------------------------------
  // A payload that nobody hands over
  // ---------------------------------------------------------------------

  // The client of a stream whose heartbeat has timed out while SendMsg was past its
  // check of `closed`: pongMonitor's End, the Call, the payload.
  lemma ClientTimesOut(path: string, p: Payload) returns (c: C.Client)
    ensures c == C.Step(C.Step(C.Step(C.Init(path), C.SendMsg(p)), C.MonitorTimeout), C.MonitorWrite(On))
    ensures c.out == [End(Some(C.HEARTBEAT_TIMEOUT.status))] && c.sender == C.WritingCall(p) && c.path == path
    ensures var c1 := C.Step(c, C.SenderStep(On));
            && c1.out == c.out + [Call(path)] && c1.sender == C.WritingData(p)
            && C.Step(c1, C.SenderStep(On)).out == c1.out + [Data(p)]
  {
    c := C.Step(C.Step(C.Step(C.Init(path), C.SendMsg(p)), C.MonitorTimeout), C.MonitorWrite(On));
  }

  /** Server.remove deletes by reply, whichever stream the entry now holds. A whole
      stream in which the heartbeat times out while SendMsg is on its way, pongMonitor's
      End overtakes the Call, and Stop's finalize of the stream that End created
      unmaps the live stream of the Call: the client's payload goes to a third stream
      and the running handler never sees it. */
  lemma DivertedPayload(path: string, nid: string, p: Payload) returns (s: Session)
    ensures Reached(s, path, On, nid)
    ensures s.client.out == [End(Some(C.HEARTBEAT_TIMEOUT.status)), Call(path), Data(p)] && Sent(s.client.out) == [p]
    ensures |s.server.incs| == 3 && s.server.taken <= |s.server.sent|
    ensures var inc := s.server.incs[1];
            && inc.s.live.On? && inc.handler.Idle? && HalfClosed(SS.Bodies(inc.done)).Off?
            && !ST.NothingDiverted(s.server, 1) && ST.Inside(inc) + ST.Outside(s.server) == []
  {
    var s3 := TimedOutDuringStop(path, nid, p);
    s := DivertedRun(s3, path, nid, p);
    OnePayload(path, p);
    ReachedKeeps(s, path, On, nid);
    NothingInside(s.server, path);
  }

  lemma DivertedRun(s0: Session, path: string, nid: string, p: Payload) returns (s: Session)
    requires Reached(s0, path, On, nid) && L.GivenUp(s0.server) && |s0.client.out| == 1
    requires var c1 := C.Step(s0.client, C.SenderStep(On));
             c1.out == s0.client.out + [Call(path)] && C.Step(c1, C.SenderStep(On)).out == c1.out + [Data(p)]
    ensures Reached(s, path, On, nid) && s.client.out == s0.client.out + [Call(path)] + [Data(p)]
    ensures |s.server.incs| == 3 && s.server.taken == 3 == |s.server.sent| && s.server.dispatcher.None?
    ensures var inc := s.server.incs[1];
            inc.s.live.On? && inc.handler.Idle? && inc.enq == inc.done == [SS.Frame(1, Call(path))]
    ensures !ST.NothingDiverted(s.server, 1)
  {
    ClientReached(s0, C.SenderStep(On), path, On, nid);
    var c1 := C.Step(s0.client, C.SenderStep(On));
    var y1 := L.UnmappedByStop(s0.server.(sent := c1.out), path);
    ServerReached(Session(c1, s0.server.(sent := c1.out)), y1, path, On, nid);
    ClientReached(Session(c1, y1), C.SenderStep(On), path, On, nid);
    var c2 := C.Step(c1, C.SenderStep(On));
    var y2 := y1.(sent := c2.out);
    L.PayloadDiverted(y2, path, p);
    ServerReached(Session(c2, y2), L.Dispatch(y2), path, On, nid);
    s := Session(c2, L.Dispatch(y2));
  }

  // The stream of the early End is finalized, and Stop is about to finalize it too.
  lemma TimedOutDuringStop(path: string, nid: string, p: Payload) returns (s: Session)
    ensures Reached(s, path, On, nid) && L.GivenUp(s.server) && s.server.sent == s.client.out
    ensures s.client == C.Step(C.Step(C.Step(C.Init(path), C.SendMsg(p)), C.MonitorTimeout), C.MonitorWrite(On))
    ensures s.client.out == [End(Some(C.HEARTBEAT_TIMEOUT.status))]
    ensures var c1 := C.Step(s.client, C.SenderStep(On));
            && c1.out == s.client.out + [Call(path)]
            && C.Step(c1, C.SenderStep(On)).out == c1.out + [Data(p)]
  {
    var s0 := Init(path, On, nid);
    InitReached(path, On, nid);
    ClientReached(s0, C.SendMsg(p), path, On, nid);
    var c1 := C.Step(s0.client, C.SendMsg(p));
    var s1 := Session(c1, s0.server.(sent := c1.out));
    ClientReached(s1, C.MonitorTimeout, path, On, nid);
    var c2 := C.Step(c1, C.MonitorTimeout);
    var s2 := Session(c2, s1.server.(sent := c2.out));
    ClientReached(s2, C.MonitorWrite(On), path, On, nid);
    var c3 := ClientTimesOut(path, p);
    var s3 := Session(c3, s2.server.(sent := c3.out));
    var y := L.GivenUpDuringStop(s3.server, C.HEARTBEAT_TIMEOUT.status);
    ServerReached(s3, y, path, On, nid);
    s := s3.(server := y);
  }

  lemma NothingInside(y: S.System, path: string)
    requires S.IncsInv(y) && |y.incs| == 3 && y.taken == |y.sent| && y.dispatcher.None?
    requires y.incs[1].enq == y.incs[1].done == [SS.Frame(1, Call(path))]
    ensures HalfClosed(SS.Bodies(y.incs[1].done)).Off?
    ensures ST.Inside(y.incs[1]) == [] && ST.Outside(y) == []
  {
    CallAlone(y.incs[1].done, path);
    ST.InsideIsAccepted(y, 1);
    assert y.sent[y.taken..] == [];
  }

  lemma CallAlone(done: seq<SS.Frame>, path: string)
    requires done == [SS.Frame(1, Call(path))]
    ensures HalfClosed(SS.Bodies(done)).Off? && Sent(SS.Bodies(done)) == []
  {
    assert SS.Bodies(done) == [] + [Call(path)];
    HalfClosedAppend([], Call(path));
    SentAppend([], Call(path));
  }

  lemma OnePayload(path: string, p: Payload)
    ensures Sent([End(Some(C.HEARTBEAT_TIMEOUT.status)), Call(path), Data(p)]) == [p]
  {
    var a, b, c := End(Some(C.HEARTBEAT_TIMEOUT.status)), Call(path), Data(p);
    SentAppend([], a);
    SentAppend([a], b);
    assert [a, b] == [a] + [b];
    SentAppend([a, b], c);
    assert [a, b, c] == [a, b] + [c];
  }
}
