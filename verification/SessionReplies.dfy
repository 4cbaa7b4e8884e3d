// A whole stream in which the handler answers: n calls of SendMsg and a nil return, and
// the client gets exactly the n payloads and io.EOF.
module SessionReplies {
  import opened Wire
  import opened Sessions
  import opened ServerAnswers
  import opened SessionAnswers
  import C = ClientStreams
  import SS = ServerStreams
  import S = ServerSystem
  import L = ServerLimits

  // A state that some run reaches in which the handler of the first stream did d.
  ghost predicate ReachedDoing(s: Session, path: string, nid: string, d: Deeds) {
    exists events: seq<Event> ::
      s == After(path, On, nid, events) && d == DeedsOf(path, On, nid, events, 0)
  }

  lemma InitDoing(path: string, nid: string)
    ensures ReachedDoing(Init(path, On, nid), path, nid, NOTHING_DONE)
  {
    assert Init(path, On, nid) == After(path, On, nid, []);
    assert NOTHING_DONE == DeedsOf(path, On, nid, [], 0);
  }

  lemma StepDoing(s: Session, e: Event, path: string, nid: string, d: Deeds)
    requires ReachedDoing(s, path, nid, d)
    ensures ReachedDoing(Step(s, e), path, nid, DidNext(d, s, e, 0))
  {
    var events: seq<Event> :| s == After(path, On, nid, events) && d == DeedsOf(path, On, nid, events, 0);
    assert (events + [e])[..|events|] == events;
    assert Step(s, e) == After(path, On, nid, events + [e]);
    assert DidNext(d, s, e, 0) == DeedsOf(path, On, nid, events + [e], 0);
  }

  // ---------------------------------------------------------------------
  // The server's side
  // ---------------------------------------------------------------------

  // The only stream's handler runs, and every publication has succeeded.
  ghost predicate Serving(y: S.System) {
    && |y.incs| == 1 && y.incs[0].handler.Idle? && y.incs[0].s.live.On? && y.incs[0].failed.Off?
  }

  // What a call of SendMsg publishes.
  function Replies(inc: SS.Inc, nid: string, q: Payload): seq<Response> { FirstBegin(inc, nid) + [Reply(q)] }

  // The Begin that is still due.
  function FirstBegin(inc: SS.Inc, nid: string): seq<Response> {
    if inc.s.hasBegun.Off? then [Begin(MakeMetadata(inc.s.header), nid)] else []
  }

  lemma Joined<T>(a: seq<T>, b: seq<T>, c: seq<T>)
    ensures ((a + []) + b) + c == a + (b + c)
  {}

  // A local step of the only stream, in the system.
  lemma SoloStep(y: S.System, e: SS.Local)
    requires |y.incs| == 1 && y.registered.On?
    ensures var y', inc' := S.Step(y, S.At(0, e)), SS.LocalStep(y.incs[0], On, y.nid, e);
            && y'.incs == [inc'] && y'.registered.On? && y'.nid == y.nid && y'.sent == y.sent
            && (|inc'.out| == |y.incs[0].out| ==> y'.published == y.published)
            && (|inc'.out| > |y.incs[0].out| ==> y'.published == y.published + [inc'.out[|y.incs[0].out|]])
  {}

  // SendMsg, one step at a time.
  lemma Begins(inc: SS.Inc, nid: string, q: Payload)
    requires inc.handler.Idle? && inc.failed.Off? && inc.s.live.On?
    ensures var inc1 := SS.LocalStep(inc, On, nid, SS.CallSendMsg(q));
            var inc2 := SS.LocalStep(inc1, On, nid, SS.HandlerStep(On));
            var inc3 := SS.LocalStep(inc2, On, nid, SS.HandlerStep(On));
            && inc1.out == inc.out + [] && inc1.handler == SS.WriteBegin(q, Off) && inc1.s == inc.s
            && inc2.handler == SS.WriteData(q, Off)
            && inc2.out == inc1.out + FirstBegin(inc, nid)
            && inc3.out == inc2.out + [Reply(q)]
            && inc3.handler.Idle? && inc3.failed.Off? && inc3.s.live.On? && inc3.s.hasBegun.On?
  {}

  // ---------------------------------------------------------------------
  // The client's side
  // ---------------------------------------------------------------------

  // The client has handled everything that arrived, and waits.
  ghost predicate Listening(c: C.Client, got: seq<Payload>) {
    && c.subscribed.On? && c.msgCh == [] && c.reader.Reading? && c.recv == [] && c.recvOpen.On?
    && c.got == got
  }

  lemma HearsBegin(c: C.Client, got: seq<Payload>, r: Response)
    requires Listening(c, got) && r.Begin?
    ensures var c1 := C.Step(c, C.Arrive(r));
            var c2 := C.Step(c1, C.ReaderTake);
            Listening(c2, got) && c1.arrived == c.arrived + [r] && c2.arrived == c1.arrived
  {}

  lemma HearsReply(c: C.Client, got: seq<Payload>, q: Payload)
    requires Listening(c, got)
    ensures var c1 := C.Step(c, C.Arrive(Reply(q)));
            var c2 := C.Step(c1, C.ReaderTake);
            var c3 := C.Step(c2, C.ReaderDeliver);
            var c4 := C.Step(c3, C.RecvMsg);
            && Listening(c4, got + [q]) && c1.arrived == c.arrived + [Reply(q)]
            && c4.arrived == c3.arrived == c2.arrived == c1.arrived
  {}

  lemma HearsEnd(c: C.Client, got: seq<Payload>, r: Response)
    requires Listening(c, got) && r.Finish? && IsOk(r.status)
    ensures var c1 := C.Step(c, C.Arrive(r));
            var c2 := C.Step(c1, C.ReaderTake);
            var c3 := C.Step(c2, C.RecvEof);
            c3.got == got && c3.sawEof.On?
  {}

  // ---------------------------------------------------------------------
  // Together
  // ---------------------------------------------------------------------

  // Both sides idle, everything delivered; the handler has sent what the client got.
  ghost predicate InStep(s: Session, path: string, nid: string, qs: seq<Payload>) {
    && ReachedDoing(s, path, nid, Deeds(qs, None, Off, Off))
    && Serving(s.server) && s.server.registered.On? && s.server.nid == nid
    && Listening(s.client, qs) && s.client.arrived == s.server.published
  }

  // The next response reaches the client.
  lemma Delivers(s: Session, path: string, nid: string, d: Deeds)
    requires ReachedDoing(s, path, nid, d)
    requires |s.client.arrived| < |s.server.published|
    ensures var c := C.Step(s.client, C.Arrive(s.server.published[|s.client.arrived|]));
            ReachedDoing(Session(c, s.server), path, nid, d)
  {
    StepDoing(s, Deliver, path, nid, d);
  }

  // A client step that publishes nothing.
  lemma Listens(s: Session, ce: C.Event, path: string, nid: string, d: Deeds)
    requires ReachedDoing(s, path, nid, d) && s.server.sent == s.client.out
    requires ce.ReaderTake? || ce.ReaderDeliver? || ce.RecvMsg? || ce.RecvEof?
    ensures ReachedDoing(Session(C.Step(s.client, ce), s.server), path, nid, d)
    ensures C.Step(s.client, ce).out == s.client.out
  {
    QuietOut(s.client, ce);
    StepDoing(s, AtClient(ce), path, nid, d);
    assert s.server.(sent := s.client.out) == s.server;
  }

  lemma SentIsOut(s: Session, path: string, nid: string, d: Deeds)
    requires ReachedDoing(s, path, nid, d)
    ensures s.server.sent == s.client.out
  {
    var events: seq<Event> :| s == After(path, On, nid, events) && d == DeedsOf(path, On, nid, events, 0);
    AfterKeeps(path, On, nid, events);
  }

  // A local step of the only stream, in the session.
  lemma Acts(s: Session, y: S.System, inc: SS.Inc, e: SS.Local, says: seq<Response>,
             path: string, nid: string, d: Deeds)
    returns (y': S.System, inc': SS.Inc)
    requires ReachedDoing(s.(server := y), path, nid, d) && y.incs == [inc] && y.registered.On? && y.nid == nid
    requires |says| <= 1 && SS.LocalStep(inc, On, nid, e).out == inc.out + says
    ensures ReachedDoing(s.(server := y'), path, nid, Did(d, inc, e))
    ensures inc' == SS.LocalStep(inc, On, nid, e) && y'.incs == [inc'] && y'.registered.On? && y'.nid == nid
    ensures y'.published == y.published + says
  {
    StepDoing(s.(server := y), AtServer(S.At(0, e)), path, nid, d);
    SoloStep(y, e);
    y', inc' := S.Step(y, S.At(0, e)), SS.LocalStep(inc, On, nid, e);
    assert y.published + [] == y.published;
  }

  // The handler's SendMsg, up to the wire.
  lemma Sends(s: Session, path: string, nid: string, qs: seq<Payload>, q: Payload) returns (y: S.System)
    requires InStep(s, path, nid, qs)
    ensures ReachedDoing(s.(server := y), path, nid, Deeds(qs + [q], None, Off, Off))
    ensures Serving(y) && y.registered.On? && y.nid == nid
    ensures y.published == s.server.published + Replies(s.server.incs[0], nid, q)
  {
    var inc := s.server.incs[0];
    assert s.(server := s.server) == s;
    y := SendsIn(s, s.server, inc, path, nid, qs, q);
  }

  lemma SendsIn(s: Session, y0: S.System, inc: SS.Inc, path: string, nid: string, qs: seq<Payload>, q: Payload)
    returns (y: S.System)
    requires ReachedDoing(s.(server := y0), path, nid, Deeds(qs, None, Off, Off))
    requires y0.incs == [inc] && y0.registered.On? && y0.nid == nid
    requires inc.handler.Idle? && inc.failed.Off? && inc.s.live.On?
    ensures ReachedDoing(s.(server := y), path, nid, Deeds(qs + [q], None, Off, Off))
    ensures Serving(y) && y.registered.On? && y.nid == nid && y.published == y0.published + Replies(inc, nid, q)
  {
    Begins(inc, nid, q);
    var d, begin := Deeds(qs + [q], None, Off, Off), FirstBegin(inc, nid);
    var y1, inc1 := Acts(s, y0, inc, SS.CallSendMsg(q), [], path, nid, Deeds(qs, None, Off, Off));
    var y2, inc2 := Acts(s, y1, inc1, SS.HandlerStep(On), begin, path, nid, d);
    var y3, inc3 := Acts(s, y2, inc2, SS.HandlerStep(On), [Reply(q)], path, nid, d);
    y := y3;
    Joined(y0.published, begin, [Reply(q)]);
  }

  // The client takes a Begin ...
  lemma GetsBegin(s: Session, path: string, nid: string, d: Deeds, got: seq<Payload>) returns (c: C.Client)
    requires ReachedDoing(s, path, nid, d) && Listening(s.client, got)
    requires s.client.arrived < s.server.published && s.server.published[|s.client.arrived|].Begin?
    ensures ReachedDoing(Session(c, s.server), path, nid, d) && Listening(c, got)
    ensures c.arrived == s.client.arrived + [s.server.published[|s.client.arrived|]]
  {
    var r := s.server.published[|s.client.arrived|];
    HearsBegin(s.client, got, r);
    Delivers(s, path, nid, d);
    var c1 := C.Step(s.client, C.Arrive(r));
    SentIsOut(Session(c1, s.server), path, nid, d);
    Listens(Session(c1, s.server), C.ReaderTake, path, nid, d);
    c := C.Step(c1, C.ReaderTake);
  }

  // ... and a payload.
  lemma GetsReply(s: Session, path: string, nid: string, d: Deeds, got: seq<Payload>, q: Payload) returns (c: C.Client)
    requires ReachedDoing(s, path, nid, d) && Listening(s.client, got)
    requires s.client.arrived < s.server.published && s.server.published[|s.client.arrived|] == Reply(q)
    ensures ReachedDoing(Session(c, s.server), path, nid, d) && Listening(c, got + [q])
    ensures c.arrived == s.client.arrived + [Reply(q)]
  {
    HearsReply(s.client, got, q);
    Delivers(s, path, nid, d);
    var c1 := C.Step(s.client, C.Arrive(Reply(q)));
    SentIsOut(Session(c1, s.server), path, nid, d);
    Listens(Session(c1, s.server), C.ReaderTake, path, nid, d);
    var c2 := C.Step(c1, C.ReaderTake);
    Listens(Session(c2, s.server), C.ReaderDeliver, path, nid, d);
    var c3 := C.Step(c2, C.ReaderDeliver);
    Listens(Session(c3, s.server), C.RecvMsg, path, nid, d);
    c := C.Step(c3, C.RecvMsg);
  }

  lemma OneMore(s: Session, path: string, nid: string, qs: seq<Payload>, q: Payload) returns (s': Session)
    requires InStep(s, path, nid, qs)
    ensures InStep(s', path, nid, qs + [q])
  {
    var y := Sends(s, path, nid, qs, q);
    var d := Deeds(qs + [q], None, Off, Off);
    var c := s.client;
    if s.server.incs[0].s.hasBegun.Off? {
      c := GetsBegin(Session(c, y), path, nid, d, qs);
    }
    c := GetsReply(Session(c, y), path, nid, d, qs, q);
    s' := Session(c, y);
  }

  lemma {:induction false} AllSent(path: string, nid: string, p: Payload, qs: seq<Payload>) returns (s: Session)
    ensures InStep(s, path, nid, qs)
  {
    if qs == [] {
      s := Opened(path, nid, p);
    } else {
      s := AllSent(path, nid, p, qs[..|qs| - 1]);
      s := OneMore(s, path, nid, qs[..|qs| - 1], qs[|qs| - 1]);
      assert qs[..|qs| - 1] + [qs[|qs| - 1]] == qs;
    }
  }

  // The client has sent the Call, and the handler runs.
  lemma Opened(path: string, nid: string, p: Payload) returns (s: Session)
    ensures InStep(s, path, nid, [])
  {
    var s2 := CallSent(path, nid, p);
    var y2 := s2.server;
    StepDoing(s2, AtServer(S.Lookup), path, nid, NOTHING_DONE);
    StepDoing(s2.(server := S.Step(y2, S.Lookup)), AtServer(S.Enqueue), path, nid, NOTHING_DONE);
    L.DispatchFresh(y2, Call(path));
    var y4 := L.Dispatch(y2);
    TakesCall(y4, path);
    StepDoing(s2.(server := y4), AtServer(S.At(0, SS.WorkerTake(On))), path, nid, NOTHING_DONE);
    s := s2.(server := S.Step(y4, S.At(0, SS.WorkerTake(On))));
  }

  lemma ClientCalls(path: string, p: Payload)
    ensures var c1 := C.Step(C.Init(path), C.SendMsg(p));
            var c2 := C.Step(c1, C.SenderStep(On));
            && c1.out == [] && c2.out == [Call(path)] && Listening(c2, []) && c2.arrived == []
  {}

  lemma CallSent(path: string, nid: string, p: Payload) returns (s: Session)
    ensures ReachedDoing(s, path, nid, NOTHING_DONE) && Listening(s.client, []) && s.client.arrived == []
    ensures s.server == S.Init(On, nid).(sent := [Call(path)])
  {
    ClientCalls(path, p);
    var c1 := C.Step(C.Init(path), C.SendMsg(p));
    var c2 := C.Step(c1, C.SenderStep(On));
    InitDoing(path, nid);
    StepDoing(Init(path, On, nid), AtClient(C.SendMsg(p)), path, nid, NOTHING_DONE);
    StepDoing(Session(c1, S.Init(On, nid).(sent := c1.out)), AtClient(C.SenderStep(On)), path, nid, NOTHING_DONE);
    s := Session(c2, S.Init(On, nid).(sent := c2.out));
  }

  lemma TakesCall(y: S.System, path: string)
    requires y.registered.On? && y.incs == [S.Accept(SS.NewInc(On, 0), SS.Frame(0, Call(path)))] && y.published == []
    ensures var y' := S.Step(y, S.At(0, SS.WorkerTake(On)));
            Serving(y') && y'.registered.On? && y'.nid == y.nid && y'.published == []
  {}

  // The handler returns nil, up to the End on the wire.
  lemma Returns(s: Session, path: string, nid: string, qs: seq<Payload>) returns (y: S.System, r: Response)
    requires InStep(s, path, nid, qs)
    ensures ReachedDoing(s.(server := y), path, nid, Deeds(qs, Some(None), Off, On))
    ensures r.Finish? && IsOk(r.status)
    ensures y.published == s.server.published + (FirstBegin(s.server.incs[0], nid) + [r])
  {
    assert s.(server := s.server) == s;
    y, r := ReturnsIn(s, s.server, s.server.incs[0], path, nid, qs);
  }

  lemma ReturnsIn(s: Session, y0: S.System, inc: SS.Inc, path: string, nid: string, qs: seq<Payload>)
    returns (y: S.System, r: Response)
    requires ReachedDoing(s.(server := y0), path, nid, Deeds(qs, None, Off, Off))
    requires y0.incs == [inc] && y0.registered.On? && y0.nid == nid
    requires inc.handler.Idle? && inc.failed.Off? && inc.s.live.On?
    ensures ReachedDoing(s.(server := y), path, nid, Deeds(qs, Some(None), Off, On))
    ensures r.Finish? && IsOk(r.status)
    ensures y.published == y0.published + (FirstBegin(inc, nid) + [r])
  {
    Ends(inc, nid);
    var d, begin := Deeds(qs, Some(None), Off, On), FirstBegin(inc, nid);
    var y1, inc1 := Acts(s, y0, inc, SS.HandlerReturn(None), [], path, nid, Deeds(qs, None, Off, Off));
    var y2, inc2 := Acts(s, y1, inc1, SS.HandlerStep(On), begin, path, nid, d);
    r := SS.FinishFrame(inc2.s, None);
    var y3, inc3 := Acts(s, y2, inc2, SS.HandlerStep(On), [r], path, nid, d);
    y := y3;
    Joined(y0.published, begin, [r]);
  }

  lemma Ends(inc: SS.Inc, nid: string)
    requires inc.handler.Idle? && inc.failed.Off? && inc.s.live.On?
    ensures var inc1 := SS.LocalStep(inc, On, nid, SS.HandlerReturn(None));
            var inc2 := SS.LocalStep(inc1, On, nid, SS.HandlerStep(On));
            var inc3 := SS.LocalStep(inc2, On, nid, SS.HandlerStep(On));
            && inc1.out == inc.out + [] && inc1.handler == SS.CloseBegin(None, Off) && inc1.s == inc.s
            && inc2.handler == SS.CloseEnd(None, Off)
            && inc2.out == inc1.out + FirstBegin(inc, nid)
            && inc3.out == inc2.out + [SS.FinishFrame(inc2.s, None)]
  {}

  // The client takes the End and then sees io.EOF.
  lemma GetsEof(s: Session, path: string, nid: string, d: Deeds, got: seq<Payload>) returns (c: C.Client)
    requires ReachedDoing(s, path, nid, d) && Listening(s.client, got)
    requires s.client.arrived < s.server.published
    requires var r := s.server.published[|s.client.arrived|]; r.Finish? && IsOk(r.status)
    ensures ReachedDoing(Session(c, s.server), path, nid, d) && c.got == got && c.sawEof.On?
  {
    var r := s.server.published[|s.client.arrived|];
    HearsEnd(s.client, got, r);
    Delivers(s, path, nid, d);
    var c1 := C.Step(s.client, C.Arrive(r));
    SentIsOut(Session(c1, s.server), path, nid, d);
    Listens(Session(c1, s.server), C.ReaderTake, path, nid, d);
    var c2 := C.Step(c1, C.ReaderTake);
    Listens(Session(c2, s.server), C.RecvEof, path, nid, d);
    c := C.Step(c2, C.RecvEof);
  }

  /** For any payloads, none included: a session in which the handler gives them to
      SendMsg and returns nil, and RecvMsg returns exactly them and then io.EOF. */
  lemma GivenIsReceived(path: string, nid: string, p: Payload, qs: seq<Payload>) returns (s: Session)
    ensures ReachedDoing(s, path, nid, Deeds(qs, Some(None), Off, On))
    ensures s.client.got == qs && s.client.sawEof.On?
  {
    s := AllSent(path, nid, p, qs);
    var y, r := Returns(s, path, nid, qs);
    var d, c := Deeds(qs, Some(None), Off, On), s.client;
    if s.server.incs[0].s.hasBegun.Off? {
      c := GetsBegin(Session(c, y), path, nid, d, qs);
    }
    c := GetsEof(Session(c, y), path, nid, d, qs);
    s := Session(c, y);
  }
}
