// A whole stream that delivers: the client sends any payloads and half-closes, and in
// every schedule the handler that reads gets all of them.
module SessionProgress {
  import opened Wire
  import opened Sessions
  import opened SessionRuns
  import C = ClientStreams
  import SS = ServerStreams
  import S = ServerSystem
  import ST = ServerTheorems
  import P = ServerProgress
  import L = ServerLimits
  import SL = SessionLimits

  // What the client publishes for some payloads, before CloseSend.
  function Frames(path: string, ps: seq<Payload>): seq<Request> {
    if ps == [] then [Call(path)] else Frames(path, ps[..|ps| - 1]) + [Data(ps[|ps| - 1])]
  }

  lemma {:induction false} FramesCarry(path: string, ps: seq<Payload>)
    ensures HalfClosed(Frames(path, ps)).Off? && SentBeforeEnd(Frames(path, ps)) == ps
  {
    if ps == [] {
      HalfClosedAppend([], Call(path));
      assert [] + [Call(path)] == [Call(path)];
    } else {
      var front, last := ps[..|ps| - 1], ps[|ps| - 1];
      FramesCarry(path, front);
      HalfClosedAppend(Frames(path, front), Data(last));
      assert front + [last] == ps;
    }
  }

  lemma {:induction false} FramesHaveNoEnd(path: string, ps: seq<Payload>)
    ensures forall n :: 0 <= n < |Frames(path, ps)| ==> !Frames(path, ps)[n].End?
  {
    if ps != [] { FramesHaveNoEnd(path, ps[..|ps| - 1]); }
  }

  // The client is idle between calls of SendMsg on the stream it has begun.
  predicate Sending(c: C.Client, path: string) {
    c.path == path && c.sender.SenderIdle? && c.hasBegun.On? && c.closed.Off?
  }

  // SendMsg on a stream that has begun.
  lemma SendsNext(c: C.Client, path: string, p: Payload)
    requires Sending(c, path)
    ensures var c' := C.Step(C.Step(c, C.SendMsg(p)), C.SenderStep(On));
            Sending(c', path) && c'.out == c.out + [Data(p)]
    ensures C.Step(c, C.SendMsg(p)).out == c.out
  {}

  // The server's only stream has taken the Call, and its handler runs.
  ghost predicate Started(y: S.System, path: string) {
    && y.registered.On? && y.subscribed.On? && y.stop.NotStopping? && y.dispatcher.None?
    && y.taken == 1 && |y.incs| == 1 && y.mapped == Some(0)
    && y.incs[0].done == [SS.Frame(0, Call(path))] && y.incs[0].first == 0
    && y.incs[0].s.live.On? && y.incs[0].handler.Idle? && y.incs[0].worker.Idle?
  }

  lemma ServerStarts(y0: S.System, path: string) returns (y: S.System)
    requires y0 == S.Init(On, y0.nid).(sent := [Call(path)])
    ensures L.Silently(y0, y) && Started(y, path) && y.sent == y0.sent
  {
    L.SilentlyStays(y0);
    L.DispatchSilent(y0, y0);
    L.DispatchFresh(y0, Call(path));
    var y1 := L.Dispatch(y0);
    L.SilentStep(y0, y1, S.At(0, SS.WorkerTake(On)));
    y := S.Step(y1, S.At(0, SS.WorkerTake(On)));
  }

  lemma FirstPayload(path: string, nid: string, p: Payload) returns (s: Session)
    ensures Reached(s, path, On, nid) && Started(s.server, path) && Sending(s.client, path)
    ensures s.client.out == Frames(path, [p])
  {
    var s0 := Init(path, On, nid);
    InitReached(path, On, nid);
    ClientReached(s0, C.SendMsg(p), path, On, nid);
    var c1 := C.Step(s0.client, C.SendMsg(p));
    ClientReached(Session(c1, s0.server.(sent := c1.out)), C.SenderStep(On), path, On, nid);
    var c2 := C.Step(c1, C.SenderStep(On));
    assert c2.out == [Call(path)];
    var y := ServerStarts(s0.server.(sent := c2.out), path);
    ServerReached(Session(c2, s0.server.(sent := c2.out)), y, path, On, nid);
    ClientReached(Session(c2, y), C.SenderStep(On), path, On, nid);
    var c3 := C.Step(c2, C.SenderStep(On));
    s := Session(c3, y.(sent := c3.out));
    assert [p][..0] == [];
  }

  lemma {:induction false} AllPayloads(path: string, nid: string, ps: seq<Payload>) returns (s: Session)
    requires ps != []
    ensures Reached(s, path, On, nid) && Started(s.server, path) && Sending(s.client, path)
    ensures s.client.out == Frames(path, ps)
  {
    if |ps| == 1 {
      s := FirstPayload(path, nid, ps[0]);
      assert ps == [ps[0]];
    } else {
      var last := ps[|ps| - 1];
      s := AllPayloads(path, nid, ps[..|ps| - 1]);
      SendsNext(s.client, path, last);
      ClientReached(s, C.SendMsg(last), path, On, nid);
      var c1 := C.Step(s.client, C.SendMsg(last));
      ClientReached(Session(c1, s.server.(sent := c1.out)), C.SenderStep(On), path, On, nid);
      var c2 := C.Step(c1, C.SenderStep(On));
      s := Session(c2, s.server.(sent := c2.out));
    }
  }

  lemma StartedIsReading(y: S.System, path: string, frames: seq<Request>)
    requires S.Inv(y) && S.OneCall(y.sent) && Started(y, path) && y.sent == frames + [C.HALF_CLOSE]
    requires forall n :: 0 <= n < |frames| ==> !frames[n].End?
    ensures P.Reading(y, 0)
  {
    assert y.sent[0..] == y.sent;
    HalfClosedAppend(frames, C.HALF_CLOSE);
    assert SS.Bodies(y.incs[0].done)[0] == Call(path);
  }

  lemma ThenCloseSend(path: string, nid: string, ps: seq<Payload>) returns (s: Session)
    requires ps != []
    ensures Reached(s, path, On, nid) && s.client.out == Frames(path, ps) + [C.HALF_CLOSE]
    ensures Started(s.server, path) && s.server.sent == s.client.out
  {
    s := AllPayloads(path, nid, ps);
    ClientReached(s, C.CloseSend(On), path, On, nid);
    var c := C.Step(s.client, C.CloseSend(On));
    s := Session(c, s.server.(sent := c.out));
  }

  // CloseSend after some payloads, with nothing but the Call delivered.
  lemma ClosedAfter(path: string, nid: string, ps: seq<Payload>) returns (s: Session)
    requires ps != []
    ensures Reached(s, path, On, nid) && s.client.out == Frames(path, ps) + [C.HALF_CLOSE]
    ensures P.Reading(s.server, 0) && s.server.sent == s.client.out && s.server.incs[0].first == 0
  {
    s := ThenCloseSend(path, nid, ps);
    ReachedKeeps(s, path, On, nid);
    OneCallSent(s);
    FramesHaveNoEnd(path, ps);
    StartedIsReading(s.server, path, Frames(path, ps));
  }

  // What the client publishes for n calls of SendMsg and a CloseSend.
  function Published(path: string, ps: seq<Payload>): seq<Request> {
    (if ps == [] then [] else Frames(path, ps)) + [C.HALF_CLOSE]
  }

  // The handler runs, has io.EOF and all the payloads.
  ghost predicate Delivered(y: S.System, ps: seq<Payload>) {
    && |y.incs| > 0 && !y.incs[0].handler.NotStarted?
    && y.incs[0].sawEof.On? && y.incs[0].got == ps
  }

  // Every schedule of delivery steps that each change the state delivers, when no
  // such step changes it any more.
  ghost predicate Delivers(y: S.System, ps: seq<Payload>) {
    forall events :: P.Deliveries(events, 0) && P.Effective(y, events) && P.Exhausted(S.Run(y, events), 0) ==>
      Delivered(S.Run(y, events), ps)
  }

  ghost predicate Bounded(y: S.System)
    requires |y.incs| > 0 && y.taken <= |y.sent|
  {
    forall events :: P.Deliveries(events, 0) && P.Effective(y, events) ==> |events| <= P.Weight(y, 0) + 1
  }

  lemma SomeAreDelivered(path: string, nid: string, ps: seq<Payload>) returns (s: Session)
    requires ps != []
    ensures Reached(s, path, On, nid) && s.client.out == Published(path, ps)
    ensures |s.server.incs| == 1 && s.server.taken <= |s.server.sent|
    ensures Bounded(s.server) && Delivers(s.server, ps)
  {
    s := ClosedAfter(path, nid, ps);
    FramesCarry(path, ps);
    HalfClosedAppend(Frames(path, ps), C.HALF_CLOSE);
    assert s.server.sent[0..] == s.server.sent;
    var y := s.server;
    forall events | P.Deliveries(events, 0) && P.Effective(y, events)
      ensures |events| <= P.Weight(y, 0) + 1
      ensures P.Exhausted(S.Run(y, events), 0) ==> Delivered(S.Run(y, events), ps)
    {
      P.EveryScheduleDelivers(y, 0, events);
    }
  }

  // Where the half-close went, no delivery step does anything.
  lemma NothingToDeliver(y: S.System, e: S.Event)
    requires SL.ClosedUnstarted(y) && P.IsDelivery(e, 0)
    ensures S.Step(y, e) == y
  {
    match e
    case Lookup =>
    case Enqueue =>
    case At(_, local) =>
      P.NothingHappens(y, 0, local);
  }

  lemma NoneIsDelivered(path: string, nid: string) returns (s: Session)
    ensures Reached(s, path, On, nid) && s.client.out == Published(path, [])
    ensures |s.server.incs| == 1 && s.server.taken <= |s.server.sent|
    ensures Bounded(s.server) && !Delivers(s.server, [])
  {
    s := SL.CloseSendAlone(path, nid);
    var y := s.server;
    assert P.Exhausted(y, 0) by {
      forall e | P.IsDelivery(e, 0) ensures S.Step(y, e) == y { NothingToDeliver(y, e); }
    }
    forall events | P.Deliveries(events, 0) && P.Effective(y, events) ensures events == [] {
      if events != [] {
        NothingToDeliver(y, events[0]);
        FirstStepCounts(y, events);
      }
    }
    NotDelivered(y);
  }

  lemma FirstStepCounts(y: S.System, events: seq<S.Event>)
    requires events != []
    ensures P.Effective(y, events) ==> S.Step(y, events[0]) != y
  {
    assert events[..1][..0] == [] && events[..0] == [];
    assert S.Run(y, events[..0 + 1]) == S.Step(y, events[0]);
  }

  lemma NotDelivered(y: S.System)
    requires SL.ClosedUnstarted(y) && P.Exhausted(y, 0)
    ensures !Delivers(y, [])
  {
    assert P.Deliveries([], 0) && P.Effective(y, []) && S.Run(y, []) == y;
  }

  /** n calls of SendMsg and a CloseSend, for every n: a session from which every
      schedule of delivery steps that each change the server's state ends; and all of
      them end with io.EOF at a running handler that has received all n payloads in
      order, exactly when there is a payload. For n = 0 no handler ever runs. */
  lemma SentIsDelivered(path: string, nid: string, ps: seq<Payload>) returns (s: Session)
    ensures Reached(s, path, On, nid) && s.client.out == Published(path, ps)
    ensures |s.server.incs| == 1 && s.server.taken <= |s.server.sent|
    ensures Bounded(s.server)
    ensures Delivers(s.server, ps) <==> ps != []
  {
    if ps == [] { s := NoneIsDelivered(path, nid); } else { s := SomeAreDelivered(path, nid, ps); }
  }
}
