// A whole stream: the client of ClientStreams and the server of ServerSystem,
// joined by two NATS subjects that deliver in order what is published on them.
module Sessions {
  import opened Wire
  import C = ClientStreams
  import CT = ClientTheorems
  import SS = ServerStreams
  import S = ServerSystem
  import ST = ServerTheorems
  import M = ServerMapping

  datatype Session = Session(client: C.Client, server: S.System)

  function Init(path: string, registered: Flag, nid: string): Session {
    Session(C.Init(path), S.Init(registered, nid))
  }

  // A step of the client, a step of the server, or the delivery of the oldest
  // undelivered response. What the client publishes is what the server is sent.
  datatype Event =
    | AtClient(clientEvent: C.Event)
    | AtServer(serverEvent: S.Event)
    | Deliver

  function Step(s: Session, e: Event): Session {
    match e
    case AtClient(ce) =>
      if ce.Arrive? then s
      else var client := C.Step(s.client, ce); Session(client, s.server.(sent := client.out))
    case AtServer(se) => if se.Send? then s else s.(server := S.Step(s.server, se))
    case Deliver =>
      if |s.client.arrived| < |s.server.published| then
        s.(client := C.Step(s.client, C.Arrive(s.server.published[|s.client.arrived|])))
      else s
  }

  function Run(s: Session, events: seq<Event>): Session {
    if events == [] then s else Step(Run(s, events[..|events| - 1]), events[|events| - 1])
  }

  function After(path: string, registered: Flag, nid: string, events: seq<Event>): Session {
    Run(Init(path, registered, nid), events)
  }

  // ---------------------------------------------------------------------
  // The two sides fit together
  // ---------------------------------------------------------------------

  ghost predicate Inv(s: Session) {
    && C.Inv(s.client) && S.Inv(s.server)
    && s.server.sent == s.client.out
    && s.client.arrived <= s.server.published
  }

  // A client step publishes at most one request, and only Arrive adds arrivals.
  lemma ClientPublishes(c: C.Client, e: C.Event)
    ensures var c' := C.Step(c, e);
            && (c'.out == c.out || (|c'.out| == |c.out| + 1 && c'.out == c.out + [c'.out[|c.out|]]))
            && (!e.Arrive? ==> c'.arrived == c.arrived)
            && (e.Arrive? ==> c'.out == c.out && (c'.arrived == c.arrived || c'.arrived == c.arrived + [e.response]))
  {
    match e
    case ReaderTake =>
      if c.msgCh != [] {
        match c.msgCh[0]
        case Reply(_) =>
        case Finish(_, _) =>
        case _ =>
      }
    case CallDone(t) => DoneKeepsWire(c, t);
    case DoneStep => if c.winner.Some? { DoneKeepsWire(c.(mapped := Off, stage := C.DONE_REMOVED), c.winner.value); }
    case SenderStep(ok) => if c.sender.WritingCall? {} else if c.sender.WritingData? {}
    case _ =>
  }

  lemma DoneKeepsWire(c: C.Client, t: C.Caller)
    ensures C.LeaveDone(c, t).out == c.out && C.LeaveDone(c, t).arrived == c.arrived
  {
    match t
    case TheReader =>
    case _ =>
  }

  lemma OneCallSent(s: Session)
    requires Inv(s)
    ensures S.OneCall(s.server.sent)
  {}

  lemma ClientStepKeeps(s: Session, ce: C.Event)
    requires Inv(s) && !ce.Arrive?
    ensures Inv(Step(s, AtClient(ce)))
  {
    C.StepKeeps(s.client, ce);
    ClientPublishes(s.client, ce);
    OneCallSent(s);
    var out' := C.Step(s.client, ce).out;
    if out' == s.client.out {
      assert s.server.(sent := out') == s.server;
    } else {
      var r := out'[|s.client.out|];
      assert s.server.(sent := out') == S.Step(s.server, S.Send(r));
      S.StepKeeps(s.server, S.Send(r));
    }
  }

  lemma ServerStepKeeps(s: Session, se: S.Event)
    requires Inv(s) && !se.Send?
    ensures Inv(Step(s, AtServer(se)))
  {
    OneCallSent(s);
    S.StepKeeps(s.server, se);
    ServerPublishes(s.server, se);
  }

  // A server step other than Send leaves `sent` alone and only adds to the inbox.
  lemma ServerPublishes(y: S.System, e: S.Event)
    requires !e.Send?
    ensures S.Step(y, e).sent == y.sent && y.published <= S.Step(y, e).published
  {
    match e
    case StopStep =>
    case _ =>
  }

  lemma DeliverKeeps(s: Session)
    requires Inv(s)
    ensures Inv(Step(s, Deliver))
  {
    if |s.client.arrived| < |s.server.published| {
      var r := s.server.published[|s.client.arrived|];
      C.StepKeeps(s.client, C.Arrive(r));
      ClientPublishes(s.client, C.Arrive(r));
      PrefixGrows(s.client.arrived, s.server.published);
    }
  }

  lemma PrefixGrows<T>(a: seq<T>, b: seq<T>)
    requires a <= b && |a| < |b|
    ensures a + [b[|a|]] <= b
  {}

  lemma {:induction false} AfterKeeps(path: string, registered: Flag, nid: string, events: seq<Event>)
    ensures Inv(After(path, registered, nid, events))
  {
    if events == [] {
      C.InitInv(path);
      S.InitInv(registered, nid);
    } else {
      var front, last := events[..|events| - 1], events[|events| - 1];
      AfterKeeps(path, registered, nid, front);
      var s := After(path, registered, nid, front);
      match last
      case AtClient(ce) => if !ce.Arrive? { ClientStepKeeps(s, ce); }
      case AtServer(se) => if !se.Send? { ServerStepKeeps(s, se); }
      case Deliver => DeliverKeeps(s);
    }
  }

  // ---------------------------------------------------------------------
  // End to end
  // ---------------------------------------------------------------------

  /** Client to handler, in every run: each stream the reply inbox ever had hands
      its handler a subsequence of the payloads the client published; and if the
      handler of a live stream has seen io.EOF, it got exactly the payloads
      published, from the frame that created the stream, before CloseSend. These are
      all payloads before CloseSend exactly unless an earlier CloseSend, before the
      first SendMsg, went to an older stream and payloads followed it. */
  lemma ClientToHandler(path: string, registered: Flag, nid: string, events: seq<Event>, i: nat)
    requires i < |After(path, registered, nid, events).server.incs|
    ensures var s := After(path, registered, nid, events);
            var inc, sent := s.server.incs[i], s.client.out;
            && Subsequence(inc.got, Sent(sent))
            && (!inc.handler.NotStarted? && inc.s.live.On? && inc.sawEof.On? ==>
                  && inc.first <= |sent| && inc.got == SentBeforeEnd(sent[inc.first..])
                  && (inc.got == SentBeforeEnd(sent) <==>
                        HalfClosed(sent[..inc.first]).Off? || SentBeforeEnd(sent[inc.first..]) == []))
  {
    var s := After(path, registered, nid, events);
    AfterKeeps(path, registered, nid, events);
    ST.NothingInvented(s.server, i);
    var inc := s.server.incs[i];
    StartedHasCall(s, i);
    if !inc.handler.NotStarted? && inc.s.live.On? && inc.sawEof.On? {
      ST.EofMeansEverything(s.server, i);
      ST.EofSinceTheCallExactly(s.server, i);
    }
  }

  lemma StartedHasCall(s: Session, i: nat)
    requires Inv(s) && i < |s.server.incs|
    ensures !s.server.incs[i].handler.NotStarted? ==> SS.HasCall(s.server.incs[i])
    ensures ST.DataFollowsCall(s.server.sent) && s.server.sent == s.client.out
  {
    assert SS.IncInv(s.server.incs[i], s.server.registered);
  }

  // The contract of grpc.ClientStream: no SendMsg once CloseSend was called.
  ghost predicate NoSendAfterClose(events: seq<Event>) {
    forall j, k :: 0 <= j < k < |events| && IsCloseSend(events[j]) ==> !IsSendMsg(events[k])
  }

  predicate IsCloseSend(e: Event) { e.AtClient? && e.clientEvent.CloseSend? }

  predicate IsSendMsg(e: Event) { e.AtClient? && e.clientEvent.SendMsg? }

  // Every payload was published before the first half-close, and a half-closed
  // client is not inside SendMsg.
  ghost predicate ClosedLast(c: C.Client) {
    && (HalfClosed(c.out).On? ==> c.sender.SenderIdle?)
    && SentBeforeEnd(c.out) == Sent(c.out)
  }

  lemma ClosedLastKept(c: C.Client, e: C.Event)
    requires ClosedLast(c) && (HalfClosed(c.out).On? ==> !e.SendMsg?)
    ensures ClosedLast(C.Step(c, e))
    ensures e.CloseSend? || HalfClosed(C.Step(c, e).out) == HalfClosed(c.out)
  {
    if e.SendMsg? || e.SenderStep? || e.CloseSend? || e.PingWrite? || e.MonitorWrite? {
      PublisherKeepsClosedLast(c, e);
    } else {
      QuietOut(c, e);
    }
  }

  lemma PublisherKeepsClosedLast(c: C.Client, e: C.Event)
    requires ClosedLast(c) && (HalfClosed(c.out).On? ==> !e.SendMsg?)
    requires e.SendMsg? || e.SenderStep? || e.CloseSend? || e.PingWrite? || e.MonitorWrite?
    ensures ClosedLast(C.Step(c, e))
    ensures e.CloseSend? || HalfClosed(C.Step(c, e).out) == HalfClosed(c.out)
  {
    WhatIsPublished(c, e);
    var out' := C.Step(c, e).out;
    if out' != c.out { ClosedLastAppend(c.out, out'[|c.out|]); }
  }

  // One more request, and no payload after a half-close.
  lemma ClosedLastAppend(out: seq<Request>, r: Request)
    requires SentBeforeEnd(out) == Sent(out) && (r.Data? ==> HalfClosed(out).Off?)
    ensures SentBeforeEnd(out + [r]) == Sent(out + [r])
    ensures HalfClosed(out + [r]) == if r.End? && IsOk(r.status) then On else HalfClosed(out)
  {
    HalfClosedAppend(out, r);
    SentAppend(out, r);
  }

  // A payload goes out of SendMsg only, a half-close out of CloseSend only.
  lemma WhatIsPublished(c: C.Client, e: C.Event)
    requires e.SendMsg? || e.SenderStep? || e.CloseSend? || e.PingWrite? || e.MonitorWrite?
    ensures var c' := C.Step(c, e);
            && (c'.out == c.out || (|c'.out| == |c.out| + 1 && c'.out == c.out + [c'.out[|c.out|]]
                  && (c'.out[|c.out|].Data? ==> !c.sender.SenderIdle?)
                  && (c'.out[|c.out|].End? && IsOk(c'.out[|c.out|].status) ==> e.CloseSend? && c'.sender.SenderIdle?)))
            && (c.sender.SenderIdle? && !e.SendMsg? ==> c'.sender.SenderIdle?)
  {
    match e
    case SenderStep(ok) => if c.sender.WritingCall? {} else if c.sender.WritingData? {}
    case _ =>
  }

  lemma DoneKeepsSender(c: C.Client, t: C.Caller)
    ensures var c' := C.LeaveDone(c, t); c'.out == c.out && c'.sender == c.sender
    ensures MonitorAlive(C.LeaveDone(c, t)) ==> MonitorAlive(c)
  {
    match t
    case TheReader =>
    case _ =>
  }

  // pongMonitor may still publish its End.
  predicate MonitorAlive(c: C.Client) { c.monitor.Waiting? || c.monitor.WritingEnd? }

  // The steps that do not publish leave the sender alone too.
  lemma QuietOut(c: C.Client, e: C.Event)
    requires !e.SendMsg? && !e.SenderStep? && !e.CloseSend? && !e.PingWrite? && !e.MonitorWrite?
    ensures C.Step(c, e).out == c.out && C.Step(c, e).sender == c.sender
    ensures MonitorAlive(C.Step(c, e)) ==> MonitorAlive(c)
  {
    match e
    case ReaderTake =>
      if c.msgCh != [] {
        match c.msgCh[0]
        case Reply(_) =>
        case Finish(_, _) =>
        case _ =>
      }
    case CallDone(t) => DoneKeepsSender(c, t);
    case DoneStep =>
      if c.winner.Some? { DoneKeepsSender(c.(mapped := Off, stage := C.DONE_REMOVED), c.winner.value); }
    case _ =>
  }

  // One End with an error status at most, and none while pongMonitor may still
  // publish it.
  ghost predicate SoleError(c: C.Client) {
    && M.OneErrorEnd(c.out)
    && (MonitorAlive(c) ==> forall k :: 0 <= k < |c.out| ==> !M.IsErrorEnd(c.out[k]))
  }

  lemma SoleErrorKept(c: C.Client, e: C.Event)
    requires SoleError(c)
    ensures SoleError(C.Step(c, e))
  {
    if e.SendMsg? || e.SenderStep? || e.CloseSend? || e.PingWrite? || e.MonitorWrite? {
      ClientPublishes(c, e);
      PublishedError(c, e);
      var out' := C.Step(c, e).out;
      assert forall k :: 0 <= k < |c.out| ==> out'[k] == c.out[k];
    } else {
      QuietOut(c, e);
    }
  }

  // Only pongMonitor publishes an End with an error status, and then it is done.
  lemma PublishedError(c: C.Client, e: C.Event)
    requires e.SendMsg? || e.SenderStep? || e.CloseSend? || e.PingWrite? || e.MonitorWrite?
    ensures var c' := C.Step(c, e);
            && (MonitorAlive(c') ==> MonitorAlive(c))
            && (c'.out == c.out || (c'.out == c.out + [c'.out[|c.out|]]
                  && (M.IsErrorEnd(c'.out[|c.out|]) ==> MonitorAlive(c) && !MonitorAlive(c'))))
  {
    match e
    case SenderStep(ok) => if c.sender.WritingCall? {} else if c.sender.WritingData? {}
    case _ =>
  }

  // The server maps the live stream of the Call, because the client gives up once.
  ghost predicate Mapped(s: Session) {
    SoleError(s.client) && M.MapInv(s.server) && M.Ascending(s.server)
  }

  lemma ClientStepMaps(s: Session, ce: C.Event)
    requires Inv(s) && Mapped(s) && !ce.Arrive?
    ensures Mapped(Step(s, AtClient(ce)))
  {
    SoleErrorKept(s.client, ce);
    ClientPublishes(s.client, ce);
    var out' := C.Step(s.client, ce).out;
    if out' == s.client.out {
      assert s.server.(sent := out') == s.server;
    } else {
      var r := out'[|s.client.out|];
      assert s.server.(sent := out') == S.Step(s.server, S.Send(r));
      M.StepKeepsMapping(s.server, S.Send(r));
      M.StepAscends(s.server, S.Send(r));
    }
  }

  lemma StepMaps(s: Session, e: Event)
    requires Inv(s) && Mapped(s)
    ensures Mapped(Step(s, e))
  {
    match e
    case AtClient(ce) => if !ce.Arrive? { ClientStepMaps(s, ce); }
    case AtServer(se) => if !se.Send? { M.StepKeepsMapping(s.server, se); M.StepAscends(s.server, se); }
    case Deliver =>
      if |s.client.arrived| < |s.server.published| {
        SoleErrorKept(s.client, C.Arrive(s.server.published[|s.client.arrived|]));
      }
  }

  lemma {:induction false} AfterMaps(path: string, registered: Flag, nid: string, events: seq<Event>)
    ensures Mapped(After(path, registered, nid, events))
  {
    if events != [] {
      var front := events[..|events| - 1];
      AfterKeeps(path, registered, nid, front);
      AfterMaps(path, registered, nid, front);
      StepMaps(After(path, registered, nid, front), events[|events| - 1]);
    }
  }

  // The stream's handler has started, or the Call created the stream.
  ghost predicate Called(s: Session, i: nat)
    requires i < |s.server.incs|
  {
    var inc := s.server.incs[i];
    || !inc.handler.NotStarted?
    || (inc.first < |s.client.out| && s.client.out[inc.first].Call?)
  }

  /** Conservation from client to handler, in every run: until Server.Stop, a live
      stream whose handler has started, or that the Call has created, is the entry of
      Server.streams; and until the stream has processed the half-close, what its
      handler got, what it still holds, what the dispatcher holds and what NATS holds is
      what the client published, in order. */
  lemma NothingLost(path: string, registered: Flag, nid: string, events: seq<Event>, i: nat)
    requires var s := After(path, registered, nid, events);
             && i < |s.server.incs| && s.server.stop.NotStopping?
             && Called(s, i) && s.server.incs[i].s.live.On?
    ensures var s := After(path, registered, nid, events);
            && s.server.mapped == Some(i) && s.server.taken <= |s.server.sent|
            && (HalfClosed(SS.Bodies(s.server.incs[i].done)).Off? ==>
                  ST.Inside(s.server.incs[i]) + ST.Outside(s.server) == Sent(s.client.out))
  {
    var s := After(path, registered, nid, events);
    AfterKeeps(path, registered, nid, events);
    AfterMaps(path, registered, nid, events);
    OneCallSent(s);
    StartedHasCall(s, i);
    if !s.server.incs[i].handler.NotStarted? {
      M.StartedIsMapped(s.server, i);
      if HalfClosed(SS.Bodies(s.server.incs[i].done)).Off? { ST.Conservation(s.server, i); }
    } else {
      M.CreatedIsMapped(s.server, i);
      if HalfClosed(SS.Bodies(s.server.incs[i].done)).Off? { ST.ConservationFromTheCall(s.server, i); }
    }
  }

  /** The same while Server.Stop is on its way: nothing is lost exactly when no payload
      has been dispatched to a newer stream of the reply. */
  lemma NothingLostDuringStop(path: string, registered: Flag, nid: string, events: seq<Event>, i: nat)
    requires var s := After(path, registered, nid, events);
             && i < |s.server.incs|
             && !s.server.incs[i].handler.NotStarted? && s.server.incs[i].s.live.On?
             && HalfClosed(SS.Bodies(s.server.incs[i].done)).Off?
    ensures var s := After(path, registered, nid, events);
            && s.server.taken <= |s.server.sent|
            && (ST.Inside(s.server.incs[i]) + ST.Outside(s.server) == Sent(s.client.out)
                <==> ST.NothingDiverted(s.server, i))
            && (s.server.mapped == Some(i) ==> ST.NothingDiverted(s.server, i))
  {
    var s := After(path, registered, nid, events);
    AfterKeeps(path, registered, nid, events);
    StartedHasCall(s, i);
    ST.ConservationExactly(s.server, i);
    if s.server.mapped == Some(i) { ST.Conservation(s.server, i); }
  }

  // A client that keeps the contract half-closes last.
  lemma {:induction false} ContractClosesLast(path: string, registered: Flag, nid: string, events: seq<Event>)
    requires NoSendAfterClose(events)
    ensures var c := After(path, registered, nid, events).client;
            && ClosedLast(c)
            && (HalfClosed(c.out).On? ==> exists k :: 0 <= k < |events| && IsCloseSend(events[k]))
  {
    if events != [] {
      var front, last := events[..|events| - 1], events[|events| - 1];
      assert forall k :: 0 <= k < |front| ==> front[k] == events[k];
      ContractClosesLast(path, registered, nid, front);
      var s := After(path, registered, nid, front);
      if HalfClosed(s.client.out).On? {
        var k :| 0 <= k < |front| && IsCloseSend(front[k]);
        assert IsCloseSend(events[k]);
      }
      assert IsCloseSend(last) ==> IsCloseSend(events[|events| - 1]);
      StepClosesLast(s, last);
    }
  }

  lemma StepClosesLast(s: Session, e: Event)
    requires ClosedLast(s.client) && (HalfClosed(s.client.out).On? ==> !IsSendMsg(e))
    ensures ClosedLast(Step(s, e).client)
    ensures HalfClosed(Step(s, e).client.out).On? ==> HalfClosed(s.client.out).On? || IsCloseSend(e)
  {
    match e
    case AtClient(ce) => ClosedLastKept(s.client, ce);
    case AtServer(_) =>
    case Deliver =>
      if |s.client.arrived| < |s.server.published| {
        ClosedLastKept(s.client, C.Arrive(s.server.published[|s.client.arrived|]));
      }
  }

  /** Client to handler, when the caller keeps the contract of grpc.ClientStream, in
      every such run: io.EOF at the handler of a live stream means it got every payload
      the client published, in order. */
  lemma EofMeansAllSent(path: string, registered: Flag, nid: string, events: seq<Event>, i: nat)
    requires NoSendAfterClose(events)
    requires var s := After(path, registered, nid, events);
             && i < |s.server.incs| && !s.server.incs[i].handler.NotStarted?
             && s.server.incs[i].s.live.On? && s.server.incs[i].sawEof.On?
    ensures var s := After(path, registered, nid, events); s.server.incs[i].got == Sent(s.client.out)
  {
    var s := After(path, registered, nid, events);
    AfterKeeps(path, registered, nid, events);
    ContractClosesLast(path, registered, nid, events);
    StartedHasCall(s, i);
    ST.EofMeansAllSent(s.server, i);
  }

  lemma {:induction false} CompletedConcat(a: seq<Response>, b: seq<Response>)
    ensures Completed(a).On? ==> PayloadsBeforeEnd(a + b) == PayloadsBeforeEnd(a)
    ensures Completed(a).On? ==> Completed(a + b).On?
  {
    if b == [] {
      assert a + b == a;
    } else {
      var front, last := b[..|b| - 1], b[|b| - 1];
      CompletedConcat(a, front);
      assert a + b == (a + front) + [last];
      CompletedAppend(a + front, last);
    }
  }

  /** Inbox to client, in every run and whatever is cancelled: the payloads
      RecvMsg has returned are a prefix of the payloads on the reply inbox;
      io.EOF means it returned all of them; and once the OK End is processed at
      most one payload is undelivered. */
  lemma PublishedToClient(path: string, registered: Flag, nid: string, events: seq<Event>)
    ensures var s := After(path, registered, nid, events);
            var sent := Payloads(s.server.published);
            && |s.client.got| <= |sent| && s.client.got == sent[..|s.client.got|]
            && (s.client.sawEof.On? ==> s.client.got == sent)
            && (Completed(s.client.processed).On? ==> |sent| <= |s.client.got| + 1)
  {
    AfterKeeps(path, registered, nid, events);
    ReturnedIsPrefix(After(path, registered, nid, events));
    ReturnedAtEnd(After(path, registered, nid, events));
  }

  lemma ReturnedIsPrefix(s: Session)
    requires Inv(s)
    ensures var sent := Payloads(s.server.published);
            |s.client.got| <= |sent| && s.client.got == sent[..|s.client.got|]
  {
    CT.ReceivedIsPrefix(s.client);
    var rest := s.server.published[|s.client.arrived|..];
    assert s.server.published == s.client.arrived + rest;
    PayloadsConcat(s.client.arrived, rest);
  }

  lemma ReturnedAtEnd(s: Session)
    requires Inv(s)
    ensures var sent := Payloads(s.server.published);
            && (s.client.sawEof.On? ==> s.client.got == sent)
            && (Completed(s.client.processed).On? ==> |sent| <= |s.client.got| + 1)
  {
    var c := s.client;
    CT.EofMeansEverything(c);
    if Completed(c.processed).On? {
      var rest := s.server.published[|c.arrived|..];
      assert s.server.published == c.processed + (c.msgCh + rest);
      EndMeansAllPublished(s, c.msgCh + rest);
    }
  }

  // After the OK End, nothing but Pongs is published.
  lemma EndMeansAllPublished(s: Session, rest: seq<Response>)
    requires Inv(s) && Completed(s.client.processed).On? && s.server.published == s.client.processed + rest
    ensures Payloads(s.server.published) == PayloadsBeforeEnd(s.client.processed)
  {
    OneCallSent(s);
    ST.OneEnd(s.server);
    OrderedMeansAllBefore(s.server.published);
    CompletedConcat(s.client.processed, rest);
  }

  /** One Call, one handler, one End, in every run: across all the streams late
      frames create for the reply inbox at most one handler is launched, at most
      one End is published, and with every publication succeeding the inbox
      carries a prefix of Begin Data* End, Pongs aside. */
  lemma OneOfEach(path: string, registered: Flag, nid: string, events: seq<Event>)
    ensures var y := After(path, registered, nid, events).server;
            && (forall i, j :: 0 <= i < j < |y.incs| ==> y.incs[i].launches + y.incs[j].launches <= 1)
            && (forall i :: 0 <= i < |y.incs| ==> y.incs[i].launches <= 1)
            && (forall i, j :: 0 <= i < j < |y.published| ==> !(y.published[i].Finish? && y.published[j].Finish?))
            && OkFinishIsLast(y.published)
            && ((forall i :: 0 <= i < |y.incs| ==> y.incs[i].failed.Off?) ==> Grammar(ErasePongs(y.published)))
  {
    var s := After(path, registered, nid, events);
    var y := s.server;
    AfterKeeps(path, registered, nid, events);
    OneCallSent(s);
    ST.OneEnd(y);
    forall i, j | 0 <= i < |y.incs| && 0 <= j < |y.incs|
      ensures y.incs[i].launches <= 1
      ensures i < j ==> y.incs[i].launches + y.incs[j].launches <= 1
    {
      ST.OneHandler(y, i, j);
    }
    if forall i :: 0 <= i < |y.incs| ==> y.incs[i].failed.Off? { ST.InboxGrammar(y); }
  }

  /** Server stats, in every run: every stream of the reply reports one leading
      Begin and at most one End; it reports End exactly when Begin preceded its
      first finalize, and then with that finalize's error, whoever ran it. */
  lemma ServerStats(path: string, registered: Flag, nid: string, events: seq<Event>, i: nat)
    requires i < |After(path, registered, nid, events).server.incs|
    ensures var inc := After(path, registered, nid, events).server.incs[i];
            && OrderlyTrace(inc.s.stats)
            && (ST.HasStatEnd(inc.s.stats) <==> inc.begunAtEnd.On?)
            && (inc.begunAtEnd.On? ==> StatEnd(inc.s.endErr) in inc.s.stats)
  {
    AfterKeeps(path, registered, nid, events);
    ST.StatsLifecycle(After(path, registered, nid, events).server, i);
  }

  /** A stream whose finalize has completed is never the entry of Server.streams
      again, in any run. */
  lemma FinalizedNeverReturns(path: string, registered: Flag, nid: string, events: seq<Event>, i: nat)
    requires var y := After(path, registered, nid, events).server; i < |y.incs| && y.incs[i].removed.On?
    ensures var y := After(path, registered, nid, events).server;
            && y.mapped != Some(i) && y.incs[i].s.finalized.On?
  {
    AfterKeeps(path, registered, nid, events);
    ST.RemovedIsUnmapped(After(path, registered, nid, events).server, i);
  }

  // ---------------------------------------------------------------------
  // A caller that never sends
  // ---------------------------------------------------------------------

  ghost predicate NeverSends(events: seq<Event>) {
    forall k :: 0 <= k < |events| ==> !IsSendMsg(events[k])
  }

  // Neither the caller, nor pongMonitor, nor Client.Close ends the stream.
  ghost predicate NobodyCancels(events: seq<Event>) {
    forall k :: 0 <= k < |events| ==> !(events[k].AtClient? && CT.Cancels(events[k].clientEvent))
  }

  // Only SendMsg begins a stream.
  lemma BegunBySending(c: C.Client, e: C.Event)
    requires !e.SendMsg?
    ensures C.Step(c, e).hasBegun == c.hasBegun
  {
    match e
    case ReaderTake =>
      if c.msgCh != [] {
        match c.msgCh[0]
        case Reply(_) =>
        case Finish(_, _) =>
        case _ =>
      }
    case CallDone(t) => DoneKeepsBegun(c, t);
    case DoneStep =>
      if c.winner.Some? { DoneKeepsBegun(c.(mapped := Off, stage := C.DONE_REMOVED), c.winner.value); }
    case SenderStep(ok) => if c.sender.WritingCall? {} else if c.sender.WritingData? {}
    case _ =>
  }

  lemma DoneKeepsBegun(c: C.Client, t: C.Caller)
    ensures C.LeaveDone(c, t).hasBegun == c.hasBegun
  {
    match t
    case TheReader =>
    case _ =>
  }

  // The step of the client in a step of the session, if it takes one.
  function ClientEvent(s: Session, e: Event): C.Event {
    match e
    case AtClient(ce) => ce
    case _ => if e.Deliver? && |s.client.arrived| < |s.server.published|
              then C.Arrive(s.server.published[|s.client.arrived|]) else C.Register
  }

  lemma ClientMoves(s: Session, e: Event)
    ensures Step(s, e).client == s.client || Step(s, e).client == C.Step(s.client, ClientEvent(s, e))
  {}

  lemma {:induction false} NeverBegun(path: string, registered: Flag, nid: string, events: seq<Event>)
    requires NeverSends(events)
    ensures After(path, registered, nid, events).client.hasBegun.Off?
  {
    if events != [] {
      var front, last := events[..|events| - 1], events[|events| - 1];
      assert forall k :: 0 <= k < |front| ==> front[k] == events[k];
      NeverBegun(path, registered, nid, front);
      var s := After(path, registered, nid, front);
      ClientMoves(s, last);
      BegunBySending(s.client, ClientEvent(s, last));
    }
  }

  // Without a Call among the requests no stream takes one, and the reply inbox
  // carries Pongs only.
  lemma NoCallNoAnswer(y: S.System)
    requires S.Inv(y) && forall n :: 0 <= n < |y.sent| ==> !y.sent[n].Call?
    ensures forall i :: 0 <= i < |y.incs| ==> y.incs[i].handler.NotStarted? && y.incs[i].launches == 0
    ensures ErasePongs(y.published) == []
  {
    forall i | 0 <= i < |y.incs|
      ensures y.incs[i].handler.NotStarted? && y.incs[i].launches == 0 && !SS.HasCall(y.incs[i])
    {
      assert SS.IncInv(y.incs[i], y.registered);
      if SS.HasCall(y.incs[i]) { var n := S.CallNumber(y, i); }
    }
  }

  lemma {:induction false} OnlyPongs(out: seq<Response>)
    requires ErasePongs(out) == []
    ensures forall k :: 0 <= k < |out| ==> out[k].Pong?
    ensures Payloads(out) == []
  {
    if out != [] {
      var front, last := out[..|out| - 1], out[|out| - 1];
      assert last.Pong?;
      OnlyPongs(front);
    }
  }

  // Nobody but the server ends the stream, as the client sees it.
  lemma {:induction false} StaysQuiet(path: string, registered: Flag, nid: string, events: seq<Event>)
    requires NobodyCancels(events)
    ensures var c := After(path, registered, nid, events).client; CT.HelpersQuiet(c) && CT.ReaderEnds(c)
  {
    if events != [] {
      var front, last := events[..|events| - 1], events[|events| - 1];
      assert forall k :: 0 <= k < |front| ==> front[k] == events[k];
      StaysQuiet(path, registered, nid, front);
      AfterKeeps(path, registered, nid, front);
      var s := After(path, registered, nid, front);
      ClientMoves(s, last);
      CT.QuietStep(s.client, ClientEvent(s, last));
    }
  }

  /** A stream on which the caller never calls SendMsg has no Call, whatever else
      happens: in every such run, CloseSend included, no stream of the server ever
      starts a handler, the reply inbox carries Pongs only, and RecvMsg returns neither
      a payload nor io.EOF; and unless the caller, pongMonitor or Client.Close cancels,
      it never returns at all. */
  lemma NothingWithoutSend(path: string, registered: Flag, nid: string, events: seq<Event>)
    requires NeverSends(events)
    ensures var s := After(path, registered, nid, events);
            && (forall n :: 0 <= n < |s.client.out| ==> !s.client.out[n].Call? && !s.client.out[n].Data?)
            && (forall i :: 0 <= i < |s.server.incs| ==>
                  s.server.incs[i].handler.NotStarted? && s.server.incs[i].launches == 0)
            && ErasePongs(s.server.published) == []
            && s.client.got == [] && s.client.sawEof.Off?
            && (NobodyCancels(events) ==> s.client.live.On? && s.client.answered == [])
  {
    var s := After(path, registered, nid, events);
    AfterKeeps(path, registered, nid, events);
    NeverBegun(path, registered, nid, events);
    Unbegun(s.client);
    NoCallNoAnswer(s.server);
    OnlyPongs(s.server.published);
    Unanswered(s);
    if NobodyCancels(events) {
      StaysQuiet(path, registered, nid, events);
      StillLive(s.client);
    }
  }

  lemma Unbegun(c: C.Client)
    requires C.SendInv(c) && c.hasBegun.Off?
    ensures forall n :: 0 <= n < |c.out| ==> !c.out[n].Call? && !c.out[n].Data?
  {}

  // What the reader has taken are Pongs.
  lemma Unanswered(s: Session)
    requires Inv(s) && forall k :: 0 <= k < |s.server.published| ==> s.server.published[k].Pong?
    requires Payloads(s.server.published) == []
    ensures s.client.got == [] && s.client.sawEof.Off?
    ensures forall k :: 0 <= k < |s.client.processed| ==> s.client.processed[k].Pong?
  {
    var c := s.client;
    ReturnedIsPrefix(s);
    forall k | 0 <= k < |c.processed| ensures c.processed[k].Pong? {
      assert c.arrived[k] == c.processed[k];
      assert s.server.published[k] == c.arrived[k];
    }
    if c.sawEof.On? {
      CT.EofMeansEverything(c);
      CompletedIsTaken(c.processed);
    }
  }

  lemma {:induction false} CompletedIsTaken(rs: seq<Response>)
    ensures Completed(rs).On? ==> exists k :: 0 <= k < |rs| && rs[k].Finish?
  {
    if rs != [] {
      var front := rs[..|rs| - 1];
      CompletedIsTaken(front);
      if Completed(front).On? {
        var k :| 0 <= k < |front| && front[k].Finish?;
        assert rs[k].Finish?;
      }
    }
  }

  lemma StillLive(c: C.Client)
    requires C.DoneInv(c) && CT.HelpersQuiet(c) && CT.ReaderEnds(c)
    requires forall k :: 0 <= k < |c.processed| ==> c.processed[k].Pong?
    ensures c.live.On? && c.answered == []
  {}
}
