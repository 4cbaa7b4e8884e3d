// From the caller's SendMsg to the handler, in whole runs: what the handler gets of the
// payloads the caller gave, and where every request frame comes from.
module SessionSends {
  import opened Wire
  import opened Sessions
  import opened ClientSends
  import C = ClientStreams
  import SS = ServerStreams
  import S = ServerSystem
  import ST = ServerTheorems

  /** What the caller and the timers of the client asked for in a run, read off its
      events. */
  function AskedIn(path: string, registered: Flag, nid: string, events: seq<Event>): Asked {
    if events == [] then NOTHING_ASKED
    else
      var front, last := events[..|events| - 1], events[|events| - 1];
      var a := AskedIn(path, registered, nid, front);
      if last.AtClient? then Asks(a, After(path, registered, nid, front).client, last.clientEvent) else a
  }

  lemma AskedStep(s: Session, e: Event, path: string, a: Asked)
    requires AskedInv(s.client, path, a)
    ensures AskedInv(Step(s, e).client, path, if e.AtClient? then Asks(a, s.client, e.clientEvent) else a)
  {
    match e
    case AtClient(ce) => if !ce.Arrive? { StepAsked(s.client, path, a, ce); }
    case AtServer(_) =>
    case Deliver =>
      if |s.client.arrived| < |s.server.published| {
        StepAsked(s.client, path, a, C.Arrive(s.server.published[|s.client.arrived|]));
      }
  }

  lemma {:induction false} AskedAfter(path: string, registered: Flag, nid: string, events: seq<Event>)
    ensures AskedInv(After(path, registered, nid, events).client, path, AskedIn(path, registered, nid, events))
  {
    if events != [] {
      var front, last := events[..|events| - 1], events[|events| - 1];
      AskedAfter(path, registered, nid, front);
      AskedStep(After(path, registered, nid, front), last, path, AskedIn(path, registered, nid, front));
    }
  }

  lemma {:induction false} SubsequenceTrans<T(!new)>(a: seq<T>, b: seq<T>, c: seq<T>)
    requires Subsequence(a, b) && Subsequence(b, c)
    ensures Subsequence(a, c)
    decreases |b| + |c|
  {
    if a != [] && b != [] && c != [] {
      var bs, cs := b[..|b| - 1], c[..|c| - 1];
      if Subsequence(b, cs) {
        SubsequenceTrans(a, b, cs);
      } else if Subsequence(a, bs) {
        SubsequenceTrans(a, bs, cs);
      } else {
        SubsequenceTrans(a[..|a| - 1], bs, cs);
      }
    }
  }

  /** Every request the server is sent was asked for on the client: the Call of the
      method, a payload given to SendMsg, the half-close of CloseSend, a Ping of pingLoop,
      the End of a heartbeat timeout. */
  lemma SentIsAsked(path: string, registered: Flag, nid: string, events: seq<Event>, n: nat)
    requires n < |After(path, registered, nid, events).server.sent|
    ensures WasAsked(After(path, registered, nid, events).server.sent[n], path,
                     AskedIn(path, registered, nid, events))
  {
    AskedAfter(path, registered, nid, events);
    AfterKeeps(path, registered, nid, events);
  }

  lemma HalfCloseTaken(s: Session, i: nat)
    requires Inv(s) && i < |s.server.incs| && s.server.incs[i].sawEof.On?
    ensures HalfClosed(s.client.out).On?
  {
    var inc := s.server.incs[i];
    assert SS.IncInv(inc, s.server.registered) && S.StretchInv(s.server, i);
    var k := HalfCloseIn(SS.Bodies(inc.done));
    assert inc.enq[k] == inc.done[k];
    HalfCloseAt(s.server.sent, inc.enq[k].no);
  }

  lemma {:induction false} HalfCloseIn(rs: seq<Request>) returns (k: nat)
    requires HalfClosed(rs).On?
    ensures k < |rs| && rs[k].End? && IsOk(rs[k].status)
  {
    if rs[|rs| - 1].End? && IsOk(rs[|rs| - 1].status) {
      k := |rs| - 1;
    } else {
      k := HalfCloseIn(rs[..|rs| - 1]);
    }
  }

  lemma {:induction false} HalfCloseAt(rs: seq<Request>, k: nat)
    requires k < |rs| && rs[k].End? && IsOk(rs[k].status)
    ensures HalfClosed(rs).On?
  {
    if k < |rs| - 1 { HalfCloseAt(rs[..|rs| - 1], k); }
  }

  // The handler of a live stream has seen io.EOF.
  predicate SeesEof(inc: SS.Inc) { !inc.handler.NotStarted? && inc.s.live.On? && inc.sawEof.On? }

  /** SendMsg to handler, in every run: what the handler of any stream of the reply has
      received is among the payloads the caller gave SendMsg, in order; and if the caller
      keeps the contract of grpc.ClientStream and no publication of a payload failed, a
      handler on a live stream that has seen io.EOF got exactly those payloads. */
  lemma GivenToHandler(path: string, registered: Flag, nid: string, events: seq<Event>, i: nat)
    requires i < |After(path, registered, nid, events).server.incs|
    ensures var inc, a := After(path, registered, nid, events).server.incs[i], AskedIn(path, registered, nid, events);
            && Subsequence(inc.got, a.given)
            && (NoSendAfterClose(events) && a.lost.Off? && SeesEof(inc) ==> inc.got == a.given && a.halfClosed.On?)
  {
    var s, a := After(path, registered, nid, events), AskedIn(path, registered, nid, events);
    AskedAfter(path, registered, nid, events);
    HandedOver(s.client.sender, a.lost, Sent(s.client.out), a.given);
    ClientToHandler(path, registered, nid, events, i);
    SubsequenceTrans(s.server.incs[i].got, Sent(s.client.out), a.given);
    var inc := s.server.incs[i];
    if NoSendAfterClose(events) && a.lost.Off? && SeesEof(inc) {
      EofMeansAllSent(path, registered, nid, events, i);
      AfterKeeps(path, registered, nid, events);
      HalfCloseTaken(s, i);
      ContractClosesLast(path, registered, nid, events);
      AllWasGiven(s.client, path, a);
    }
  }

  // A half-closed client has no payload in hand, and was asked to half-close.
  lemma AllWasGiven(c: C.Client, path: string, a: Asked)
    requires AskedInv(c, path, a) && a.lost.Off? && c.sender.SenderIdle? && HalfClosed(c.out).On?
    ensures Sent(c.out) == a.given && a.halfClosed.On?
  {
    var k := HalfCloseIn(c.out);
    assert WasAsked(c.out[k], path, a);
    assert Sent(c.out) + [] == Sent(c.out);
  }
}
