// What the caller of a client stream did, and what the stream publishes of it
// (pkg/rpc/client.go): the payloads given to SendMsg, the half-closes, the pings.
module ClientSends {
  import opened Wire
  import opened ClientStreams
  import opened ClientTheorems

  // What was asked of the stream: the payloads SendMsg accepted, whether CloseSend was
  // called, the timestamps pingLoop took while the stream was not closed, whether the
  // heartbeat timed out, whether Client.Close found the stream; and whether a Data could
  // not be published.
  datatype Asked = Asked(
    given: seq<Payload>,
    halfClosed: Flag,
    ticks: set<int>,
    timedOut: Flag,
    found: Flag,
    lost: Flag)

  const NOTHING_ASKED := Asked([], Off, {}, Off, Off, Off)

  // What a step on a stream in state c adds.
  function Asks(a: Asked, c: Client, e: Event): Asked {
    match e
    case SendMsg(p) => if c.sender.SenderIdle? && c.closed.Off? then a.(given := a.given + [p]) else a
    case SenderStep(ok) => if c.sender.WritingData? && ok.Off? then a.(lost := On) else a
    case CloseSend(_) => a.(halfClosed := On)
    case PingTick(ts) => if c.pinger.PingerIdle? && c.closed.Off? then a.(ticks := a.ticks + {ts}) else a
    case MonitorTimeout => if c.monitor.Waiting? then a.(timedOut := On) else a
    case CloserSnapshot => if c.closer.Waiting? && c.mapped.On? then a.(found := On) else a
    case _ => a
  }

  function AskedOf(path: string, events: seq<Event>): Asked {
    if events == [] then NOTHING_ASKED
    else
      var front := events[..|events| - 1];
      Asks(AskedOf(path, front), After(path, front), events[|events| - 1])
  }

  // The payload SendMsg has not published yet.
  function InHand(s: Sender): seq<Payload> { if s.SenderIdle? then [] else [s.payload] }

  // Why the stream may publish a request.
  predicate WasAsked(r: Request, path: string, a: Asked) {
    match r
    case Call(p) => p == path && a.given != []
    case Data(p) => p in a.given
    case End(status) =>
      || (status.None? && a.halfClosed.On?)
      || (status == Some(Status(14, "server heartbeat timeout")) && a.timedOut.On?)
    case Ping(ts) => ts in a.ticks
    case Unknown => false
  }

  ghost predicate AllAsked(out: seq<Request>, path: string, a: Asked) {
    forall k :: 0 <= k < |out| ==> WasAsked(out[k], path, a)
  }

  // `paid` are the payloads published: those given, in order, none missing while
  // publications succeed.
  ghost predicate PaidInv(s: Sender, lost: Flag, paid: seq<Payload>, given: seq<Payload>) {
    && (lost.Off? ==> paid + InHand(s) == given)
    && (if s.SenderIdle? then Subsequence(paid, given)
        else given != [] && given[|given| - 1] == s.payload && Subsequence(paid, given[..|given| - 1]))
  }

  ghost predicate AskedInv(c: Client, path: string, a: Asked) {
    && c.path == path
    && SendsAsked(c.out, c.sender, path, a)
    && (c.pinger.WritingPing? ==> c.pinger.timestamp in a.ticks)
    && (c.monitor.WritingEnd? ==> a.timedOut.On?)
  }

  ghost predicate SendsAsked(out: seq<Request>, s: Sender, path: string, a: Asked) {
    AllAsked(out, path, a) && PaidInv(s, a.lost, Sent(out), a.given)
  }

  lemma AskedLater(out: seq<Request>, path: string, a: Asked, a': Asked)
    requires AllAsked(out, path, a)
    requires a.given <= a'.given && a.ticks <= a'.ticks
    requires (a.halfClosed.On? ==> a'.halfClosed.On?) && (a.timedOut.On? ==> a'.timedOut.On?)
    ensures AllAsked(out, path, a')
  {
    forall k | 0 <= k < |out| ensures WasAsked(out[k], path, a') { assert WasAsked(out[k], path, a); }
  }

  lemma AskedMore(out: seq<Request>, path: string, a: Asked, r: Request)
    requires AllAsked(out, path, a) && WasAsked(r, path, a)
    ensures AllAsked(out + [r], path, a)
  {}

  lemma GivesOne(s: Sender, s': Sender, lost: Flag, paid: seq<Payload>, given: seq<Payload>, p: Payload)
    requires PaidInv(s, lost, paid, given) && s.SenderIdle? && InHand(s') == [p]
    ensures PaidInv(s', lost, paid, given + [p])
  {
    assert (given + [p])[..|given|] == given;
    assert paid + [] == paid;
  }

  // The payload in hand goes out, or is lost.
  lemma PaysOne(s: Sender, lost: Flag, paid: seq<Payload>, given: seq<Payload>)
    requires PaidInv(s, lost, paid, given) && !s.SenderIdle?
    ensures PaidInv(SenderIdle, lost, paid + [s.payload], given) && PaidInv(SenderIdle, On, paid, given)
    ensures s.payload in given
  {
    assert (paid + [s.payload])[..|paid|] == paid;
    assert paid + [s.payload] + [] == paid + [s.payload];
  }

  // What the steps of SendMsg leave alone.
  lemma SendFrame(c: Client, e: Event)
    requires e.SendMsg? || e.SenderStep?
    ensures var c' := Step(c, e); c'.path == c.path && c'.pinger == c.pinger && c'.monitor == c.monitor
    ensures e.SendMsg? ==> Step(c, e).out == c.out
    ensures e.SendMsg? && c.sender.SenderIdle? && c.closed.Off? ==>
              Step(c, e).sender == if c.hasBegun.On? then WritingData(e.payload) else WritingCall(e.payload)
  {}

  lemma GivesMore(out: seq<Request>, s: Sender, s': Sender, path: string, a: Asked, p: Payload)
    requires SendsAsked(out, s, path, a) && s.SenderIdle? && InHand(s') == [p]
    ensures SendsAsked(out, s', path, a.(given := a.given + [p]))
  {
    GivesOne(s, s', a.lost, Sent(out), a.given, p);
    AskedLater(out, path, a, a.(given := a.given + [p]));
  }

  lemma SendAsked(c: Client, path: string, a: Asked, p: Payload)
    requires AskedInv(c, path, a)
    ensures AskedInv(Step(c, SendMsg(p)), path, Asks(a, c, SendMsg(p)))
  {
    SendFrame(c, SendMsg(p));
    if c.sender.SenderIdle? && c.closed.Off? {
      GivesMore(c.out, c.sender, Step(c, SendMsg(p)).sender, path, a, p);
    }
  }

  // The Call goes out, or is lost.
  lemma CallsOut(out: seq<Request>, p: Payload, path: string, a: Asked)
    requires SendsAsked(out, WritingCall(p), path, a)
    ensures SendsAsked(out, WritingData(p), path, a) && SendsAsked(out + [Call(path)], WritingData(p), path, a)
  {
    SentAppend(out, Call(path));
    AskedMore(out, path, a, Call(path));
  }

  // The payload in hand goes out, or is lost.
  lemma DataOut(out: seq<Request>, p: Payload, path: string, a: Asked)
    requires SendsAsked(out, WritingData(p), path, a)
    ensures SendsAsked(out + [Data(p)], SenderIdle, path, a)
    ensures SendsAsked(out, SenderIdle, path, a.(lost := On))
  {
    SentAppend(out, Data(p));
    PaysOne(WritingData(p), a.lost, Sent(out), a.given);
    AskedMore(out, path, a, Data(p));
    AskedLater(out, path, a, a.(lost := On));
  }

  lemma SenderAsked(c: Client, path: string, a: Asked, ok: Flag)
    requires AskedInv(c, path, a)
    ensures AskedInv(Step(c, SenderStep(ok)), path, Asks(a, c, SenderStep(ok)))
  {
    SendFrame(c, SenderStep(ok));
    if c.sender.WritingCall? { CallsOut(c.out, c.sender.payload, path, a); }
    if c.sender.WritingData? { DataOut(c.out, c.sender.payload, path, a); }
  }

  // Another request goes out, or is lost.
  lemma OtherAsked(c: Client, path: string, a: Asked, a': Asked, r: Request, ok: Flag)
    requires SendsAsked(c.out, c.sender, path, a)
    requires a'.given == a.given && a'.lost == a.lost && a.ticks <= a'.ticks && a'.timedOut == a.timedOut
    requires a.halfClosed.On? ==> a'.halfClosed.On?
    requires !r.Data? && WasAsked(r, path, a')
    ensures SendsAsked(Publish(c, r, ok).out, c.sender, path, a')
  {
    SentAppend(c.out, r);
    AskedLater(c.out, path, a, a');
    AskedMore(c.out, path, a', r);
  }

  lemma CloseSendAsked(c: Client, path: string, a: Asked, ok: Flag)
    requires AskedInv(c, path, a)
    ensures AskedInv(Step(c, CloseSend(ok)), path, Asks(a, c, CloseSend(ok)))
  {
    AskedLater(c.out, path, a, a.(halfClosed := On));
    if c.sender.SenderIdle? { OtherAsked(c, path, a, a.(halfClosed := On), End(None), ok); }
  }

  lemma PingAsked(c: Client, path: string, a: Asked, ok: Flag)
    requires AskedInv(c, path, a)
    ensures AskedInv(Step(c, PingWrite(ok)), path, a)
  {
    if c.pinger.WritingPing? { OtherAsked(c, path, a, a, Ping(c.pinger.timestamp), ok); }
  }

  lemma MonitorAsked(c: Client, path: string, a: Asked, ok: Flag)
    requires AskedInv(c, path, a)
    ensures AskedInv(Step(c, MonitorWrite(ok)), path, a)
  {
    if c.monitor.WritingEnd? { OtherAsked(c, path, a, a, End(Some(Status(14, "server heartbeat timeout"))), ok); }
  }

  // What the steps that publish nothing leave alone.
  lemma QuietFrame(c: Client, e: Event)
    requires !e.SendMsg? && !e.SenderStep? && !e.CloseSend? && !e.PingWrite? && !e.MonitorWrite?
    ensures var c' := Step(c, e);
            && c'.out == c.out && c'.sender == c.sender && c'.path == c.path
            && (c'.pinger == c.pinger
                || (e.PingTick? && c.pinger.PingerIdle? && c.closed.Off? && c'.pinger == WritingPing(e.timestamp)))
            && (c'.monitor.WritingEnd? ==> c'.monitor == c.monitor || (e.MonitorTimeout? && c.monitor.Waiting?))
  {
    match e
    case ReaderTake =>
      if c.msgCh != [] {
        match c.msgCh[0]
        case Reply(_) =>
        case Finish(_, _) =>
        case _ =>
      }
    case CallDone(t) => LeaveFrame(c, t);
    case DoneStep => if c.winner.Some? { LeaveFrame(c.(mapped := Off, stage := DONE_REMOVED), c.winner.value); }
    case _ =>
  }

  lemma LeaveFrame(c: Client, t: Caller)
    ensures var c' := LeaveDone(c, t);
            && c'.out == c.out && c'.sender == c.sender && c'.path == c.path && c'.pinger == c.pinger
            && (c'.monitor.WritingEnd? ==> c'.monitor == c.monitor)
  {
    match t
    case TheReader =>
    case _ =>
  }

  lemma QuietAsked(c: Client, path: string, a: Asked, e: Event)
    requires AskedInv(c, path, a)
    requires !e.SendMsg? && !e.SenderStep? && !e.CloseSend? && !e.PingWrite? && !e.MonitorWrite?
    ensures AskedInv(Step(c, e), path, Asks(a, c, e))
  {
    QuietFrame(c, e);
    AskedLater(c.out, path, a, Asks(a, c, e));
  }

  lemma StepAsked(c: Client, path: string, a: Asked, e: Event)
    requires AskedInv(c, path, a)
    ensures AskedInv(Step(c, e), path, Asks(a, c, e))
  {
    match e
    case SendMsg(p) => SendAsked(c, path, a, p);
    case SenderStep(ok) => SenderAsked(c, path, a, ok);
    case CloseSend(ok) => CloseSendAsked(c, path, a, ok);
    case PingWrite(ok) => PingAsked(c, path, a, ok);
    case MonitorWrite(ok) => MonitorAsked(c, path, a, ok);
    case _ => QuietAsked(c, path, a, e);
  }

  lemma {:induction false} AskedHolds(path: string, events: seq<Event>)
    ensures AskedInv(After(path, events), path, AskedOf(path, events))
  {
    if events != [] {
      var front := events[..|events| - 1];
      AskedHolds(path, front);
      StepAsked(After(path, front), path, AskedOf(path, front), events[|events| - 1]);
    }
  }

  /** In every run, the payloads a client stream has published are those SendMsg was
      given, in order: some, and while publications succeed all but the one SendMsg has
      in hand. */
  lemma SentIsGiven(path: string, events: seq<Event>)
    ensures var c, a := After(path, events), AskedOf(path, events);
            && Subsequence(Sent(c.out), a.given)
            && (a.lost.Off? ==> Sent(c.out) + InHand(c.sender) == a.given)
  {
    AskedHolds(path, events);
    var c, a := After(path, events), AskedOf(path, events);
    HandedOver(c.sender, a.lost, Sent(c.out), a.given);
  }

  lemma HandedOver(s: Sender, lost: Flag, paid: seq<Payload>, given: seq<Payload>)
    requires PaidInv(s, lost, paid, given)
    ensures Subsequence(paid, given)
  {}

  /** Whatever a client stream publishes has been asked for: a Call carries the method
      path, an End is CloseSend's with status OK or the heartbeat's, a Ping a timestamp
      pingLoop took before the stream was closed. */
  lemma RequestsAreAsked(path: string, events: seq<Event>, k: nat)
    requires k < |After(path, events).out|
    ensures var a := AskedOf(path, events);
            match After(path, events).out[k]
            case Call(p) => p == path && a.given != []
            case Data(p) => p in a.given
            case End(status) =>
              || (status.None? && a.halfClosed.On?)
              || (status == Some(Status(14, "server heartbeat timeout")) && a.timedOut.On?)
            case Ping(ts) => ts in a.ticks
            case Unknown => false
  {
    AskedHolds(path, events);
    assert WasAsked(After(path, events).out[k], path, AskedOf(path, events));
  }
}
