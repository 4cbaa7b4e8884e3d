// The two-way pumps: pumpBidi of the sidecar's egress (pkg/sidecar/egress.go) and
// the handler of the gRPC proxy (pkg/rpc/proxy/handler.go). Two forwarders post
// their outcome on a one-slot channel each, and a select loop of two rounds joins
// them.
module Pumps {
  import opened Wire

  // The proxy half-closes the outbound stream on the caller's EOF if autoCloseSend;
  // its outbound stream is one of a *grpc.ClientConn, or of an *nrpc.Client.
  datatype Kind = Bidi | Proxy(autoCloseSend: Flag, overGrpc: Flag)

  // How RecvMsg, Header, SendHeader or SendMsg fails: io.EOF or another error.
  datatype Ending = Eof | Failure(error: Error)

  // What is done to the stream a forwarder writes to.
  datatype Act = Header | Message(payload: Payload) | HalfClose

  datatype Stage =
    | Receiving
    | Heading(payload: Payload)
    | Sending(payload: Payload)
    | Posting(ending: Ending)
    | Stopped

  // `headed`: the forwarder passes the header on before its first message.
  // Histories: received  messages taken from the source; sink  what was done to
  // the destination; dropped  the message in hand when the destination failed;
  // posted  everything ever sent on the channel.
  datatype Forwarder = Forwarder(
    headed: Flag,
    stage: Stage,
    channel: Option<Ending>,
    received: seq<Payload>,
    sink: seq<Act>,
    dropped: seq<Payload>,
    posted: seq<Ending>)

  // The select loop in its round, or about to run its deferred calls, or returned.
  datatype Main =
    | Waiting(round: nat)
    | Returning(result: Option<Error>)
    | Returned(result: Option<Error>)

  // c2s forwards the outbound stream to the local one, s2c the other way round.
  datatype Pump = Pump(
    kind: Kind,
    s2c: Forwarder,
    c2s: Forwarder,
    main: Main,
    closes: nat,
    trailerSet: Flag,
    cancelled: Flag)

  function NewForwarder(headed: Flag): Forwarder { Forwarder(headed, Receiving, None, [], [], [], []) }

  function Init(kind: Kind): Pump {
    Pump(kind, NewForwarder(Off), NewForwarder(if kind.Proxy? then On else Off), Waiting(0), 0, Off, Off)
  }

  datatype Side = S2C | C2S

  datatype Move =
    | Receive(message: Payload)
    | ReceiveFails(ending: Ending)
    | ForwardHeader(failure: Option<Ending>)
    | Send(failure: Option<Ending>)
    | Post

  datatype Event =
    | Forward(side: Side, move: Move)
    | Take(side: Side)
    | FallThrough
    | Deferred

  function Advance(f: Forwarder, m: Move): Forwarder {
    match m
    case Receive(p) =>
      if !f.stage.Receiving? then f
      else f.(received := f.received + [p],
              stage := if f.headed.On? && f.received == [] then Heading(p) else Sending(p))
    case ReceiveFails(e) => if f.stage.Receiving? then f.(stage := Posting(e)) else f
    case ForwardHeader(failure) =>
      if !f.stage.Heading? then f
      else if failure.None? then f.(sink := f.sink + [Header], stage := Sending(f.stage.payload))
      else f.(dropped := [f.stage.payload], stage := Posting(failure.value))
    case Send(failure) =>
      if !f.stage.Sending? then f
      else if failure.None? then f.(sink := f.sink + [Message(f.stage.payload)], stage := Receiving)
      else f.(dropped := [f.stage.payload], stage := Posting(failure.value))
    case Post =>
      if f.stage.Posting? && f.channel.None? then
        f.(channel := Some(f.stage.ending), posted := f.posted + [f.stage.ending], stage := Stopped)
      else f
  }

  function CloseSend(x: Pump): Pump {
    x.(s2c := x.s2c.(sink := x.s2c.sink + [HalfClose]))
  }

  // The text of an error inside the proxy's own status.
  function Text(e: Error): string {
    match e
    case StatusError(s) => s.message
    case PlainError(t) => t
  }

  function Wrapped(e: Error): Error {
    StatusError(Status(CODE_INTERNAL, "failed proxying s2c: " + Text(e)))
  }

  // One round of the select that takes the outcome of s2c.
  function TakeS2C(x: Pump): Pump
    requires x.main.Waiting? && x.s2c.channel.Some?
  {
    var y := x.(s2c := x.s2c.(channel := None));
    match x.s2c.channel.value
    case Eof =>
      var z := y.(main := Waiting(x.main.round + 1));
      if x.kind.Bidi? || x.kind.autoCloseSend.On? then CloseSend(z).(closes := z.closes + 1) else z
    case Failure(e) =>
      if x.kind.Bidi? then y.(main := Returning(Some(e)))
      else y.(cancelled := On, main := Returning(Some(Wrapped(e))))
  }

  function TakeC2S(x: Pump): Pump
    requires x.main.Waiting? && x.c2s.channel.Some?
  {
    var y := x.(c2s := x.c2s.(channel := None), trailerSet := if x.kind.Proxy? then On else Off);
    match x.c2s.channel.value
    case Eof => y.(main := Returning(None))
    case Failure(e) => y.(main := Returning(Some(e)))
  }

  function Step(x: Pump, e: Event): Pump {
    match e
    case Forward(S2C, m) => x.(s2c := Advance(x.s2c, m))
    case Forward(C2S, m) => x.(c2s := Advance(x.c2s, m))
    case Take(S2C) =>
      if x.main.Waiting? && x.main.round < 2 && x.s2c.channel.Some? then TakeS2C(x) else x
    case Take(C2S) =>
      if x.main.Waiting? && x.main.round < 2 && x.c2s.channel.Some? then TakeC2S(x) else x
    case FallThrough =>
      if x.main.Waiting? && x.main.round >= 2 then
        x.(main := Returning(
             if x.kind.Bidi? then None
             else Some(StatusError(Status(CODE_INTERNAL, "gRPC proxying should never reach this stage.")))))
      else x
    case Deferred =>
      if !x.main.Returning? then x
      else if x.kind.Bidi? then x.(main := Returned(x.main.result))
      else CloseSend(x).(main := Returned(x.main.result))
  }

  function Run(x: Pump, events: seq<Event>): Pump {
    if events == [] then x else Step(Run(x, events[..|events| - 1]), events[|events| - 1])
  }

  function Messages(acts: seq<Act>): seq<Payload> {
    if acts == [] then []
    else
      var last := acts[|acts| - 1];
      Messages(acts[..|acts| - 1]) + (if last.Message? then [last.payload] else [])
  }

  lemma MessagesAppend(acts: seq<Act>, a: Act)
    ensures Messages(acts + [a]) == Messages(acts) + (if a.Message? then [a.payload] else [])
  {
    assert (acts + [a])[..|acts|] == acts;
  }

  // What was received and not passed on: the message in hand, or the dropped one.
  function Rest(f: Forwarder): seq<Payload> {
    if f.stage.Heading? || f.stage.Sending? then [f.stage.payload] else f.dropped
  }

  // ---------------------------------------------------------------------
  // The invariant
  // ---------------------------------------------------------------------

  ghost predicate ForwarderInv(f: Forwarder) {
    && Messages(f.sink) + Rest(f) == f.received
    && |f.dropped| <= 1
    && (f.dropped != [] ==> f.stage.Posting? || f.stage.Stopped?)
    && |f.posted| <= 1
    && (f.stage.Stopped? <==> f.posted != [])
    && (f.channel.Some? ==> f.posted == [f.channel.value])
  }

  // The destination sees the header, if at all, once and before every message.
  ghost predicate HeaderInv(f: Forwarder) {
    && (forall i :: 0 <= i < |f.sink| ==> (f.sink[i].Header? <==> f.headed.On? && i == 0))
    && (f.headed.On? && f.sink != [] ==> f.received != [])
    && (f.stage.Heading? ==> f.headed.On? && f.sink == [])
    && (f.headed.On? && f.stage.Sending? ==> f.sink != [])
  }

  ghost predicate NoneCloses(acts: seq<Act>) {
    forall i :: 0 <= i < |acts| ==> !acts[i].HalfClose?
  }

  // Before the handler returns the outbound stream is half-closed at most once, by
  // the loop, after s2c stopped on EOF.
  ghost predicate LoopInv(x: Pump) {
    && NoneCloses(x.c2s.sink)
    && (x.main.Waiting? ==>
          && x.main.round <= 1
          && (x.main.round == 1 <==> x.s2c.stage.Stopped? && x.s2c.channel.None?)
          && (x.main.round == 1 ==> x.s2c.posted == [Eof])
          && (x.c2s.stage.Stopped? <==> x.c2s.channel.Some?))
    && x.closes <= 1
    && (x.closes == 1 ==> x.s2c.posted == [Eof] && x.s2c.stage.Stopped? && (x.main.Waiting? ==> x.main.round == 1))
    && (x.main.Waiting? && x.main.round == 1 && (x.kind.Bidi? || x.kind.autoCloseSend.On?) ==> x.closes == 1)
    && (!x.main.Returned? || x.kind.Bidi? ==>
          if x.closes == 0 then NoneCloses(x.s2c.sink)
          else
            && x.s2c.sink != [] && x.s2c.sink[|x.s2c.sink| - 1].HalfClose?
            && NoneCloses(x.s2c.sink[..|x.s2c.sink| - 1]))
  }

  // Why it returned.
  ghost predicate ResultInv(x: Pump) {
    (x.main.Returning? || x.main.Returned?) ==>
      || (x.c2s.posted == [Eof] && x.main.result == None)
      || (|x.c2s.posted| == 1 && x.c2s.posted[0].Failure? && x.main.result == Some(x.c2s.posted[0].error))
      || (|x.s2c.posted| == 1 && x.s2c.posted[0].Failure?
          && x.main.result == Some(if x.kind.Bidi? then x.s2c.posted[0].error else Wrapped(x.s2c.posted[0].error)))
  }

  ghost predicate EffectInv(x: Pump) {
    && (x.trailerSet.On? ==> x.kind.Proxy? && x.c2s.posted != [] && !x.main.Waiting?)
    && (x.cancelled.On? ==> x.kind.Proxy? && |x.s2c.posted| == 1 && x.s2c.posted[0].Failure? && !x.main.Waiting?)
    && (x.kind.Proxy? && !x.main.Waiting? ==> x.trailerSet.On? || x.cancelled.On?)
  }

  ghost predicate Inv(x: Pump) {
    && x.s2c.headed.Off? && (x.c2s.headed.On? <==> x.kind.Proxy?)
    && ForwarderInv(x.s2c) && ForwarderInv(x.c2s)
    && HeaderInv(x.c2s)
    && LoopInv(x) && ResultInv(x) && EffectInv(x)
  }

  lemma SendKeeps(f: Forwarder, failure: Option<Ending>)
    requires ForwarderInv(f) && f.stage.Sending?
    ensures ForwarderInv(Advance(f, Send(failure)))
  {
    MessagesAppend(f.sink, Message(f.stage.payload));
    assert Messages(f.sink) + [f.stage.payload] == f.received;
    if failure.None? {
      assert f.received + [] == f.received;
    } else {
      assert Advance(f, Send(failure)).dropped == [f.stage.payload];
    }
  }

  lemma ForwardHeaderKeeps(f: Forwarder, failure: Option<Ending>)
    requires ForwarderInv(f) && f.stage.Heading?
    ensures ForwarderInv(Advance(f, ForwardHeader(failure)))
  {
    MessagesAppend(f.sink, Header);
    assert Messages(f.sink) + [] == Messages(f.sink);
  }

  lemma ReceiveKeeps(f: Forwarder, m: Move)
    requires ForwarderInv(f) && f.stage.Receiving? && (m.Receive? || m.ReceiveFails?)
    ensures ForwarderInv(Advance(f, m))
  {
    assert f.dropped == [];
    assert Messages(f.sink) + [] == Messages(f.sink);
  }

  lemma ForwarderKeeps(f: Forwarder, m: Move)
    requires ForwarderInv(f)
    ensures ForwarderInv(Advance(f, m))
  {
    match f.stage
    case Receiving => if m.Receive? || m.ReceiveFails? { ReceiveKeeps(f, m); }
    case Heading(_) => if m.ForwardHeader? { ForwardHeaderKeeps(f, m.failure); }
    case Sending(_) => if m.Send? { SendKeeps(f, m.failure); }
    case Posting(_) =>
    case Stopped =>
  }

  lemma HeaderKeeps(f: Forwarder, m: Move)
    requires ForwarderInv(f) && HeaderInv(f)
    ensures HeaderInv(Advance(f, m))
  {
    match m
    case Receive(p) =>
      if f.sink == [] { assert Messages(f.sink) == []; }
    case ReceiveFails(_) =>
    case ForwardHeader(failure) =>
    case Send(failure) =>
    case Post =>
  }

  lemma ForwardS2CLoop(x: Pump, m: Move)
    requires ForwarderInv(x.s2c) && LoopInv(x)
    ensures LoopInv(Step(x, Forward(S2C, m)))
  {
    match x.s2c.stage
    case Receiving =>
    case Heading(_) =>
    case Sending(_) =>
    case Posting(_) =>
    case Stopped =>
  }

  lemma ForwardS2CResult(x: Pump, m: Move)
    requires ForwarderInv(x.s2c) && ResultInv(x) && EffectInv(x)
    ensures ResultInv(Step(x, Forward(S2C, m))) && EffectInv(Step(x, Forward(S2C, m)))
  {
    AdvanceEffects(x.s2c, m);
  }

  lemma ForwardS2CKeeps(x: Pump, m: Move)
    requires Inv(x)
    ensures Inv(Step(x, Forward(S2C, m)))
  {
    ForwarderKeeps(x.s2c, m);
    AdvanceEffects(x.s2c, m);
    ForwardS2CLoop(x, m);
    ForwardS2CResult(x, m);
  }

  lemma AdvanceEffects(f: Forwarder, m: Move)
    requires ForwarderInv(f)
    ensures f.sink <= Advance(f, m).sink && Advance(f, m).headed == f.headed
    ensures NoneCloses(f.sink) ==> NoneCloses(Advance(f, m).sink)
    ensures if f.stage.Posting? && m.Post? && f.channel.None? then
              Advance(f, m).posted == [f.stage.ending] && Advance(f, m).channel == Some(f.stage.ending)
            else
              Advance(f, m).posted == f.posted && Advance(f, m).channel == f.channel
  {}

  lemma ForwardC2SKeeps(x: Pump, m: Move)
    requires Inv(x)
    ensures Inv(Step(x, Forward(C2S, m)))
  {
    ForwarderKeeps(x.c2s, m);
    HeaderKeeps(x.c2s, m);
    AdvanceEffects(x.c2s, m);
    if x.c2s.stage.Posting? && m.Post? {} else {}
  }

  // Taking the outcome off the channel, and a half-close after it.
  lemma TakenForwarder(f: Forwarder)
    requires ForwarderInv(f)
    ensures ForwarderInv(f.(channel := None)) && ForwarderInv(f.(channel := None, sink := f.sink + [HalfClose]))
  {
    MessagesAppend(f.sink, HalfClose);
    assert Messages(f.sink) + [] == Messages(f.sink);
  }

  lemma TakeS2CForwarder(x: Pump)
    requires ForwarderInv(x.s2c) && x.main.Waiting? && x.s2c.channel.Some?
    ensures ForwarderInv(TakeS2C(x).s2c) && TakeS2C(x).c2s == x.c2s && TakeS2C(x).kind == x.kind
    ensures TakeS2C(x).s2c.headed == x.s2c.headed && TakeS2C(x).s2c.posted == x.s2c.posted
  {
    TakenForwarder(x.s2c);
  }

  lemma TakeS2CLoop(x: Pump)
    requires ForwarderInv(x.s2c) && LoopInv(x) && x.main.Waiting? && x.s2c.channel.Some?
    ensures LoopInv(TakeS2C(x))
  {
    if x.s2c.channel.value.Eof? { LastIsHalfClose(x.s2c.sink); }
  }

  lemma LastIsHalfClose(sink: seq<Act>)
    ensures (sink + [HalfClose])[|sink + [HalfClose]| - 1].HalfClose?
    ensures (sink + [HalfClose])[..|sink + [HalfClose]| - 1] == sink
  {}

  lemma TakeS2CResult(x: Pump)
    requires ForwarderInv(x.s2c) && ResultInv(x) && EffectInv(x) && x.main.Waiting? && x.s2c.channel.Some?
    ensures ResultInv(TakeS2C(x)) && EffectInv(TakeS2C(x))
  {}

  lemma TakeS2CKeeps(x: Pump)
    requires Inv(x) && x.main.Waiting? && x.s2c.channel.Some?
    ensures Inv(TakeS2C(x))
  {
    TakeS2CForwarder(x);
    TakeS2CLoop(x);
    TakeS2CResult(x);
  }

  lemma TakeC2SKeeps(x: Pump)
    requires Inv(x) && x.main.Waiting? && x.c2s.channel.Some?
    ensures Inv(TakeC2S(x))
  {}

  lemma ClosedForwarder(f: Forwarder)
    requires ForwarderInv(f)
    ensures ForwarderInv(f.(sink := f.sink + [HalfClose]))
  {
    MessagesAppend(f.sink, HalfClose);
    assert Messages(f.sink) + [] == Messages(f.sink);
  }

  lemma DeferredLoop(x: Pump)
    requires LoopInv(x) && x.main.Returning?
    ensures LoopInv(Step(x, Deferred))
  {
    if x.kind.Bidi? {} else {}
  }

  lemma DeferredResult(x: Pump)
    requires ResultInv(x) && EffectInv(x) && x.main.Returning?
    ensures ResultInv(Step(x, Deferred)) && EffectInv(Step(x, Deferred))
  {
    if x.kind.Bidi? {} else {}
  }

  lemma DeferredKeeps(x: Pump)
    requires Inv(x) && x.main.Returning?
    ensures Inv(Step(x, Deferred))
  {
    ClosedForwarder(x.s2c);
    DeferredLoop(x);
    DeferredResult(x);
  }

  // FallThrough is never enabled.
  lemma ReturnKeeps(x: Pump, e: Event)
    requires Inv(x) && (e.FallThrough? || e.Deferred?)
    ensures Inv(Step(x, e))
  {
    if e.FallThrough? {
      assert Step(x, e) == x;
    } else if x.main.Returning? {
      DeferredKeeps(x);
    }
  }

  lemma {:induction false} RunKeeps(kind: Kind, events: seq<Event>)
    ensures Inv(Run(Init(kind), events))
  {
    if events == [] {
    } else {
      var front, e := events[..|events| - 1], events[|events| - 1];
      RunKeeps(kind, front);
      var x := Run(Init(kind), front);
      match e
      case Forward(side, m) => if side.S2C? { ForwardS2CKeeps(x, m); } else { ForwardC2SKeeps(x, m); }
      case Take(S2C) => if x.main.Waiting? && x.s2c.channel.Some? { TakeS2CKeeps(x); }
      case Take(C2S) => if x.main.Waiting? && x.c2s.channel.Some? { TakeC2SKeeps(x); }
      case _ => ReturnKeeps(x, e);
    }
  }

  // ---------------------------------------------------------------------
  // What the pumps guarantee
  // ---------------------------------------------------------------------

  function Of(x: Pump, side: Side): Forwarder { if side.S2C? then x.s2c else x.c2s }

  // In the run, the stream `side` writes to answered SendHeader or SendMsg with
  // io.EOF, which the loop cannot tell from the source's own io.EOF.
  predicate DestinationEof(kind: Kind, events: seq<Event>, side: Side) {
    events != [] &&
    var front, e := events[..|events| - 1], events[|events| - 1];
    var f := Of(Run(Init(kind), front), side);
    || DestinationEof(kind, front, side)
    || (e == Forward(side, Send(Some(Eof))) && f.stage.Sending?)
    || (e == Forward(side, ForwardHeader(Some(Eof))) && f.stage.Heading?)
  }

  // The forwarder has ended with io.EOF.
  predicate EndedEof(f: Forwarder) { f.stage == Posting(Eof) || f.posted == [Eof] }

  // The forwarder has ended with io.EOF and a message dropped.
  predicate EofDropping(f: Forwarder) { EndedEof(f) && f.dropped != [] }

  lemma AdvanceDrops(f: Forwarder, m: Move)
    requires ForwarderInv(f)
    ensures EofDropping(Advance(f, m)) <==>
              || EofDropping(f)
              || (m == Send(Some(Eof)) && f.stage.Sending?)
              || (m == ForwardHeader(Some(Eof)) && f.stage.Heading?)
  {
    match f.stage
    case Receiving =>
    case Heading(_) => if m.ForwardHeader? && m.failure.Some? {} else {}
    case Sending(_) => if m.Send? && m.failure.Some? {} else {}
    case Posting(e) =>
      assert f.posted == [] && f.posted + [e] == [e];
      assert [e] == [Eof] <==> e == Eof by { assert [e][0] == e; }
    case Stopped =>
  }

  lemma OthersDropNothing(x: Pump, e: Event, side: Side)
    requires !(e.Forward? && e.side == side)
    ensures EofDropping(Of(Step(x, e), side)) == EofDropping(Of(x, side))
  {
    match e
    case Take(S2C) =>
    case Take(C2S) =>
    case Forward(_, _) =>
    case FallThrough =>
    case Deferred =>
  }

  lemma {:induction false} DroppedOnEof(kind: Kind, events: seq<Event>, side: Side)
    ensures DestinationEof(kind, events, side) <==> EofDropping(Of(Run(Init(kind), events), side))
  {
    if events != [] {
      var front, e := events[..|events| - 1], events[|events| - 1];
      DroppedOnEof(kind, front, side);
      RunKeeps(kind, front);
      var x := Run(Init(kind), front);
      if e.Forward? && e.side == side { AdvanceDrops(Of(x, side), e.move); } else { OthersDropNothing(x, e, side); }
    }
  }

  /** In every interleaving each forwarder posts at most one outcome, exactly one
      once it has stopped, never finding its channel full, and the code after the
      two rounds of select is unreachable in both pumps. */
  lemma TwoRoundsSuffice(kind: Kind, events: seq<Event>)
    ensures var x := Run(Init(kind), events);
            && (forall side :: |Of(x, side).posted| == (if Of(x, side).stage.Stopped? then 1 else 0))
            && (forall side :: Of(x, side).stage.Posting? ==> Of(x, side).channel.None?)
            && (x.main.Waiting? ==> x.main.round < 2)
  {
    RunKeeps(kind, events);
  }

  /** The handler cannot hang on its channels: until it has returned, a forwarder is
      inside a call on one of the two streams, or some step of the pump itself is
      enabled. */
  lemma NeverStuck(kind: Kind, events: seq<Event>)
    ensures var x := Run(Init(kind), events);
            || x.main.Returned?
            || (exists side :: Of(x, side).stage.Receiving? || Of(x, side).stage.Heading? || Of(x, side).stage.Sending?)
            || (exists side :: Step(x, Forward(side, Post)) != x)
            || (exists side :: Step(x, Take(side)) != x)
            || Step(x, Deferred) != x
  {
    var x := Run(Init(kind), events);
    RunKeeps(kind, events);
    if x.main.Waiting? && x.c2s.stage.Stopped? {
      assert TakeC2S(x).main != x.main;
      assert Step(x, Take(C2S)) != x;
    } else if x.main.Waiting? && x.c2s.stage.Posting? {
      assert Step(x, Forward(C2S, Post)).c2s.stage != x.c2s.stage;
      assert Step(x, Forward(C2S, Post)) != x;
    } else if x.main.Returning? {
      assert Step(x, Deferred).main != x.main;
    } else if x.main.Waiting? {
      assert Of(x, C2S) == x.c2s;
    }
  }

  /** What each destination is sent is what the source yielded, in order, short of
      the message in hand or, after a failure, of the one that could not be passed
      on. With io.EOF as the outcome nothing is missing, unless it was the
      destination that answered io.EOF: exactly then one message is dropped. */
  lemma ForwardedInOrder(kind: Kind, events: seq<Event>, side: Side)
    ensures var f := Of(Run(Init(kind), events), side);
            && Messages(f.sink) + Rest(f) == f.received && |Rest(f)| <= 1
            && (EndedEof(f) ==> (Messages(f.sink) == f.received <==> !DestinationEof(kind, events, side)))
  {
    var f := Of(Run(Init(kind), events), side);
    RunKeeps(kind, events);
    DroppedOnEof(kind, events, side);
    if EndedEof(f) && f.dropped == [] {
      assert Messages(f.sink) + [] == Messages(f.sink);
    }
  }

  // The loop has taken the forwarder's outcome.
  predicate Taken(f: Forwarder) { f.stage.Stopped? && f.channel.None? }

  /** The loop half-closes the outbound stream at most once and only after the
      caller's io.EOF, and does so when it takes that outcome, but for a proxy told not
      to; for pumpBidi nothing is sent on it afterwards and all the caller's messages
      were sent before, unless SendMsg itself answered io.EOF. */
  lemma HalfCloseAfterAll(kind: Kind, events: seq<Event>)
    ensures var x := Run(Init(kind), events);
            && x.closes <= 1
            && (x.closes == 1 ==>
                  && x.s2c.posted == [Eof]
                  && (Messages(x.s2c.sink) == x.s2c.received <==> !DestinationEof(kind, events, S2C)))
            && (kind.Bidi? ==>
                  forall i :: 0 <= i < |x.s2c.sink| ==>
                    (x.s2c.sink[i].HalfClose? <==> x.closes == 1 && i == |x.s2c.sink| - 1))
            && (x.main.Waiting? && Taken(x.s2c) && (kind.Bidi? || kind.autoCloseSend.On?) ==> x.closes == 1)
  {
    var x := Run(Init(kind), events);
    RunKeeps(kind, events);
    KindKept(kind, events);
    ForwardedInOrder(kind, events, S2C);
    if kind.Bidi? && x.closes == 1 {
      var last := |x.s2c.sink| - 1;
      assert forall i :: 0 <= i < last ==> x.s2c.sink[..last][i] == x.s2c.sink[i];
    }
  }

  lemma SinkGrows(f: Forwarder, m: Move)
    ensures f.sink <= Advance(f, m).sink
  {}

  lemma StepKeepsHalfClose(x: Pump, e: Event)
    requires HalfClose in x.s2c.sink || (x.kind.Proxy? && x.main.Returning? && e.Deferred?)
    ensures HalfClose in Step(x, e).s2c.sink
  {
    match e
    case Forward(S2C, m) => SinkGrows(x.s2c, m);
    case Forward(C2S, _) =>
    case Take(S2C) =>
    case Take(C2S) =>
    case FallThrough =>
    case Deferred => assert CloseSend(x).s2c.sink[|x.s2c.sink|] == HalfClose;
  }

  /** The proxy never leaves the outbound stream open: when its handler has returned,
      whatever the outcome, the stream has been half-closed. */
  lemma {:induction false} ReturnHalfCloses(kind: Kind, events: seq<Event>)
    requires kind.Proxy? && Run(Init(kind), events).main.Returned?
    ensures HalfClose in Run(Init(kind), events).s2c.sink
  {
    var front, e := events[..|events| - 1], events[|events| - 1];
    var x := Run(Init(kind), front);
    KindKept(kind, front);
    if x.main.Returned? { ReturnHalfCloses(kind, front); } else { ReturnsDeferred(x, e); }
    StepKeepsHalfClose(x, e);
  }

  lemma ReturnsDeferred(x: Pump, e: Event)
    requires !x.main.Returned? && Step(x, e).main.Returned?
    ensures e.Deferred? && x.main.Returning?
  {
    match e
    case Take(S2C) =>
    case Take(C2S) =>
    case _ =>
  }

  lemma {:induction false} KindKept(kind: Kind, events: seq<Event>)
    ensures Run(Init(kind), events).kind == kind
  {
    if events != [] { KindKept(kind, events[..|events| - 1]); }
  }

  /** What the handler returns: nil exactly when the outcome it took from c2s was
      io.EOF, and then the caller was sent everything the outbound stream yielded
      (unless the caller's stream answered io.EOF); otherwise a forwarder's error,
      which the proxy wraps as Internal when it comes from s2c, cancelling the
      outbound stream. */
  lemma ResultIsAnOutcome(kind: Kind, events: seq<Event>)
    requires !Run(Init(kind), events).main.Waiting?
    ensures var x := Run(Init(kind), events);
            var result := x.main.result;
            && (result.None? ==>
                  && x.c2s.posted == [Eof]
                  && (Messages(x.c2s.sink) == x.c2s.received <==> !DestinationEof(kind, events, C2S)))
            && (result.Some? ==>
                  || x.c2s.posted == [Failure(result.value)]
                  || (exists e :: x.s2c.posted == [Failure(e)]
                        && result.value == (if kind.Bidi? then e else Wrapped(e))))
            && (kind.Proxy? ==> x.trailerSet.On? || x.cancelled.On?)
  {
    var x := Run(Init(kind), events);
    RunKeeps(kind, events);
    KindKept(kind, events);
    ForwardedInOrder(kind, events, C2S);
    if x.main.result.Some? {
      if x.c2s.posted == [Failure(x.main.result.value)] {
      } else {
        assert x.s2c.posted == [Failure(x.s2c.posted[0].error)];
      }
    }
  }

  // ---------------------------------------------------------------------
  // The same, read off the events
  // ---------------------------------------------------------------------

  // What the two streams of a forwarder answered: the messages received, and the failure
  // of RecvMsg, Header, SendHeader or SendMsg that ended it.
  datatype Tale = Tale(received: seq<Payload>, end: Option<Ending>)

  function Told(t: Tale, f: Forwarder, m: Move): Tale {
    match m
    case Receive(p) => if f.stage.Receiving? then t.(received := t.received + [p]) else t
    case ReceiveFails(e) => if f.stage.Receiving? then t.(end := Some(e)) else t
    case ForwardHeader(failure) => if f.stage.Heading? && failure.Some? then t.(end := failure) else t
    case Send(failure) => if f.stage.Sending? && failure.Some? then t.(end := failure) else t
    case Post => t
  }

  function TaleOf(kind: Kind, events: seq<Event>, side: Side): Tale {
    if events == [] then Tale([], None)
    else
      var front, e := events[..|events| - 1], events[|events| - 1];
      var t := TaleOf(kind, front, side);
      if e.Forward? && e.side == side then Told(t, Of(Run(Init(kind), front), side), e.move) else t
  }

  // The forwarder knows its tale.
  predicate Knows(f: Forwarder, t: Tale) {
    && f.received == t.received
    && (match f.stage
        case Posting(e) => t.end == Some(e) && f.posted == []
        case Stopped => t.end.Some? && f.posted == [t.end.value]
        case _ => t.end.None? && f.posted == [])
  }

  lemma AdvanceTells(f: Forwarder, m: Move, t: Tale)
    requires Knows(f, t)
    ensures Knows(Advance(f, m), Told(t, f, m))
  {
    match f.stage
    case Receiving =>
    case Heading(_) => if m.ForwardHeader? && m.failure.Some? {} else {}
    case Sending(_) => if m.Send? && m.failure.Some? {} else {}
    case Posting(e) => assert f.posted + [e] == [e];
    case Stopped =>
  }

  lemma OthersTellNothing(x: Pump, e: Event, side: Side)
    requires !(e.Forward? && e.side == side)
    ensures var f, f' := Of(x, side), Of(Step(x, e), side);
            f'.received == f.received && f'.stage == f.stage && f'.posted == f.posted
  {
    match e
    case Take(S2C) =>
    case Take(C2S) =>
    case Forward(_, _) =>
    case FallThrough =>
    case Deferred =>
  }

  lemma {:induction false} TaleIsKnown(kind: Kind, events: seq<Event>, side: Side)
    ensures Knows(Of(Run(Init(kind), events), side), TaleOf(kind, events, side))
  {
    if events != [] {
      var front, e := events[..|events| - 1], events[|events| - 1];
      TaleIsKnown(kind, front, side);
      var x := Run(Init(kind), front);
      if e.Forward? && e.side == side {
        AdvanceTells(Of(x, side), e.move, TaleOf(kind, front, side));
      } else {
        OthersTellNothing(x, e, side);
      }
    }
  }

  // The status the proxy makes of an error of the caller's stream, or of sending on.
  predicate IsWrapped(r: Error, e: Error) {
    && r.StatusError? && r.status.code == 13
    && r.status.message == "failed proxying s2c: " + (if e.StatusError? then e.status.message else e.text)
  }

  /** What the handler returns, told by the streams themselves: nil means that c2s ended
      with io.EOF; an error is the one c2s ended with, or the one s2c ended with, which
      the proxy turns into Internal, naming its text, and for which it cancels the
      outbound stream. */
  lemma ResultIsTold(kind: Kind, events: seq<Event>)
    requires !Run(Init(kind), events).main.Waiting?
    ensures var x := Run(Init(kind), events);
            var s2c, c2s := TaleOf(kind, events, S2C), TaleOf(kind, events, C2S);
            match x.main.result
            case None => c2s.end == Some(Eof)
            case Some(r) =>
              || c2s.end == Some(Failure(r))
              || (s2c.end.Some? && s2c.end.value.Failure?
                  && (if kind.Bidi? then r == s2c.end.value.error
                      else IsWrapped(r, s2c.end.value.error) && (x.cancelled.On? || x.trailerSet.On?)))
  {
    ResultIsAnOutcome(kind, events);
    var x := Run(Init(kind), events);
    if x.main.result.None? {
      PostedIsTold(kind, events, C2S, Eof);
    } else if x.c2s.posted == [Failure(x.main.result.value)] {
      PostedIsTold(kind, events, C2S, Failure(x.main.result.value));
    } else {
      var e :| x.s2c.posted == [Failure(e)] && x.main.result.value == (if kind.Bidi? then e else Wrapped(e));
      PostedIsTold(kind, events, S2C, Failure(e));
    }
  }

  lemma PostedIsTold(kind: Kind, events: seq<Event>, side: Side, end: Ending)
    requires Of(Run(Init(kind), events), side).posted == [end]
    ensures TaleOf(kind, events, side).end == Some(end)
  {
    TaleIsKnown(kind, events, side);
    var f := Of(Run(Init(kind), events), side);
    assert f.posted[0] == end;
  }

  /** What each destination is sent are the messages its source yielded, in order, short
      of one at most; the loop half-closes the outbound stream only after s2c ended with
      io.EOF. */
  lemma MessagesAreTold(kind: Kind, events: seq<Event>, side: Side)
    ensures var x := Run(Init(kind), events);
            var sent, tale := Messages(Of(x, side).sink), TaleOf(kind, events, side);
            && sent <= tale.received && |tale.received| <= |sent| + 1
            && (tale.end == Some(Eof) && !DestinationEof(kind, events, side) ==> sent == tale.received)
            && (x.closes == 1 ==> TaleOf(kind, events, S2C).end == Some(Eof))
  {
    TaleIsKnown(kind, events, side);
    TaleIsKnown(kind, events, S2C);
    ForwardedInOrder(kind, events, side);
    HalfCloseAfterAll(kind, events);
  }

  /** The proxy sends the outbound stream's header to the caller exactly once,
      before the first message; pumpBidi never sends one. */
  lemma HeaderFirst(kind: Kind, events: seq<Event>, i: nat)
    requires i < |Run(Init(kind), events).c2s.sink|
    ensures Run(Init(kind), events).c2s.sink[i].Header? <==> kind.Proxy? && i == 0
  {
    RunKeeps(kind, events);
    KindKept(kind, events);
  }

  // What the streams answer by contract: io.EOF from SendMsg is how the client stream
  // of a gRPC connection says that the RPC is over; no server stream and no stream of
  // an nrpc client answers it, and SendHeader and Header never do.
  ghost predicate Conforms(kind: Kind, events: seq<Event>) {
    forall k :: 0 <= k < |events| ==> Contractual(kind, events[k])
  }

  predicate Contractual(kind: Kind, e: Event) {
    e.Forward? ==>
      && e.move != ForwardHeader(Some(Eof))
      && (e.move == Send(Some(Eof)) ==> e.side.S2C? && kind.Proxy? && kind.overGrpc.On?)
  }

  lemma {:induction false} ContractExcludes(kind: Kind, events: seq<Event>, side: Side)
    requires Conforms(kind, events)
    ensures DestinationEof(kind, events, side) ==> side.S2C? && kind.Proxy? && kind.overGrpc.On?
  {
    if events != [] {
      var front, e := events[..|events| - 1], events[|events| - 1];
      assert Contractual(kind, e);
      assert forall k :: 0 <= k < |front| ==> front[k] == events[k];
      ContractExcludes(kind, front, side);
    }
  }

  /** With streams that keep their contracts: nil is returned only after the outbound
      stream's io.EOF, with everything it yielded passed on to the caller in order; and
      the loop half-closes the outbound stream only after the caller's io.EOF, with all
      the caller's messages sent before, unless that stream is one of a gRPC
      connection and has itself answered SendMsg with io.EOF. */
  lemma NilMeansEverything(kind: Kind, events: seq<Event>)
    requires Conforms(kind, events)
    ensures var x := Run(Init(kind), events);
            && (!x.main.Waiting? && x.main.result.None? ==>
                  x.c2s.posted == [Eof] && Messages(x.c2s.sink) == x.c2s.received)
            && (x.closes == 1 && !(kind.Proxy? && kind.overGrpc.On?) ==>
                  x.s2c.posted == [Eof] && Messages(x.s2c.sink) == x.s2c.received)
  {
    ContractExcludes(kind, events, S2C);
    ContractExcludes(kind, events, C2S);
    HalfCloseAfterAll(kind, events);
    if !Run(Init(kind), events).main.Waiting? { ResultIsAnOutcome(kind, events); }
  }

  /** That exception is possible: the proxy takes io.EOF from the gRPC client stream's
      SendMsg for the caller's own, and half-closes with the caller's message unsent. */
  lemma HalfCloseWithALoss(p: Payload) returns (events: seq<Event>)
    ensures Conforms(Proxy(On, On), events)
    ensures var x := Run(Init(Proxy(On, On)), events);
            && x.main == Waiting(1) && x.closes == 1 && x.s2c.received == [p]
            && x.s2c.sink == [HalfClose] && Messages(x.s2c.sink) == []
  {
    events := [Forward(S2C, Receive(p)), Forward(S2C, Send(Some(Eof))), Forward(S2C, Post), Take(S2C)];
    var x0 := Init(Proxy(On, On));
    var f := x0.s2c;
    var f1 := f.(received := [p], stage := Sending(p));
    var f2 := f1.(dropped := [p], stage := Posting(Eof));
    var f3 := f2.(channel := Some(Eof), posted := [Eof], stage := Stopped);
    assert Step(x0, events[0]) == x0.(s2c := f1);
    assert Step(x0.(s2c := f1), events[1]) == x0.(s2c := f2);
    assert Step(x0.(s2c := f2), events[2]) == x0.(s2c := f3);
    RunFour(x0, events);
    assert Step(x0.(s2c := f3), Take(S2C)).s2c.sink == [HalfClose];
    MessagesAppend([], HalfClose);
  }

  lemma RunFour(x: Pump, es: seq<Event>)
    requires |es| == 4
    ensures Run(x, es) == Step(Step(Step(Step(x, es[0]), es[1]), es[2]), es[3])
  {
    assert forall k :: 0 < k <= 4 ==> es[..k][..k - 1] == es[..k - 1];
    assert es[..4] == es;
    assert Run(x, es[..0]) == x;
    assert Run(x, es[..1]) == Step(x, es[0]);
    assert Run(x, es[..2]) == Step(Run(x, es[..1]), es[1]);
    assert Run(x, es[..3]) == Step(Run(x, es[..2]), es[2]);
  }
}
