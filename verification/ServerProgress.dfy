// Progress of a stream whose handler reads until EOF (pkg/rpc/server.go): the
// blocking hand-over through a buffer of one never gets stuck.
module ServerProgress {
  import opened Wire
  import opened ServerStreams
  import opened ServerSystem
  import opened ServerTheorems

  // The steps that move a payload one place closer to the handler, and the final
  // io.EOF. Pongs the worker publishes on the way may or may not get through.
  predicate IsDelivery(e: Event, i: nat) {
    || e.Lookup?
    || e.Enqueue?
    || (e.At? && e.target == i
        && (e.local.WorkerTake? || e.local.WorkerDeliver? || e.local.CallRecvMsg? || e.local.CallRecvEof?))
  }

  // The client has half-closed; the stream is live and mapped; its handler only
  // reads; nothing cancels.
  ghost predicate Reading(y: System, i: nat) {
    Inv(y) && OneCall(y.sent) && OnlyReading(y, i)
  }

  ghost predicate OnlyReading(y: System, i: nat) {
    && i < |y.incs| && y.mapped == Some(i) && y.taken <= |y.sent|
    && y.registered.On? && y.subscribed.On? && y.stop.NotStopping?
    && HasCall(y.incs[i]) && y.incs[i].s.live.On?
    && y.incs[i].handler.Idle? && (y.incs[i].worker.Idle? || y.incs[i].worker.Sending?)
    && y.incs[i].first <= |y.sent| && HalfClosed(y.sent[y.incs[i].first..]).On?
    && (forall n :: 0 <= n < |y.sent| && y.sent[n].End? ==> IsOk(y.sent[n].status))
  }

  // Every frame weighs more the further it is from the handler.
  function Weight(y: System, i: nat): nat
    requires i < |y.incs| && y.taken <= |y.sent|
  {
    var inc := y.incs[i];
    5 * (|y.sent| - y.taken) + (if y.dispatcher.Some? then 4 else 0) + 3 * |inc.s.inbox|
    + (if inc.worker.Sending? then 2 else 0) + |inc.s.recv|
  }

  // What the client sent, and where the stream's part of it starts.
  predicate Kept(y: System, y': System, i: nat) {
    i < |y.incs| && i < |y'.incs| && y'.sent == y.sent && y'.incs[i].first == y.incs[i].first
  }

  // A step from y to y' that brought the payloads nearer to the handler.
  ghost predicate Nearer(y: System, y': System, i: nat) {
    && i < |y.incs| && y.taken <= |y.sent|
    && Reading(y', i) && Kept(y, y', i) && Weight(y', i) < Weight(y, i)
  }

  lemma LookupDelivers(y: System, i: nat)
    requires Reading(y, i) && y.dispatcher.None? && y.taken < |y.sent|
    ensures Nearer(y, Step(y, Lookup), i)
  {
    StepKeeps(y, Lookup);
  }

  lemma EnqueueDelivers(y: System, i: nat)
    requires Reading(y, i) && y.dispatcher.Some? && |y.incs[i].s.inbox| < INBOX_CAPACITY
    ensures Nearer(y, Step(y, Enqueue), i)
  {
    StepKeeps(y, Enqueue);
    assert y.dispatcher.value.target == i;
    EnqueueWeighs(y, i);
  }

  lemma EnqueueWeighs(y: System, i: nat)
    requires OnlyReading(y, i) && y.dispatcher.Some? && y.dispatcher.value.target == i
    requires |y.incs[i].s.inbox| < INBOX_CAPACITY
    ensures var y' := Step(y, Enqueue);
            OnlyReading(y', i) && Kept(y, y', i) && Weight(y', i) < Weight(y, i)
  {}

  lemma TakeDelivers(y: System, i: nat, ok: Flag)
    requires Reading(y, i) && y.incs[i].worker.Idle? && y.incs[i].s.inbox != []
    ensures Nearer(y, Step(y, At(i, WorkerTake(ok))), i)
  {
    StepKeeps(y, At(i, WorkerTake(ok)));
    HeadIsHarmless(y, i);
    TakeWeighs(y, i, ok);
  }

  // The next frame is not the Call, nor an error End.
  lemma HeadIsHarmless(y: System, i: nat)
    requires Reading(y, i) && y.incs[i].s.inbox != []
    ensures var r := y.incs[i].s.inbox[0].body; !r.Call? && (r.End? ==> IsOk(r.status))
  {
    HeadNumber(y, i);
    CallTakenOnce(y, i);
  }

  lemma TakeWeighs(y: System, i: nat, ok: Flag)
    requires OnlyReading(y, i) && y.incs[i].worker.Idle? && y.incs[i].s.inbox != []
    requires var r := y.incs[i].s.inbox[0].body; !r.Call? && (r.End? ==> IsOk(r.status))
    ensures var y' := Step(y, At(i, WorkerTake(ok)));
            OnlyReading(y', i) && Kept(y, y', i) && Weight(y', i) < Weight(y, i)
  {
    TakeWhileReading(y.incs[i], y.registered, ok);
  }

  lemma TakeWhileReading(inc: Inc, registered: Flag, ok: Flag)
    requires inc.s.inbox != [] && registered.On? && inc.worker.Idle? && !inc.s.inbox[0].body.Call?
    requires inc.s.inbox[0].body.End? ==> IsOk(inc.s.inbox[0].body.status)
    ensures var inc' := ProcessFrame(Take(inc), registered, inc.s.inbox[0].body, ok);
            && inc'.s.live == inc.s.live && inc'.handler == inc.handler && inc'.first == inc.first
            && (HasCall(inc) ==> HasCall(inc'))
            && inc'.s.inbox == inc.s.inbox[1..] && inc'.s.recv == inc.s.recv
            && (inc'.worker.Idle? || inc'.worker.Sending?)
  {
    TakePublishes(inc, registered, ok);
    match inc.s.inbox[0].body
    case Data(p) =>
    case End(status) =>
    case Ping(ts) =>
    case Unknown =>
  }

  lemma HandOverDelivers(y: System, i: nat)
    requires Reading(y, i) && y.incs[i].worker.Sending? && y.incs[i].s.recv == []
    ensures Nearer(y, Step(y, At(i, WorkerDeliver)), i)
  {
    StepKeeps(y, At(i, WorkerDeliver));
    HandOverWeighs(y, i);
  }

  lemma HandOverWeighs(y: System, i: nat)
    requires OnlyReading(y, i) && y.incs[i].worker.Sending? && y.incs[i].s.recv == []
    ensures var y' := Step(y, At(i, WorkerDeliver));
            OnlyReading(y', i) && Kept(y, y', i) && Weight(y', i) < Weight(y, i)
  {}

  lemma RecvDelivers(y: System, i: nat)
    requires Reading(y, i) && y.incs[i].s.recv != []
    ensures Nearer(y, Step(y, At(i, CallRecvMsg)), i)
  {
    StepKeeps(y, At(i, CallRecvMsg));
    RecvWeighs(y, i);
  }

  lemma RecvWeighs(y: System, i: nat)
    requires OnlyReading(y, i) && y.incs[i].s.recv != []
    ensures var y' := Step(y, At(i, CallRecvMsg));
            OnlyReading(y', i) && Kept(y, y', i) && Weight(y', i) < Weight(y, i)
  {}

  lemma EofKeepsReading(y: System, i: nat)
    requires Reading(y, i)
    ensures Reading(Step(y, At(i, CallRecvEof)), i) && Kept(y, Step(y, At(i, CallRecvEof)), i)
  {
    StepKeeps(y, At(i, CallRecvEof));
    EofOnlyReading(y, i);
  }

  lemma EofOnlyReading(y: System, i: nat)
    requires OnlyReading(y, i)
    ensures OnlyReading(Step(y, At(i, CallRecvEof)), i) && Kept(y, Step(y, At(i, CallRecvEof)), i)
  {
    var inc := y.incs[i];
    var inc' := LocalStep(inc, y.registered, y.nid, CallRecvEof);
    assert inc' == inc || inc' == inc.(sawEof := On);
    assert Step(y, At(i, CallRecvEof)) == y.(incs := y.incs[i := inc']);
  }

  /** In any order the delivery steps are scheduled, each one that does anything
      but report EOF brings the payloads closer to the handler. */
  lemma DeliveryLowers(y: System, i: nat, e: Event)
    requires Reading(y, i) && IsDelivery(e, i)
    ensures Reading(Step(y, e), i) && Kept(y, Step(y, e), i)
    ensures Step(y, e) == y || Nearer(y, Step(y, e), i) || e == At(i, CallRecvEof)
  {
    match e
    case Lookup =>
      if y.dispatcher.None? && y.taken < |y.sent| { LookupDelivers(y, i); } else { LookupIdle(y); }
    case Enqueue =>
      if y.dispatcher.Some? && |y.incs[i].s.inbox| < INBOX_CAPACITY {
        EnqueueDelivers(y, i);
      } else {
        EnqueueIdle(y, i);
      }
    case At(_, local) =>
      AtDelivers(y, i, local);
  }

  lemma LookupIdle(y: System)
    requires y.dispatcher.Some? || y.taken >= |y.sent|
    ensures Step(y, Lookup) == y
  {}

  lemma EnqueueIdle(y: System, i: nat)
    requires DispatchInv(y) && y.mapped == Some(i) && i < |y.incs|
    requires y.dispatcher.None? || |y.incs[i].s.inbox| >= INBOX_CAPACITY
    ensures Step(y, Enqueue) == y
  {}

  lemma AtDelivers(y: System, i: nat, local: Local)
    requires Reading(y, i) && IsDelivery(At(i, local), i)
    ensures var y' := Step(y, At(i, local));
            && Reading(y', i) && Kept(y, y', i)
            && (y' == y || Nearer(y, y', i) || local == CallRecvEof)
  {
    var inc := y.incs[i];
    match local
    case WorkerTake(ok) =>
      if inc.worker.Idle? && inc.s.inbox != [] { TakeDelivers(y, i, ok); } else { NothingHappens(y, i, local); }
    case WorkerDeliver =>
      if inc.worker.Sending? && inc.s.recv == [] { HandOverDelivers(y, i); } else { NothingHappens(y, i, local); }
    case CallRecvMsg =>
      if inc.s.recv != [] { RecvDelivers(y, i); } else { NothingHappens(y, i, local); }
    case CallRecvEof => EofKeepsReading(y, i);
  }

  lemma NothingHappens(y: System, i: nat, local: Local)
    requires i < |y.incs| && LocalStep(y.incs[i], y.registered, y.nid, local) == y.incs[i]
    requires !local.WorkerStep? && !local.HandlerStep?
    ensures Step(y, At(i, local)) == y
  {
    assert y.incs[i := y.incs[i]] == y.incs;
  }

  // A delivery step that is enabled.
  function NextDelivery(y: System, i: nat): Event
    requires i < |y.incs|
  {
    var inc := y.incs[i];
    if inc.s.recv != [] then At(i, CallRecvMsg)
    else if inc.worker.Sending? then At(i, WorkerDeliver)
    else if inc.s.inbox != [] then At(i, WorkerTake(On))
    else if y.dispatcher.Some? then Enqueue
    else if y.taken < |y.sent| then Lookup
    else At(i, CallRecvEof)
  }

  /** The stream is never stuck: until EOF is reported some delivery step is
      enabled, and it lowers the weight or reports EOF. */
  lemma NeverStuck(y: System, i: nat)
    requires Reading(y, i) && y.incs[i].sawEof.Off?
    ensures IsDelivery(NextDelivery(y, i), i)
    ensures Nearer(y, Step(y, NextDelivery(y, i)), i) || AtEof(y, Step(y, NextDelivery(y, i)), i)
  {
    var inc := y.incs[i];
    if inc.s.recv != [] { RecvDelivers(y, i); }
    else if inc.worker.Sending? { HandOverDelivers(y, i); }
    else if inc.s.inbox != [] { TakeDelivers(y, i, On); }
    else if y.dispatcher.Some? { EnqueueDelivers(y, i); }
    else if y.taken < |y.sent| { LookupDelivers(y, i); }
    else { DrainedReportsEof(y, i); }
  }

  ghost predicate AtEof(y: System, y': System, i: nat) {
    i < |y'.incs| && Reading(y', i) && Kept(y, y', i) && y'.incs[i].sawEof.On?
  }

  lemma DrainedReportsEof(y: System, i: nat)
    requires Reading(y, i) && y.incs[i].s.inbox == [] && y.dispatcher.None? && y.taken == |y.sent|
    requires y.incs[i].s.recv == []
    ensures AtEof(y, Step(y, At(i, CallRecvEof)), i)
  {
    EofKeepsReading(y, i);
    DrainedMeansClosed(y, i);
    EofReported(y, i);
  }

  lemma EofReported(y: System, i: nat)
    requires i < |y.incs| && y.incs[i].handler.Idle? && y.incs[i].s.recv == [] && y.incs[i].s.recvOpen.Off?
    ensures Step(y, At(i, CallRecvEof)).incs[i].sawEof.On?
  {}

  // When every frame has been processed, the receive channel is closed.
  lemma DrainedMeansClosed(y: System, i: nat)
    requires Reading(y, i) && y.incs[i].s.inbox == [] && y.dispatcher.None? && y.taken == |y.sent|
    ensures y.incs[i].s.recvOpen.Off?
  {
    var inc := y.incs[i];
    LiveStretch(y, i);
    assert IncInv(inc, y.registered);
    assert inc.done == inc.enq;
    assert y.sent[inc.first..] == Bodies(inc.done);
  }

  // ---------------------------------------------------------------------
  // Every schedule
  // ---------------------------------------------------------------------

  ghost predicate Deliveries(events: seq<Event>, i: nat) {
    forall k :: 0 <= k < |events| ==> IsDelivery(events[k], i)
  }

  // Every step of the schedule changes the state.
  ghost predicate Effective(y: System, events: seq<Event>) {
    forall k :: 0 <= k < |events| ==> Run(y, events[..k + 1]) != Run(y, events[..k])
  }

  // No delivery step changes the state any more.
  ghost predicate Exhausted(y: System, i: nat) {
    forall e :: IsDelivery(e, i) ==> Step(y, e) == y
  }

  // The weight, and the io.EOF not reported yet.
  function Remaining(y: System, i: nat): nat
    requires i < |y.incs| && y.taken <= |y.sent|
  {
    Weight(y, i) + (if y.incs[i].sawEof.Off? then 1 else 0)
  }

  lemma EofStays(y: System, i: nat, e: Event)
    requires OnlyReading(y, i) && IsDelivery(e, i) && i < |Step(y, e).incs|
    ensures y.incs[i].sawEof.On? ==> Step(y, e).incs[i].sawEof.On?
  {
    if e.At? {
      var inc := y.incs[i];
      match e.local
      case WorkerTake(ok) => if inc.s.inbox != [] { TakeKeepsEof(inc, y.registered, ok); }
      case WorkerDeliver =>
      case CallRecvMsg =>
      case CallRecvEof =>
    }
  }

  lemma TakeKeepsEof(inc: Inc, registered: Flag, ok: Flag)
    requires inc.s.inbox != []
    ensures ProcessFrame(Take(inc), registered, inc.s.inbox[0].body, ok).sawEof == inc.sawEof
  {
    match inc.s.inbox[0].body
    case Call(_) =>
    case Data(_) =>
    case End(_) =>
    case Ping(_) =>
    case Unknown =>
  }

  lemma StepCounts(y: System, i: nat, e: Event)
    requires Reading(y, i) && IsDelivery(e, i) && Step(y, e) != y
    ensures Reading(Step(y, e), i) && Kept(y, Step(y, e), i) && Remaining(Step(y, e), i) < Remaining(y, i)
  {
    DeliveryLowers(y, i, e);
    EofStays(y, i, e);
    if e == At(i, CallRecvEof) { EofCounts(y, i); }
  }

  lemma EofCounts(y: System, i: nat)
    requires OnlyReading(y, i) && Step(y, At(i, CallRecvEof)) != y
    ensures var y' := Step(y, At(i, CallRecvEof));
            i < |y'.incs| && y'.taken == y.taken && y'.sent == y.sent && Remaining(y', i) < Remaining(y, i)
  {
    var inc := y.incs[i];
    var inc' := LocalStep(inc, y.registered, y.nid, CallRecvEof);
    if inc.sawEof.On? {
      assert inc' == inc;
      NothingHappens(y, i, CallRecvEof);
    }
  }

  lemma {:induction false} ScheduleCounts(y: System, i: nat, events: seq<Event>)
    requires Reading(y, i) && Deliveries(events, i) && Effective(y, events)
    ensures var y' := Run(y, events);
            Reading(y', i) && Kept(y, y', i) && |events| + Remaining(y', i) <= Remaining(y, i)
  {
    if events != [] {
      var front, last := events[..|events| - 1], events[|events| - 1];
      EffectiveFront(y, events);
      ScheduleCounts(y, i, front);
      StepCounts(Run(y, front), i, last);
    }
  }

  lemma EffectiveFront(y: System, events: seq<Event>)
    requires Effective(y, events) && events != []
    ensures var front, last := events[..|events| - 1], events[|events| - 1];
            Effective(y, front) && Step(Run(y, front), last) != Run(y, front)
  {
    var front := events[..|events| - 1];
    assert events[..|front| + 1] == events;
    forall k | 0 <= k < |front| ensures Run(y, front[..k + 1]) != Run(y, front[..k]) {
      assert front[..k + 1] == events[..k + 1] && front[..k] == events[..k];
    }
  }

  /** A reading handler gets everything, whatever the schedule: delivery steps that
      each change the state are at most the weight plus one; and once none of them
      changes it any more, io.EOF has been reported and the handler has received
      exactly what was sent, from the creation of the stream, before the half-close. */
  lemma EveryScheduleDelivers(y: System, i: nat, events: seq<Event>)
    requires Reading(y, i) && Deliveries(events, i) && Effective(y, events)
    ensures |events| <= Weight(y, i) + 1
    ensures Exhausted(Run(y, events), i) ==>
              && AtEof(y, Run(y, events), i)
              && Run(y, events).incs[i].got == SentBeforeEnd(y.sent[y.incs[i].first..])
  {
    ScheduleCounts(y, i, events);
    var y' := Run(y, events);
    if Exhausted(y', i) {
      ExhaustedMeansEof(y', i);
      EofMeansEverything(y', i);
    }
  }

  lemma ExhaustedMeansEof(y: System, i: nat)
    requires Reading(y, i) && Exhausted(y, i)
    ensures y.incs[i].sawEof.On?
  {
    if y.incs[i].sawEof.Off? {
      NeverStuck(y, i);
      assert Step(y, NextDelivery(y, i)) == y;
    }
  }
}
