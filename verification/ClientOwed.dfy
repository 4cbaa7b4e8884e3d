// What a client stream owes (pkg/rpc/client.go): its teardown once it is due, the reason
// in the End it reports, and a stats report of every payload.
module ClientOwed {
  import opened Wire
  import opened ClientStreams
  import opened ClientTheorems
  import opened ClientSends

  // ---------------------------------------------------------------------
  // Teardown
  // ---------------------------------------------------------------------

  function EndSeen(rs: seq<Response>): Flag {
    if rs == [] then Off else if rs[|rs| - 1].Finish? then On else EndSeen(rs[..|rs| - 1])
  }

  lemma EndSeenAppend(rs: seq<Response>, r: Response)
    ensures EndSeen(rs + [r]) == if r.Finish? then On else EndSeen(rs)
  {
    assert (rs + [r])[..|rs|] == rs;
  }

  // Whoever has reason to tear the stream down is in done(), or it is closed; and the
  // reason of pongMonitor is in endErr, and in the End it reported.
  ghost predicate OwedAs(c: Client, timedOut: Flag, found: Flag, ended: Flag, trace: StatPhase) {
    && (c.watcher.HelperExited? ==> c.closed.On?)
    && (c.monitor.HelperExited? ==> c.closed.On? || c.live.Off?)
    && (timedOut.On? ==> c.monitor.WritingEnd? || c.monitor.InDone? || (c.monitor.HelperExited? && c.closed.On?))
    && (found.On? ==> c.closer.InDone? || c.closed.On?)
    && (ended.On? ==> c.reader.ReaderInDone? || c.closed.On?)
    && (c.monitor.WritingEnd? || c.monitor.InDone? ==> timedOut.On?)
    && (timedOut.On? ==> c.endErr.Some?)
    && (c.winner == Some(TheMonitor) ==>
          timedOut.On? && (c.stage >= DONE_REPORTED ==> trace.Closed? && trace.error.Some?))
  }

  ghost predicate OwedInv(c: Client, a: Asked) {
    OwedAs(c, a.timedOut, a.found, EndSeen(c.processed), StatPhaseOf(c.stats))
  }

  // What OwedAs looks at is the same.
  predicate SameDebts(c: Client, c': Client) {
    && c'.watcher == c.watcher && c'.monitor == c.monitor && c'.closer == c.closer && c'.reader == c.reader
    && c'.closed == c.closed && c'.endErr == c.endErr && c'.winner == c.winner && c'.stage == c.stage
    && (c.live.Off? ==> c'.live.Off?)
  }

  lemma DebtsKept(c: Client, c': Client, timedOut: Flag, found: Flag, ended: Flag, trace: StatPhase, trace': StatPhase)
    requires OwedAs(c, timedOut, found, ended, trace) && SameDebts(c, c')
    requires || trace' == trace || c.stage < DONE_REPORTED
             || (trace.Closed? && trace'.Closed? && trace'.error == trace.error)
    ensures OwedAs(c', timedOut, found, ended, trace')
  {}

  lemma TakeOwes(c: Client, timedOut: Flag, found: Flag, ended: Flag, trace: StatPhase)
    requires OwedAs(c, timedOut, found, ended, trace) && c.reader.Reading? && c.msgCh != []
    ensures OwedAs(Step(c, ReaderTake), timedOut, found, if c.msgCh[0].Finish? then On else ended, trace)
  {
    TakeChanges(c);
  }

  lemma TakeChanges(c: Client)
    requires c.reader.Reading? && c.msgCh != []
    ensures var c' := Step(c, ReaderTake);
            && c'.watcher == c.watcher && c'.monitor == c.monitor && c'.closer == c.closer && c'.closed == c.closed
            && c'.winner == c.winner && c'.stage == c.stage && (c.endErr.Some? ==> c'.endErr.Some?)
            && c'.live == c.live
            && (c.msgCh[0].Finish? ==> c'.reader.ReaderInDone?)
  {
    match c.msgCh[0]
    case Begin(_, _) =>
    case Reply(_) =>
    case Finish(status, _) => if IsOk(status) {} else {}
    case Pong(_) =>
    case Garbled =>
  }

  lemma LeaveOwes(c: Client, t: Caller, timedOut: Flag, found: Flag, ended: Flag, trace: StatPhase)
    requires OwedAs(c, timedOut, found, ended, trace) && c.closed.On? && IsInDone(c, t)
    ensures OwedAs(LeaveDone(c, t), timedOut, found, ended, trace)
  {
    match t
    case TheReader => if c.reader.err.Some? {} else {}
    case TheWatcher =>
    case TheMonitor =>
    case TheCloser =>
  }

  lemma CallDoneOwes(c: Client, t: Caller, timedOut: Flag, found: Flag, ended: Flag, trace: StatPhase)
    requires OwedAs(c, timedOut, found, ended, trace)
    ensures OwedAs(Step(c, CallDone(t)), timedOut, found, ended, trace)
  {
    if IsInDone(c, t) && !InBody(c, t) && c.closed.On? { LeaveOwes(c, t, timedOut, found, ended, trace); }
  }

  lemma DoneStepOwes(c: Client, timedOut: Flag, found: Flag, ended: Flag, trace: StatPhase)
    requires OwedAs(c, timedOut, found, ended, trace) && DoneInv(c)
    requires c.stage == DONE_ENTERED ==> trace == Opened
    ensures OwedAs(Step(c, DoneStep), timedOut, found, ended,
                   if c.stage == DONE_ENTERED && c.winner.Some? then Closed(c.endErr) else trace)
  {
    if c.winner.Some? && c.stage == DONE_CHANNEL {
      LeaveOwes(c.(mapped := Off, stage := DONE_REMOVED), c.winner.value, timedOut, found, ended, trace);
    }
  }

  predicate IsHelpers(e: Event) {
    || e.WatcherWake? || e.MonitorTimeout? || e.MonitorWrite? || e.MonitorExit? || e.CloserSnapshot?
    || e.ReaderRecord? || e.ReaderExit? || e.ReaderDeliver?
  }

  lemma HelperOwes(c: Client, e: Event, a: Asked, ended: Flag, trace: StatPhase)
    requires OwedAs(c, a.timedOut, a.found, ended, trace) && IsHelpers(e)
    requires c.heartbeatOpen.Off? ==> c.closed.On?
    ensures OwedAs(Step(c, e), Asks(a, c, e).timedOut, Asks(a, c, e).found, ended, trace)
  {
    if e.ReaderRecord? || e.ReaderExit? || e.ReaderDeliver? {
      ReaderOwes(c, e, a.timedOut, a.found, ended, trace);
    } else {
      match e
      case WatcherWake =>
      case MonitorTimeout =>
      case MonitorWrite(_) =>
      case MonitorExit =>
      case CloserSnapshot =>
    }
  }

  lemma ReaderOwes(c: Client, e: Event, timedOut: Flag, found: Flag, ended: Flag, trace: StatPhase)
    requires OwedAs(c, timedOut, found, ended, trace) && (e.ReaderRecord? || e.ReaderExit? || e.ReaderDeliver?)
    ensures OwedAs(Step(c, e), timedOut, found, ended, trace)
  {
    match e
    case ReaderRecord =>
    case ReaderExit =>
    case ReaderDeliver =>
  }

  lemma OtherKeepsDebts(c: Client, e: Event)
    requires !IsHelpers(e) && !e.ReaderTake? && !e.CallDone? && !e.DoneStep?
    ensures SameDebts(c, Step(c, e))
  {
    match e
    case SenderStep(_) =>
    case _ =>
  }

  lemma RestOwes(c: Client, e: Event, a: Asked, ended: Flag, trace: StatPhase)
    requires OwedAs(c, a.timedOut, a.found, ended, trace)
    requires c.heartbeatOpen.Off? ==> c.closed.On?
    requires !e.ReaderTake? && !e.CallDone? && !e.DoneStep?
    ensures OwedAs(Step(c, e), Asks(a, c, e).timedOut, Asks(a, c, e).found, ended, trace)
  {
    if IsHelpers(e) {
      HelperOwes(c, e, a, ended, trace);
    } else {
      OtherKeepsDebts(c, e);
      DebtsKept(c, Step(c, e), a.timedOut, a.found, ended, trace, trace);
    }
  }

  // ---------------------------------------------------------------------
  // Reports
  // ---------------------------------------------------------------------

  ghost predicate ReportAs(stats: seq<StatEvent>, accepted: seq<Payload>, s: Sender, given: seq<Payload>) {
    InLengths(stats) == Lengths(accepted) && OutLengths(stats) + Lengths(InHand(s)) == Lengths(given)
  }

  ghost predicate Reported(c: Client, a: Asked) {
    ReportAs(c.stats, PayloadsBeforeEnd(c.processed), c.sender, a.given)
  }

  lemma TakeShows(c: Client)
    requires c.reader.Reading? && c.msgCh != []
    ensures var c', r := Step(c, ReaderTake), c.msgCh[0];
            && c'.processed == c.processed + [r] && c'.sender == c.sender
            && c'.stats == (if r.Reply? && c.recvOpen.On? then c.stats + [InPayload(|r.payload|)] else c.stats)
  {
    match c.msgCh[0]
    case Begin(_, _) =>
    case Reply(_) =>
    case Finish(status, _) => if IsOk(status) {} else {}
    case Pong(_) =>
    case Garbled =>
  }

  lemma TakeReported(c: Client, a: Asked)
    requires Reported(c, a) && QueueInv(c) && c.reader.Reading? && c.msgCh != []
    ensures Reported(Step(c, ReaderTake), a)
  {
    var r := c.msgCh[0];
    TakeShows(c);
    CompletedAppend(c.processed, r);
    if r.Reply? {
      LengthsAppend(c.stats, InPayload(|r.payload|));
      LengthsMore(PayloadsBeforeEnd(c.processed), r.payload);
    }
    assert PayloadsBeforeEnd(c.processed) + [] == PayloadsBeforeEnd(c.processed);
  }

  lemma LengthOfOne(p: Payload)
    ensures Lengths([p]) == [|p|] && Lengths([]) == []
  {}

  // SendMsg reports OutPayload at most.
  lemma SendShows(c: Client, e: Event)
    requires e.SendMsg? || e.SenderStep?
    ensures var c' := Step(c, e);
            && c'.processed == c.processed
            && c'.stats == (if e.SenderStep? && c.sender.WritingData? then c.stats + [OutPayload(|c.sender.payload|)]
                            else c.stats)
  {}

  lemma SendReported(c: Client, a: Asked, p: Payload)
    requires Reported(c, a)
    ensures Reported(Step(c, SendMsg(p)), Asks(a, c, SendMsg(p)))
  {
    SendShows(c, SendMsg(p));
    ReportsGiven(c.stats, PayloadsBeforeEnd(c.processed), a.given, p);
  }

  lemma SenderReported(c: Client, a: Asked, ok: Flag)
    requires Reported(c, a)
    ensures Reported(Step(c, SenderStep(ok)), Asks(a, c, SenderStep(ok)))
  {
    SendShows(c, SenderStep(ok));
    if !c.sender.SenderIdle? {
      ReportsOut(c.stats, PayloadsBeforeEnd(c.processed), c.sender.payload, a.given);
    }
  }

  lemma ReportsOut(stats: seq<StatEvent>, accepted: seq<Payload>, p: Payload, given: seq<Payload>)
    ensures ReportAs(stats, accepted, WritingCall(p), given) ==> ReportAs(stats, accepted, WritingData(p), given)
    ensures ReportAs(stats, accepted, WritingData(p), given) ==>
              ReportAs(stats + [OutPayload(|p|)], accepted, SenderIdle, given)
  {
    LengthsAppend(stats, OutPayload(|p|));
    LengthOfOne(p);
  }

  lemma ReportsGiven(stats: seq<StatEvent>, accepted: seq<Payload>, given: seq<Payload>, p: Payload)
    ensures ReportAs(stats, accepted, SenderIdle, given) ==>
              && ReportAs(stats, accepted, WritingData(p), given + [p])
              && ReportAs(stats, accepted, WritingCall(p), given + [p])
  {
    LengthsMore(given, p);
    LengthOfOne(p);
  }

  lemma DoneShows(c: Client)
    ensures var c' := Step(c, DoneStep);
            && c'.processed == c.processed && c'.sender == c.sender
            && c'.stats == (if c.winner.Some? && c.stage == DONE_ENTERED then c.stats + [StatEnd(c.endErr)]
                            else c.stats)
  {
    if c.winner.Some? { LeaveShows(c.(mapped := Off, stage := DONE_REMOVED), c.winner.value); }
  }

  lemma LeaveShows(c: Client, t: Caller)
    ensures var c' := LeaveDone(c, t); c'.processed == c.processed && c'.sender == c.sender && c'.stats == c.stats
  {
    match t
    case TheReader =>
    case _ =>
  }

  lemma RestShows(c: Client, e: Event)
    requires !e.ReaderTake? && !e.SendMsg? && !e.SenderStep? && !e.DoneStep?
    ensures var c' := Step(c, e); c'.processed == c.processed && c'.sender == c.sender && c'.stats == c.stats
  {
    match e
    case CallDone(t) => LeaveShows(c, t);
    case _ =>
  }

  lemma RestReported(c: Client, a: Asked, e: Event)
    requires Reported(c, a) && !e.ReaderTake? && !e.SendMsg? && !e.SenderStep?
    ensures Reported(Step(c, e), Asks(a, c, e))
  {
    if e.DoneStep? {
      DoneShows(c);
      LengthsAppend(c.stats, StatEnd(c.endErr));
    } else {
      RestShows(c, e);
    }
  }

  lemma StepReported(c: Client, a: Asked, e: Event)
    requires Reported(c, a) && QueueInv(c)
    ensures Reported(Step(c, e), Asks(a, c, e))
  {
    if e.ReaderTake? {
      if c.reader.Reading? && c.msgCh != [] { TakeReported(c, a); }
    } else if e.SendMsg? {
      SendReported(c, a, e.payload);
    } else if e.SenderStep? {
      SenderReported(c, a, e.ok);
    } else {
      RestReported(c, a, e);
    }
  }

  // ---------------------------------------------------------------------
  // Every run
  // ---------------------------------------------------------------------

  lemma StepOwed(c: Client, a: Asked, e: Event)
    requires OwedInv(c, a) && DoneInv(c) && StatInv(c)
    ensures OwedInv(Step(c, e), Asks(a, c, e))
  {
    var ended, trace := EndSeen(c.processed), StatPhaseOf(c.stats);
    if e.ReaderTake? {
      if c.reader.Reading? && c.msgCh != [] { TakeOwed(c, a); }
    } else if e.CallDone? {
      RestShows(c, e);
      CallDoneOwes(c, e.caller, a.timedOut, a.found, ended, trace);
    } else if e.DoneStep? {
      DoneShows(c);
      StatAppend(c.stats, StatEnd(c.endErr));
      DoneStepOwes(c, a.timedOut, a.found, ended, trace);
    } else if e.SendMsg? || e.SenderStep? {
      SendOwed(c, a, e);
    } else {
      RestShows(c, e);
      RestOwes(c, e, a, ended, trace);
    }
  }

  lemma SendOwed(c: Client, a: Asked, e: Event)
    requires OwedInv(c, a) && StatInv(c) && (e.SendMsg? || e.SenderStep?)
    ensures OwedInv(Step(c, e), Asks(a, c, e))
  {
    SendShows(c, e);
    OtherKeepsDebts(c, e);
    if e.SenderStep? && c.sender.WritingData? { StatAppend(c.stats, OutPayload(|c.sender.payload|)); }
    DebtsKept(c, Step(c, e), a.timedOut, a.found, EndSeen(c.processed), StatPhaseOf(c.stats),
              StatPhaseOf(Step(c, e).stats));
  }

  lemma TakeOwed(c: Client, a: Asked)
    requires OwedInv(c, a) && StatInv(c) && DoneInv(c) && c.reader.Reading? && c.msgCh != []
    ensures OwedInv(Step(c, ReaderTake), a)
  {
    var r := c.msgCh[0];
    TakeShows(c);
    EndSeenAppend(c.processed, r);
    if r.Reply? { StatAppend(c.stats, InPayload(|r.payload|)); }
    TakeOwes(c, a.timedOut, a.found, EndSeen(c.processed), StatPhaseOf(c.stats));
  }

  lemma {:induction false} OwedAfter(path: string, events: seq<Event>)
    ensures OwedInv(After(path, events), AskedOf(path, events)) && Reported(After(path, events), AskedOf(path, events))
  {
    if events == [] {
      StatAppend([], StatBegin);
      LengthsAppend([], StatBegin);
      assert [] + [StatBegin] == [StatBegin];
    } else {
      var front := events[..|events| - 1];
      OwedAfter(path, front);
      AfterKeeps(path, front);
      StepOwed(After(path, front), AskedOf(path, front), events[|events| - 1]);
      StepReported(After(path, front), AskedOf(path, front), events[|events| - 1]);
    }
  }

  // Nobody is inside done().
  predicate NobodyInDone(c: Client) {
    !c.reader.ReaderInDone? && !c.watcher.InDone? && !c.monitor.InDone? && !c.closer.InDone?
  }

  // Somebody had reason to tear the stream down: the watcher of its context is through,
  // the heartbeat timed out and the End of pongMonitor is written, Client.Close found
  // it, or ReadMsg has taken an End.
  predicate TeardownDue(c: Client, a: Asked) {
    || c.watcher.HelperExited?
    || (a.timedOut.On? && !c.monitor.WritingEnd?)
    || a.found.On?
    || (exists k :: 0 <= k < |c.processed| && c.processed[k].Finish?)
  }

  lemma {:induction false} EndSeenAt(rs: seq<Response>, k: nat)
    requires k < |rs| && rs[k].Finish?
    ensures EndSeen(rs).On?
  {
    if k < |rs| - 1 { EndSeenAt(rs[..|rs| - 1], k); }
  }

  /** In every run, a stream whose teardown is due is torn down, whole, by the time nobody
      is inside done(): the context cancelled, the subscription gone, both channels
      closed, one End reported. */
  lemma TeardownIsOwed(path: string, events: seq<Event>)
    requires var c := After(path, events); NobodyInDone(c) && TeardownDue(c, AskedOf(path, events))
    ensures var c := After(path, events);
            && c.closed.On? && c.live.Off? && c.subscribed.Off? && c.msgChOpen.Off? && c.heartbeatOpen.Off?
            && StatPhaseOf(c.stats).Closed?
  {
    var c, a := After(path, events), AskedOf(path, events);
    AfterKeeps(path, events);
    OwedAfter(path, events);
    if k :| 0 <= k < |c.processed| && c.processed[k].Finish? { EndSeenAt(c.processed, k); }
    DueIsDone(c, a);
  }

  lemma DueIsDone(c: Client, a: Asked)
    requires OwedInv(c, a) && DoneInv(c) && StatInv(c) && NobodyInDone(c)
    requires c.watcher.HelperExited? || (a.timedOut.On? && !c.monitor.WritingEnd?) || a.found.On?
             || EndSeen(c.processed).On?
    ensures c.closed.On? && c.stage == DONE_REMOVED && StatPhaseOf(c.stats).Closed?
  {}

  /** The monitor stays on watch: pongMonitor leaves only a stream that is closed or whose
      context is cancelled. */
  lemma MonitorLeavesLast(path: string, events: seq<Event>)
    requires After(path, events).monitor.HelperExited?
    ensures After(path, events).closed.On? || After(path, events).live.Off?
  {
    OwedAfter(path, events);
  }

  /** A stream that the heartbeat tore down reports an error: if pongMonitor was the one
      to close it, its End carries one. */
  lemma TimeoutIsReported(path: string, events: seq<Event>)
    requires var c := After(path, events); c.winner == Some(TheMonitor) && c.stage >= DONE_REPORTED
    ensures exists e, k ::
              0 <= k < |After(path, events).stats| && After(path, events).stats[k] == StatEnd(Some(e))
  {
    OwedAfter(path, events);
    var c := After(path, events);
    StatPhaseMeaning(c.stats);
    var trace := StatPhaseOf(c.stats);
    var k :| 0 <= k < |c.stats| && c.stats[k] == StatEnd(trace.error);
    assert c.stats[k] == StatEnd(Some(trace.error.value));
  }

  /** Stats of a client stream, in every run: the InPayload events are those of the
      payloads taken before the OK End, the OutPayload events those given to SendMsg but
      for the one it has in hand, in order and each with its length. */
  lemma PayloadsAreReported(path: string, events: seq<Event>)
    ensures var c, a := After(path, events), AskedOf(path, events);
            && InLengths(c.stats) == Lengths(PayloadsBeforeEnd(c.processed))
            && OutLengths(c.stats) + Lengths(InHand(c.sender)) == Lengths(a.given)
  {
    OwedAfter(path, events);
  }

  // ---------------------------------------------------------------------
  // Messages that do not parse
  // ---------------------------------------------------------------------

  function GarbledSeen(rs: seq<Response>): Flag {
    if rs == [] then Off else if rs[|rs| - 1].Garbled? then On else GarbledSeen(rs[..|rs| - 1])
  }

  lemma GarbledSeenAppend(rs: seq<Response>, r: Response)
    ensures GarbledSeen(rs + [r]) == if r.Garbled? then On else GarbledSeen(rs)
  {
    assert (rs + [r])[..|rs|] == rs;
  }

  ghost predicate ReaderGaveUp(c: Client, garbled: Flag) {
    garbled.On? ==> c.reader.Recording? || (c.reader.ReaderExited? && c.lastErr.Some?)
  }

  lemma TakeGivesUp(c: Client, garbled: Flag)
    requires ReaderGaveUp(c, garbled) && c.reader.Reading? && c.msgCh != []
    ensures ReaderGaveUp(Step(c, ReaderTake), if c.msgCh[0].Garbled? then On else garbled)
  {
    match c.msgCh[0]
    case Begin(_, _) =>
    case Reply(_) =>
    case Finish(status, _) => if IsOk(status) {} else {}
    case Pong(_) =>
    case Garbled =>
  }

  lemma RestGivesUp(c: Client, e: Event, garbled: Flag)
    requires ReaderGaveUp(c, garbled) && !e.ReaderTake? && DoneInv(c)
    ensures ReaderGaveUp(Step(c, e), garbled)
  {
    match e
    case CallDone(t) => if IsInDone(c, t) { LeaveGivesUp(c, t, garbled); }
    case DoneStep => DoneGivesUp(c, garbled);
    case ReaderDeliver =>
    case ReaderRecord =>
    case ReaderExit =>
    case _ => KeepsReader(c, e);
  }

  lemma DoneGivesUp(c: Client, garbled: Flag)
    requires ReaderGaveUp(c, garbled) && DoneInv(c)
    ensures ReaderGaveUp(Step(c, DoneStep), garbled)
  {
    if c.winner.Some? && c.stage == DONE_CHANNEL {
      LeaveGivesUp(c.(mapped := Off, stage := DONE_REMOVED), c.winner.value, garbled);
    }
  }

  lemma KeepsReader(c: Client, e: Event)
    requires !e.ReaderTake? && !e.CallDone? && !e.DoneStep?
    requires !e.ReaderDeliver? && !e.ReaderRecord? && !e.ReaderExit?
    ensures Step(c, e).reader == c.reader && Step(c, e).lastErr == c.lastErr
  {
    match e
    case SenderStep(_) =>
    case _ =>
  }

  lemma LeaveGivesUp(c: Client, t: Caller, garbled: Flag)
    requires ReaderGaveUp(c, garbled) && IsInDone(c, t)
    ensures ReaderGaveUp(LeaveDone(c, t), garbled)
  {
    match t
    case TheReader =>
    case _ =>
  }

  lemma {:induction false} GaveUpAfter(path: string, events: seq<Event>)
    ensures ReaderGaveUp(After(path, events), GarbledSeen(After(path, events).processed))
  {
    if events != [] {
      var front, e := events[..|events| - 1], events[|events| - 1];
      GaveUpAfter(path, front);
      AfterKeeps(path, front);
      var c := After(path, front);
      if e.ReaderTake? {
        if c.reader.Reading? && c.msgCh != [] {
          TakeShows(c);
          GarbledSeenAppend(c.processed, c.msgCh[0]);
          TakeGivesUp(c, GarbledSeen(c.processed));
        }
      } else {
        KeepsProcessed(c, e);
        RestGivesUp(c, e, GarbledSeen(c.processed));
      }
    }
  }

  lemma KeepsProcessed(c: Client, e: Event)
    requires !e.ReaderTake?
    ensures Step(c, e).processed == c.processed
  {
    if e.DoneStep? { DoneShows(c); }
    else if e.SendMsg? || e.SenderStep? { SendShows(c, e); }
    else { RestShows(c, e); }
  }

  lemma {:induction false} GarbledSeenAt(rs: seq<Response>, k: nat)
    requires k < |rs| && rs[k].Garbled?
    ensures GarbledSeen(rs).On?
  {
    if k < |rs| - 1 { GarbledSeenAt(rs[..|rs| - 1], k); }
  }

  /** A message that does not parse ends ReadMsg: from then on it is recording an error, or
      has returned with one recorded, which RecvMsg reports once the context is
      cancelled. */
  lemma GarbledEndsReading(path: string, events: seq<Event>, k: nat)
    requires k < |After(path, events).processed| && After(path, events).processed[k].Garbled?
    ensures var c := After(path, events);
            || c.reader.Recording?
            || (c.reader.ReaderExited? && c.lastErr.Some?
                && (c.live.Off? ==> Step(c, RecvCancelled).answered == c.answered + [c.lastErr.value]))
  {
    GaveUpAfter(path, events);
    GarbledSeenAt(After(path, events).processed, k);
  }
}
