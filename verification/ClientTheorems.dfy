// What the client promises about one stream, over every run of ClientStreams.
module ClientTheorems {
  import opened Wire
  import opened ClientStreams

  // ---------------------------------------------------------------------
  // Delivery
  // ---------------------------------------------------------------------

  lemma {:induction false} BeforeEndIsPrefix(out: seq<Response>)
    ensures |PayloadsBeforeEnd(out)| <= |Payloads(out)|
    ensures PayloadsBeforeEnd(out) == Payloads(out)[..|PayloadsBeforeEnd(out)|]
    ensures Completed(out).Off? ==> PayloadsBeforeEnd(out) == Payloads(out)
  {
    if out != [] { BeforeEndIsPrefix(out[..|out| - 1]); }
  }

  /** In every interleaving, cancellation included, the payloads RecvMsg has
      returned are a prefix of the payloads that arrived on the reply inbox. */
  lemma ReceivedIsPrefix(c: Client)
    requires Inv(c)
    ensures |c.got| <= |Payloads(c.arrived)| && c.got == Payloads(c.arrived)[..|c.got|]
  {
    BeforeEndIsPrefix(c.processed);
    PayloadsConcat(c.processed, c.msgCh);
    PrefixOfSum(c.got, c.recv + Held(c.reader), PayloadsBeforeEnd(c.processed));
  }

  lemma PrefixOfSum<T>(a: seq<T>, b: seq<T>, s: seq<T>)
    requires a + b == s
    ensures |a| <= |s| && a == s[..|a|]
  {}

  /** io.EOF means the server's OK End was taken and every payload before it was
      returned; and once the OK End was taken, at most one payload is still
      undelivered, in the one-element buffer. */
  lemma EofMeansEverything(c: Client)
    requires Inv(c)
    ensures c.sawEof.On? ==> Completed(c.processed).On? && c.got == PayloadsBeforeEnd(c.processed)
    ensures Completed(c.processed).On? ==>
              && c.got + c.recv == PayloadsBeforeEnd(c.processed)
              && |c.recv| <= RECV_CAPACITY
  {}

  // ---------------------------------------------------------------------
  // Teardown
  // ---------------------------------------------------------------------

  // The state after a run of the client on a fresh stream.
  function After(path: string, events: seq<Event>): Client { Run(Init(path), events) }

  lemma AfterKeeps(path: string, events: seq<Event>)
    ensures Inv(After(path, events))
  {
    InitInv(path);
    RunKeeps(Init(path), events);
  }

  /** Whoever races to tear the stream down, each channel is closed at most once,
      nothing is sent on a closed one, and the stats handlers see one leading
      Begin and at most one End, reported by the one caller that entered done(). */
  lemma TornDownOnce(path: string, events: seq<Event>)
    ensures var c := After(path, events);
            && c.closes.heartbeat <= 1 && c.closes.messages <= 1 && c.closes.receive <= 1
            && c.crashed.Off?
            && OrderlyTrace(c.stats) && |c.stats| > 0 && c.stats[0].StatBegin?
            && ((exists i :: 0 <= i < |c.stats| && c.stats[i].StatEnd?) <==> c.stage >= DONE_REPORTED)
  {
    AfterKeeps(path, events);
    StatPhaseMeaning(After(path, events).stats);
  }

  /** Once done() has finished, the context is cancelled and nothing is subscribed;
      and Client.streams still holds the stream exactly when streamOnSubject stored
      it after done() had removed it. */
  lemma RemovedExactly(path: string, events: seq<Event>)
    requires After(path, events).stage == DONE_REMOVED
    ensures var c := After(path, events);
            && c.live.Off? && c.subscribed.Off? && c.msgChOpen.Off? && c.heartbeatOpen.Off?
            && (c.mapped.On? <==> c.late.On?)
  {
    AfterKeeps(path, events);
  }

  lemma LateStays(c: Client, e: Event)
    requires Inv(c) && c.late.On?
    ensures Step(c, e).late.On?
  {
    match e
    case DoneStep =>
    case Register =>
    case CallDone(t) =>
      if IsInDone(c, t) {
        match t
        case TheReader =>
        case TheWatcher =>
        case TheMonitor =>
        case TheCloser =>
      }
    case ReaderTake =>
      if c.msgCh != [] {
        match c.msgCh[0]
        case Reply(_) =>
        case Finish(_, _) =>
        case _ =>
      }
    case _ =>
  }

  /** A stream stored too late stays in Client.streams for good, whatever happens
      next, Client.Close included. */
  lemma {:induction false} LateLeaks(c: Client, events: seq<Event>)
    requires Inv(c) && c.late.On?
    ensures Run(c, events).late.On? && Run(c, events).mapped.On?
  {
    RunKeeps(c, events);
    if events != [] {
      var front := events[..|events| - 1];
      LateLeaks(c, front);
      RunKeeps(c, front);
      LateStays(Run(c, front), events[|events| - 1]);
    }
  }

  // The body of done() run to its end by the caller that entered it.
  lemma {:induction false} DoneFinishes(c: Client) returns (events: seq<Event>)
    requires Inv(c) && c.winner.Some?
    ensures Run(c, events).stage == DONE_REMOVED && Run(c, events).registered == c.registered
    decreases DONE_REMOVED - c.stage
  {
    if c.stage == DONE_REMOVED {
      events := [];
    } else {
      StepKeeps(c, DoneStep);
      DoneAdvances(c);
      var rest := DoneFinishes(Step(c, DoneStep));
      events := [DoneStep] + rest;
      RunOne(c, DoneStep, rest);
    }
  }

  lemma DoneAdvances(c: Client)
    requires c.winner.Some? && DONE_ENTERED <= c.stage < DONE_REMOVED
    ensures var c' := Step(c, DoneStep);
            c'.stage == c.stage + 1 && c'.winner == c.winner && c'.registered == c.registered
  {
    if c.stage == DONE_CHANNEL {
      match c.winner.value
      case TheReader =>
      case TheWatcher =>
      case TheMonitor =>
      case TheCloser =>
    }
  }

  lemma {:induction false} RunOne(c: Client, e: Event, rest: seq<Event>)
    ensures Run(c, [e] + rest) == Run(Step(c, e), rest)
  {
    if rest == [] {
      assert [e] + rest == [e];
      assert [e][..0] == [];
    } else {
      var front := rest[..|rest| - 1];
      assert ([e] + rest)[..|[e] + rest| - 1] == [e] + front;
      RunOne(c, e, front);
    }
  }

  lemma RunAppend(c: Client, events: seq<Event>, e: Event)
    ensures Run(c, events + [e]) == Step(Run(c, events), e)
  {
    assert (events + [e])[..|events|] == events;
  }

  lemma {:induction false} RunConcat(c: Client, a: seq<Event>, b: seq<Event>)
    ensures Run(c, a + b) == Run(Run(c, a), b)
  {
    if b == [] {
      assert a + b == a;
    } else {
      var front, last := b[..|b| - 1], b[|b| - 1];
      assert a + b == (a + front) + [last];
      RunAppend(c, a + front, last);
      RunConcat(c, a, front);
    }
  }

  /** Such a run exists: the context is cancelled before streamOnSubject stores the
      stream, and the watcher gets through done() first. */
  lemma LateRegistration(path: string) returns (events: seq<Event>)
    ensures After(path, events).late.On? && After(path, events).stage == DONE_REMOVED
  {
    var first := [UserCancel(Off), WatcherWake, CallDone(TheWatcher)];
    var c := After(path, first);
    WatcherWins(path);
    AfterKeeps(path, first);
    var body := DoneFinishes(c);
    RunConcat(Init(path), first, body);
    events := first + body + [Register];
    RunAppend(Init(path), first + body, Register);
  }

  lemma WatcherWins(path: string)
    ensures var c := After(path, [UserCancel(Off), WatcherWake, CallDone(TheWatcher)]);
            c.winner == Some(TheWatcher) && c.registered.Off?
  {
    var c0 := Init(path);
    var c1 := Step(c0, UserCancel(Off));
    var c2 := Step(c1, WatcherWake);
    assert [UserCancel(Off)] + [WatcherWake, CallDone(TheWatcher)]
        == [UserCancel(Off), WatcherWake, CallDone(TheWatcher)];
    assert [WatcherWake] + [CallDone(TheWatcher)] == [WatcherWake, CallDone(TheWatcher)];
    assert [CallDone(TheWatcher)] + [] == [CallDone(TheWatcher)];
    RunOne(c0, UserCancel(Off), [WatcherWake, CallDone(TheWatcher)]);
    RunOne(c1, WatcherWake, [CallDone(TheWatcher)]);
    RunOne(c2, CallDone(TheWatcher), []);
  }

  // ---------------------------------------------------------------------
  // Status
  // ---------------------------------------------------------------------

  // VerdictOf finds the error End, if the reader took one.
  lemma {:induction false} VerdictIsTheEnd(rs: seq<Response>)
    ensures VerdictOf(rs).NoVerdict? <==> forall i :: 0 <= i < |rs| ==> !IsErrorEnd(rs[i])
    ensures VerdictOf(rs).Failed? ==>
              rs != [] && IsErrorEnd(rs[|rs| - 1]) && VerdictOf(rs).error == StatusError(rs[|rs| - 1].status.value)
  {
    if rs != [] {
      var front := rs[..|rs| - 1];
      VerdictIsTheEnd(front);
      assert forall i :: 0 <= i < |front| ==> front[i] == rs[i];
    }
  }

  /** Once the reader has taken an error End, it takes nothing more; and the status
      of that End reaches a cancelled RecvMsg exactly when ReadMsg has returned.
      Until then RecvMsg reports Canceled or DeadlineExceeded instead. */
  lemma StatusVisibleExactly(path: string, events: seq<Event>, k: nat)
    requires var c := After(path, events); k < |c.processed| && IsErrorEnd(c.processed[k])
    ensures var c := After(path, events);
            var err := StatusError(c.processed[k].status.value);
            && k == |c.processed| - 1
            && (err != ContextError(c) ==> (RecvError(c) == err <==> c.reader.ReaderExited?))
            && (!c.reader.ReaderExited? ==> RecvError(c) == ContextError(c))
  {
    var c := After(path, events);
    AfterKeeps(path, events);
    VerdictIsTheEnd(c.processed);
    var front := c.processed[..|c.processed| - 1];
    VerdictIsTheEnd(front);
    assert VerdictOf(c.processed) == VerdictAdvance(VerdictOf(front), c.processed[|c.processed| - 1]);
    assert forall i :: 0 <= i < |front| ==> front[i] == c.processed[i];
  }

  /** A heartbeat timeout is never what RecvMsg reports: without an error End or an
      unparseable message, a cancelled RecvMsg reports Canceled or DeadlineExceeded. */
  lemma TimeoutIsHidden(path: string, events: seq<Event>)
    requires var c := After(path, events);
             forall i :: 0 <= i < |c.processed| ==> !IsErrorEnd(c.processed[i]) && !c.processed[i].Garbled?
    ensures RecvError(After(path, events)) == ContextError(After(path, events))
  {
    AfterKeeps(path, events);
  }

  // ---------------------------------------------------------------------
  // The last payload
  // ---------------------------------------------------------------------

  // Nobody but the server ends the stream.
  ghost predicate NobodyCancels(events: seq<Event>) {
    forall k :: 0 <= k < |events| ==> !Cancels(events[k])
  }

  predicate Cancels(e: Event) { e.UserCancel? || e.MonitorTimeout? || e.CloserSnapshot? }

  ghost predicate EndTaken(processed: seq<Response>) {
    exists k :: 0 <= k < |processed| && processed[k].Finish?
  }

  lemma EndTakenLater(rs: seq<Response>, r: Response)
    ensures EndTaken(rs + [r]) <==> EndTaken(rs) || r.Finish?
  {
    var all := rs + [r];
    assert all[|rs|] == r && forall k :: 0 <= k < |rs| ==> all[k] == rs[k];
    if EndTaken(rs) {
      var k :| 0 <= k < |rs| && rs[k].Finish?;
      assert all[k].Finish?;
    }
  }

  // The reader hands over no payload any more.
  predicate HandsNothing(c: Client) {
    c.recvOpen.Off? || (c.reader.ReaderInDone? && c.reader.err.Some?) || c.reader.Recording? || c.reader.ReaderExited?
  }

  // While nobody cancels, only processEnd gets to done() first.
  ghost predicate HelpersQuiet(c: Client) {
    && (c.monitor.Waiting? || c.monitor.HelperExited?) && c.closer.Waiting?
    && (c.watcher.InDone? ==> c.live.Off?)
    && (c.winner.Some? ==> c.winner == Some(TheReader))
    && (c.live.Off? ==> c.stage >= DONE_CANCELLED)
    && (c.answered != [] ==> c.live.Off?)
  }

  ghost predicate ReaderEnds(c: Client) {
    && (c.reader.ReaderInDone? || c.winner.Some? ==> EndTaken(c.processed))
    && (c.reader.ReaderInDone? || c.winner.Some? ==> HandsNothing(c))
  }

  // Whether an End is among the responses taken, as a fact passed along.
  ghost predicate EndsWith(c: Client, ended: bool) {
    c.reader.ReaderInDone? || c.winner.Some? ==> ended && HandsNothing(c)
  }

  lemma TakeEndsWith(c: Client, ended: bool)
    requires EndsWith(c, ended) && c.reader.Reading? && c.msgCh != []
    ensures EndsWith(Step(c, ReaderTake), ended || c.msgCh[0].Finish?)
    ensures Step(c, ReaderTake).processed == c.processed + [c.msgCh[0]]
  {
    match c.msgCh[0]
    case Reply(_) =>
    case Finish(status, _) => if IsOk(status) {} else {}
    case _ =>
  }

  lemma TakeEnds(c: Client)
    requires ReaderEnds(c) && c.reader.Reading? && c.msgCh != []
    ensures ReaderEnds(Step(c, ReaderTake))
  {
    EndTakenLater(c.processed, c.msgCh[0]);
    TakeEndsWith(c, EndTaken(c.processed));
  }

  lemma TakeQuiet(c: Client)
    requires HelpersQuiet(c) && c.reader.Reading? && c.msgCh != []
    ensures HelpersQuiet(Step(c, ReaderTake))
  {
    TakeFrame(c);
    TakeAnswers(c);
  }

  lemma TakeAnswers(c: Client)
    requires c.reader.Reading? && c.msgCh != []
    ensures Step(c, ReaderTake).answered == c.answered
  {
    match c.msgCh[0]
    case Reply(_) =>
    case Finish(_, _) =>
    case _ =>
  }

  lemma CallDoneQuiet(c: Client, t: Caller)
    requires DoneInv(c) && HelpersQuiet(c) && ReaderEnds(c)
    ensures HelpersQuiet(Step(c, CallDone(t))) && ReaderEnds(Step(c, CallDone(t)))
  {
    match t
    case TheReader => if c.reader.ReaderInDone? && c.reader.err.Some? {} else {}
    case _ =>
  }

  lemma DoneStepQuiet(c: Client)
    requires DoneInv(c) && HelpersQuiet(c) && ReaderEnds(c)
    ensures HelpersQuiet(Step(c, DoneStep)) && ReaderEnds(Step(c, DoneStep))
  {
    if c.winner.Some? && c.stage == DONE_CHANNEL {
      if c.reader.err.Some? {} else {}
    } else if c.stage == DONE_REPORTED {
    } else {
    }
  }

  // The other steps.
  predicate IsRest(e: Event) { !Cancels(e) && !e.CallDone? && !e.DoneStep? && !e.ReaderTake? }

  predicate MovesHelper(e: Event) { e.WatcherWake? || e.MonitorWrite? || e.MonitorExit? || e.RecvCancelled? }

  lemma HelperStaysQuiet(c: Client, e: Event)
    requires HelpersQuiet(c) && MovesHelper(e)
    ensures HelpersQuiet(Step(c, e))
  {}

  lemma RestFrame(c: Client, e: Event)
    requires IsRest(e) && !MovesHelper(e)
    ensures var c' := Step(c, e);
            && c'.monitor == c.monitor && c'.closer == c.closer && c'.watcher == c.watcher
            && c'.winner == c.winner && c'.live == c.live && c'.stage == c.stage && c'.answered == c.answered
  {
    match e
    case SenderStep(_) => if c.sender.WritingCall? {} else if c.sender.WritingData? {}
    case _ =>
  }

  lemma RestKeepsHelpers(c: Client, e: Event)
    requires HelpersQuiet(c) && IsRest(e)
    ensures HelpersQuiet(Step(c, e))
  {
    if MovesHelper(e) { HelperStaysQuiet(c, e); } else { RestFrame(c, e); }
  }

  lemma RestKeepsReader(c: Client, e: Event)
    requires ReaderEnds(c) && IsRest(e)
    ensures ReaderEnds(Step(c, e))
  {
    match e
    case SenderStep(_) => if c.sender.WritingCall? {} else if c.sender.WritingData? {}
    case ReaderDeliver =>
    case ReaderRecord =>
    case ReaderExit =>
    case _ =>
  }

  lemma {:induction false} StaysQuiet(path: string, events: seq<Event>)
    requires NobodyCancels(events)
    ensures HelpersQuiet(After(path, events)) && ReaderEnds(After(path, events))
  {
    if events != [] {
      var front, last := events[..|events| - 1], events[|events| - 1];
      assert forall k :: 0 <= k < |front| ==> front[k] == events[k];
      StaysQuiet(path, front);
      AfterKeeps(path, front);
      QuietStep(After(path, front), last);
    }
  }

  lemma QuietStep(c: Client, e: Event)
    requires Inv(c) && HelpersQuiet(c) && ReaderEnds(c) && !Cancels(e)
    ensures HelpersQuiet(Step(c, e)) && ReaderEnds(Step(c, e))
  {
    if e.ReaderTake? {
      if c.reader.Reading? && c.msgCh != [] {
        TakeQuiet(c);
        TakeEnds(c);
      }
    } else if e.CallDone? {
      CallDoneQuiet(c, e.caller);
    } else if e.DoneStep? {
      DoneStepQuiet(c);
    } else {
      RestKeepsHelpers(c, e);
      RestKeepsReader(c, e);
    }
  }

  /** "The last payload, then io.EOF": while the caller, pongMonitor and Client.Close
      leave the stream alone, RecvMsg can answer an error exactly once the done() that
      processEnd calls has cancelled the context, on an End it has taken; and from then
      on what has been taken and not returned is exactly the buffer, so that nothing is
      missing exactly when the buffer is empty. */
  lemma LastPayloadExactly(path: string, events: seq<Event>)
    requires NobodyCancels(events)
    ensures var c := After(path, events);
            && (c.live.Off? <==> c.winner == Some(TheReader) && c.stage >= DONE_CANCELLED)
            && (|Step(c, RecvCancelled).answered| > |c.answered| <==> c.live.Off?)
            && (c.answered != [] ==> c.live.Off?)
            && (c.live.Off? ==>
                  && EndTaken(c.processed) && |c.recv| <= RECV_CAPACITY
                  && c.got + c.recv == PayloadsBeforeEnd(c.processed)
                  && (c.got == PayloadsBeforeEnd(c.processed) <==> c.recv == []))
  {
    var c := After(path, events);
    AfterKeeps(path, events);
    StaysQuiet(path, events);
    if c.live.Off? { assert Held(c.reader) == []; }
  }

  /** Something can be missing: a run in which nobody cancels, after which the OK End
      was taken, the payload before it still sits in the buffer, and RecvMsg has
      answered Canceled. */
  lemma LastPayloadAtRisk(path: string, p: Payload) returns (events: seq<Event>)
    ensures var c := After(path, events);
            && c.processed == [Reply(p), Finish(None, None)] && c.got == [] && c.recv == [p]
            && c.live.Off? && c.answered == [CANCELED]
    ensures NobodyCancels(events)
  {
    var first := [Arrive(Reply(p)), ReaderTake, ReaderDeliver, Arrive(Finish(None, None)), ReaderTake];
    var c := LastPayloadBuffered(path, p);
    var rest := [CallDone(TheReader), DoneStep, DoneStep, RecvCancelled];
    ReaderCancels(c);
    RunConcat(Init(path), first, rest);
    events := first + rest;
  }

  lemma ReaderCancels(c: Client)
    requires c.reader == ReaderInDone(None) && c.winner.None? && c.closed.Off? && c.lastErr.None?
    requires c.answered == [] && c.expired.Off?
    ensures var c' := Run(c, [CallDone(TheReader), DoneStep, DoneStep, RecvCancelled]);
            && c'.live.Off? && c'.answered == [CANCELED]
            && c'.processed == c.processed && c'.got == c.got && c'.recv == c.recv
  {
    var c1 := c.(closed := On, winner := Some(TheReader), stage := DONE_ENTERED);
    var c2 := c1.(stats := c1.stats + [StatEnd(c1.endErr)], stage := DONE_REPORTED);
    var c3 := c2.(live := Off, stage := DONE_CANCELLED);
    assert Step(c, CallDone(TheReader)) == c1;
    assert Step(c1, DoneStep) == c2;
    assert Step(c2, DoneStep) == c3;
    RunFour(c, CallDone(TheReader), DoneStep, DoneStep, RecvCancelled);
  }

  lemma RunTwo(c: Client, e1: Event, e2: Event)
    ensures Run(c, [e1, e2]) == Step(Step(c, e1), e2)
  {
    assert [] + [e1] == [e1] && [e1] + [e2] == [e1, e2];
    RunAppend(c, [], e1);
    RunAppend(c, [e1], e2);
  }

  lemma RunFour(c: Client, e1: Event, e2: Event, e3: Event, e4: Event)
    ensures Run(c, [e1, e2, e3, e4]) == Step(Step(Step(Step(c, e1), e2), e3), e4)
  {
    RunTwo(c, e1, e2);
    RunTwo(Run(c, [e1, e2]), e3, e4);
    RunConcat(c, [e1, e2], [e3, e4]);
    assert [e1, e2] + [e3, e4] == [e1, e2, e3, e4];
  }

  lemma LastPayloadBuffered(path: string, p: Payload) returns (c: Client)
    ensures c == After(path, [Arrive(Reply(p)), ReaderTake, ReaderDeliver, Arrive(Finish(None, None)), ReaderTake])
    ensures && c.processed == [Reply(p), Finish(None, None)] && c.got == [] && c.recv == [p]
            && c.reader == ReaderInDone(None) && c.winner.None? && c.closed.Off? && c.lastErr.None?
            && c.answered == [] && c.expired.Off?
  {
    var events := [Arrive(Reply(p)), ReaderTake, ReaderDeliver, Arrive(Finish(None, None)), ReaderTake];
    var c0 := Init(path);
    var c1 := Step(c0, events[0]);
    var c2 := Step(c1, events[1]);
    var c3 := Step(c2, events[2]);
    assert c3.recv == [p] && c3.processed == [Reply(p)];
    Unroll(c0, events);
    c := After(path, events);
  }

  lemma Unroll(c: Client, es: seq<Event>)
    requires |es| == 5
    ensures Run(c, es) == Step(Step(Step(Step(Step(c, es[0]), es[1]), es[2]), es[3]), es[4])
  {
    assert forall k :: 0 < k <= 5 ==> es[..k][..k - 1] == es[..k - 1];
    assert es[..5] == es;
    assert Run(c, es[..0]) == c;
    assert Run(c, es[..1]) == Step(c, es[0]);
    assert Run(c, es[..2]) == Step(Run(c, es[..1]), es[1]);
    assert Run(c, es[..3]) == Step(Run(c, es[..2]), es[2]);
    assert Run(c, es[..4]) == Step(Run(c, es[..3]), es[3]);
  }

  // ---------------------------------------------------------------------
  // Which error
  // ---------------------------------------------------------------------

  // The deadline passed while the context was live.
  ghost predicate DeadlinePassed(path: string, events: seq<Event>) {
    exists k :: 0 <= k < |events| && events[k] == UserCancel(On) && After(path, events[..k]).live.On?
  }

  lemma DeadlineNext(path: string, events: seq<Event>)
    requires events != []
    ensures var front, last := events[..|events| - 1], events[|events| - 1];
            DeadlinePassed(path, events) <==>
              DeadlinePassed(path, front) || (last == UserCancel(On) && After(path, front).live.On?)
  {
    var front, last := events[..|events| - 1], events[|events| - 1];
    assert forall k :: 0 <= k < |front| ==> front[k] == events[k] && front[..k] == events[..k];
    if DeadlinePassed(path, events) {
      var k :| 0 <= k < |events| && events[k] == UserCancel(On) && After(path, events[..k]).live.On?;
      if k < |front| { assert front[k] == UserCancel(On) && After(path, front[..k]).live.On?; }
    }
    if DeadlinePassed(path, front) {
      var k :| 0 <= k < |front| && front[k] == UserCancel(On) && After(path, front[..k]).live.On?;
      assert events[k] == UserCancel(On) && After(path, events[..k]).live.On?;
    }
    if last == UserCancel(On) && After(path, front).live.On? {
      assert events[|front|] == UserCancel(On) && After(path, events[..|front|]).live.On?;
    }
  }

  lemma Expires(c: Client, e: Event)
    ensures Step(c, e).expired == (if e.UserCancel? && c.live.On? then e.expired else c.expired)
  {
    match e
    case ReaderTake =>
      if c.msgCh != [] {
        match c.msgCh[0]
        case Reply(_) =>
        case Finish(_, _) =>
        case _ =>
      }
    case CallDone(t) => LeaveKeepsDeadline(c, t);
    case DoneStep =>
      if c.winner.Some? { LeaveKeepsDeadline(c.(mapped := Off, stage := DONE_REMOVED), c.winner.value); }
    case SenderStep(_) => if c.sender.WritingCall? {} else if c.sender.WritingData? {}
    case _ =>
  }

  lemma LeaveKeepsDeadline(c: Client, t: Caller)
    ensures LeaveDone(c, t).expired == c.expired && LeaveDone(c, t).live == c.live
  {
    match t
    case TheReader =>
    case _ =>
  }

  // A context that expires is not live any more.
  lemma NeverRevived(c: Client, e: Event)
    ensures c.live.Off? ==> Step(c, e).live.Off?
    ensures e.UserCancel? ==> Step(c, e).live.Off?
  {
    match e
    case ReaderTake => if c.reader.Reading? && c.msgCh != [] { TakeFrame(c); }
    case CallDone(t) => LeaveKeepsDeadline(c, t);
    case DoneStep =>
      if c.winner.Some? { LeaveKeepsDeadline(c.(mapped := Off, stage := DONE_REMOVED), c.winner.value); }
    case SenderStep(_) => if c.sender.WritingCall? {} else if c.sender.WritingData? {}
    case _ =>
  }

  lemma {:induction false} DeadlineIsKept(path: string, events: seq<Event>)
    ensures var c := After(path, events);
            (c.expired.On? <==> DeadlinePassed(path, events)) && (c.expired.On? ==> c.live.Off?)
  {
    if events != [] {
      var front, last := events[..|events| - 1], events[|events| - 1];
      DeadlineIsKept(path, front);
      DeadlineNext(path, events);
      Expires(After(path, front), last);
      NeverRevived(After(path, front), last);
    }
  }

  /** What RecvMsg answers when it picks the cancelled context: the status ReadMsg has
      kept, if any; otherwise DeadlineExceeded exactly when the deadline passed before
      anything else cancelled the context, and Canceled when it did not. */
  lemma CancelledAnswerExactly(path: string, events: seq<Event>)
    requires After(path, events).live.Off?
    ensures var c := After(path, events);
            var answer := if c.lastErr.Some? then c.lastErr.value
                          else if DeadlinePassed(path, events) then StatusError(Status(4, "deadline exceeded"))
                          else StatusError(Status(1, "context canceled"));
            Step(c, RecvCancelled).answered == c.answered + [answer]
  {
    DeadlineIsKept(path, events);
  }

  // The status of the first End taken.
  function FirstEnd(rs: seq<Response>): Option<Option<Status>> {
    if rs == [] then None
    else FirstOr(FirstEnd(rs[..|rs| - 1]), rs[|rs| - 1])
  }

  function FirstOr(first: Option<Option<Status>>, r: Response): Option<Option<Status>> {
    if first.Some? then first else if r.Finish? then Some(r.status) else None
  }

  lemma FirstEndAppend(rs: seq<Response>, r: Response)
    ensures FirstEnd(rs + [r]) == FirstOr(FirstEnd(rs), r)
  {
    assert (rs + [r])[..|rs|] == rs;
  }

  // The error an End stands for.
  function EndError(status: Option<Status>): Option<Error> {
    if status.None? || status.value.code == 0 then None else Some(StatusError(status.value))
  }

  // While nobody cancels, the first End is what done() reports. `first` is it, `trace`
  // the phase of the stats.
  ghost predicate ReportInv(c: Client, first: Option<Option<Status>>, trace: StatPhase) {
    && (first.None? ==> c.endErr.None? && !c.reader.ReaderInDone? && c.winner.None?)
    && (first.Some? && c.stage < DONE_REPORTED ==> c.endErr == EndError(first.value) && c.reader.ReaderInDone?)
    && (c.stage >= DONE_REPORTED ==> first.Some? && trace == Closed(EndError(first.value)))
  }

  ghost predicate Reports(c: Client) { ReportInv(c, FirstEnd(c.processed), StatPhaseOf(c.stats)) }

  lemma TakeTakes(c: Client)
    requires c.reader.Reading? && c.msgCh != []
    ensures Step(c, ReaderTake).processed == c.processed + [c.msgCh[0]]
  {
    match c.msgCh[0]
    case Reply(_) =>
    case Finish(_, _) =>
    case _ =>
  }

  lemma TakeReportsEnd(c: Client, first: Option<Option<Status>>, trace: StatPhase)
    requires ReportInv(c, first, trace) && c.reader.Reading? && c.msgCh != []
    ensures var r := c.msgCh[0];
            ReportInv(Step(c, ReaderTake), FirstOr(first, r), trace)
  {
    match c.msgCh[0]
    case Reply(_) =>
    case Finish(status, _) => if IsOk(status) {} else {}
    case _ =>
  }

  lemma TakeKeepsReports(c: Client)
    requires StatInv(c) && Reports(c) && c.reader.Reading? && c.msgCh != []
    ensures Reports(Step(c, ReaderTake))
  {
    var r, c' := c.msgCh[0], Step(c, ReaderTake);
    TakeTakes(c);
    FirstEndAppend(c.processed, r);
    TakeReports(c);
    if r.Reply? && c.recvOpen.On? { StatAppend(c.stats, InPayload(|r.payload|)); }
    TakeReportsEnd(c, FirstEnd(c.processed), StatPhaseOf(c.stats));
    assert StatPhaseOf(c'.stats) == StatPhaseOf(c.stats);
  }

  lemma DoneKeepsReports(c: Client, e: Event)
    requires DoneInv(c) && StatInv(c) && HelpersQuiet(c) && Reports(c) && (e.CallDone? || e.DoneStep?)
    ensures Reports(Step(c, e))
  {
    if e.CallDone? {
      CallDoneReports(c, e.caller, FirstEnd(c.processed), StatPhaseOf(c.stats));
    } else if c.winner.Some? && c.stage == DONE_ENTERED {
      StatAppend(c.stats, StatEnd(c.endErr));
    } else {
      DoneBodyReports(c, FirstEnd(c.processed), StatPhaseOf(c.stats));
    }
  }

  lemma CallDoneReports(c: Client, t: Caller, first: Option<Option<Status>>, trace: StatPhase)
    requires DoneInv(c) && HelpersQuiet(c) && ReportInv(c, first, trace)
    ensures ReportInv(Step(c, CallDone(t)), first, trace)
    ensures Step(c, CallDone(t)).processed == c.processed && Step(c, CallDone(t)).stats == c.stats
  {
    match t
    case TheReader => if c.reader.ReaderInDone? && c.reader.err.Some? {} else {}
    case _ =>
  }

  lemma DoneBodyReports(c: Client, first: Option<Option<Status>>, trace: StatPhase)
    requires DoneInv(c) && HelpersQuiet(c) && ReportInv(c, first, trace)
    requires c.winner.None? || c.stage != DONE_ENTERED
    ensures ReportInv(Step(c, DoneStep), first, trace)
    ensures Step(c, DoneStep).processed == c.processed && Step(c, DoneStep).stats == c.stats
  {
    if c.winner.Some? && c.stage == DONE_CHANNEL {
      if c.reader.err.Some? {} else {}
    } else if c.stage == DONE_REPORTED {
    } else {
    }
  }

  // What the other steps do to what Reports looks at.
  lemma RestReportFrame(c: Client, e: Event)
    requires IsRest(e)
    ensures var c' := Step(c, e);
            && c'.processed == c.processed && c'.endErr == c.endErr && c'.winner == c.winner && c'.stage == c.stage
            && (c'.reader.ReaderInDone? <==> c.reader.ReaderInDone?)
            && (c'.stats == c.stats || exists n: nat :: c'.stats == c.stats + [OutPayload(n)])
  {
    match e
    case SenderStep(_) =>
      if c.sender.WritingCall? {
      } else if c.sender.WritingData? {
        assert Step(c, e).stats == c.stats + [OutPayload(|c.sender.payload|)];
      }
    case _ =>
  }

  lemma RestKeepsReports(c: Client, e: Event)
    requires StatInv(c) && Reports(c) && IsRest(e)
    ensures Reports(Step(c, e))
  {
    RestReportFrame(c, e);
    var c' := Step(c, e);
    if c'.stats != c.stats {
      var n: nat :| c'.stats == c.stats + [OutPayload(n)];
      StatAppend(c.stats, OutPayload(n));
    }
  }

  lemma {:induction false} StaysReporting(path: string, events: seq<Event>)
    requires NobodyCancels(events)
    ensures Reports(After(path, events))
  {
    if events != [] {
      var front, last := events[..|events| - 1], events[|events| - 1];
      assert forall k :: 0 <= k < |front| ==> front[k] == events[k];
      StaysReporting(path, front);
      StaysQuiet(path, front);
      AfterKeeps(path, front);
      ReportStep(After(path, front), last);
    }
  }

  lemma ReportStep(c: Client, e: Event)
    requires Inv(c) && HelpersQuiet(c) && Reports(c) && !Cancels(e)
    ensures Reports(Step(c, e))
  {
    if e.ReaderTake? {
      if c.reader.Reading? && c.msgCh != [] { TakeKeepsReports(c); }
    } else if e.CallDone? || e.DoneStep? {
      DoneKeepsReports(c, e);
    } else {
      RestKeepsReports(c, e);
    }
  }

  /** The End the client's stats handlers see, while the caller, pongMonitor and
      Client.Close leave the stream alone: nil exactly when the first End the server sent
      was OK, and otherwise that End's status. */
  lemma ReportedEndExactly(path: string, events: seq<Event>)
    requires NobodyCancels(events) && After(path, events).stage >= DONE_REPORTED
    ensures var c := After(path, events);
            && FirstEnd(c.processed).Some?
            && StatEnd(EndError(FirstEnd(c.processed).value)) in c.stats
            && (forall k :: 0 <= k < |c.stats| && c.stats[k].StatEnd? ==>
                  c.stats[k] == StatEnd(EndError(FirstEnd(c.processed).value)))
  {
    StaysReporting(path, events);
    StatPhaseMeaning(After(path, events).stats);
  }

  // Where the error of the stream comes from, whoever ends it.
  ghost predicate EndErrInv(c: Client, fired: bool) {
    && (c.endErr.Some? ==> ErrorSource(c.endErr.value, c.processed, fired))
    && (forall k :: 0 <= k < |c.stats| && c.stats[k].StatEnd? && c.stats[k].error.Some? ==>
          ErrorSource(c.stats[k].error.value, c.processed, fired))
  }

  ghost predicate ErrorSource(e: Error, processed: seq<Response>, fired: bool) {
    || (fired && e == StatusError(Status(14, "server heartbeat timeout")))
    || exists k :: 0 <= k < |processed| && processed[k].Finish? && EndError(processed[k].status) == Some(e)
  }

  lemma SourceLater(e: Error, processed: seq<Response>, r: Response, fired: bool, fired': bool)
    requires fired ==> fired'
    ensures ErrorSource(e, processed, fired) ==> ErrorSource(e, processed + [r], fired')
    ensures r.Finish? && EndError(r.status) == Some(e) ==> ErrorSource(e, processed + [r], fired')
  {
    var all := processed + [r];
    assert all[|processed|] == r && forall k :: 0 <= k < |processed| ==> all[k] == processed[k];
    if k :| 0 <= k < |processed| && processed[k].Finish? && EndError(processed[k].status) == Some(e) {
      assert all[k].Finish? && EndError(all[k].status) == Some(e);
    }
  }

  // Of the stats only an End matters, and of the steps those that set or report endErr.
  lemma EndErrStep(c: Client, e: Event)
    ensures var c' := Step(c, e);
            && (c'.endErr == c.endErr || (e.MonitorTimeout? && c'.endErr == Some(HEARTBEAT_TIMEOUT))
                || (e.ReaderTake? && c.msgCh != [] && c.msgCh[0].Finish? && c'.endErr == EndError(c.msgCh[0].status)
                    && c'.endErr.Some?))
            && (c'.stats == c.stats
                || (exists s: StatEvent :: !s.StatEnd? && c'.stats == c.stats + [s])
                || c'.stats == c.stats + [StatEnd(c.endErr)])
            && (c'.processed == c.processed || (c.msgCh != [] && c'.processed == c.processed + [c.msgCh[0]]))
            && (e.ReaderTake? && c'.processed == c.processed ==> c' == c)
  {
    match e
    case ReaderTake =>
      if c.reader.Reading? && c.msgCh != [] {
        TakeReports(c);
        TakeTakes(c);
        TakeSetsError(c);
      }
    case CallDone(t) => LeaveKeepsReport(c, t);
    case DoneStep =>
      if c.winner.Some? { LeaveKeepsReport(c.(mapped := Off, stage := DONE_REMOVED), c.winner.value); }
    case SenderStep(_) =>
      if c.sender.WritingCall? {
      } else if c.sender.WritingData? {
        assert Step(c, e).stats == c.stats + [OutPayload(|c.sender.payload|)];
      }
    case _ =>
  }

  lemma TakeSetsError(c: Client)
    requires c.reader.Reading? && c.msgCh != []
    ensures var r, c' := c.msgCh[0], Step(c, ReaderTake);
            c'.endErr == if r.Finish? && EndError(r.status).Some? then EndError(r.status) else c.endErr
  {
    match c.msgCh[0]
    case Reply(_) =>
    case Finish(_, _) =>
    case _ =>
  }

  lemma LeaveKeepsReport(c: Client, t: Caller)
    ensures var c' := LeaveDone(c, t); c'.endErr == c.endErr && c'.stats == c.stats && c'.processed == c.processed
  {
    match t
    case TheReader =>
    case _ =>
  }

  lemma EndErrKept(c: Client, e: Event, fired: bool)
    requires EndErrInv(c, fired)
    ensures EndErrInv(Step(c, e), fired || e.MonitorTimeout?)
  {
    var c', fired' := Step(c, e), fired || e.MonitorTimeout?;
    EndErrStep(c, e);
    forall x: Error | ErrorSource(x, c.processed, fired) ensures ErrorSource(x, c'.processed, fired') {
      if c'.processed != c.processed { SourceLater(x, c.processed, c.msgCh[0], fired, fired'); }
    }
    if c'.endErr != c.endErr && e.ReaderTake? {
      SourceLater(c'.endErr.value, c.processed, c.msgCh[0], fired, fired');
    }
  }

  // pongMonitor has timed out in the run.
  ghost predicate TimedOut(events: seq<Event>) { exists k :: 0 <= k < |events| && events[k].MonitorTimeout? }

  lemma {:induction false} EndErrHolds(path: string, events: seq<Event>)
    ensures EndErrInv(After(path, events), TimedOut(events))
  {
    if events != [] {
      var front, last := events[..|events| - 1], events[|events| - 1];
      EndErrHolds(path, front);
      EndErrKept(After(path, front), last, TimedOut(front));
      assert forall k :: 0 <= k < |front| ==> front[k] == events[k];
      assert last.MonitorTimeout? ==> events[|events| - 1].MonitorTimeout?;
      assert TimedOut(events) <==> TimedOut(front) || last.MonitorTimeout?;
    } else {
      assert After(path, events).stats == [StatBegin];
    }
  }

  /** And in every run: an error on the stats handlers' End is the status of an End the
      reader has taken, or the heartbeat timeout, after pongMonitor has timed out. */
  lemma ReportedErrorIsKnown(path: string, events: seq<Event>, k: nat)
    requires var c := After(path, events); k < |c.stats| && c.stats[k].StatEnd? && c.stats[k].error.Some?
    ensures var c := After(path, events); ErrorSource(c.stats[k].error.value, c.processed, TimedOut(events))
  {
    EndErrHolds(path, events);
  }

  // What RecvMsg has answered: the two statuses of a cancelled context, or the error
  // ReadMsg keeps.
  ghost predicate AnsweredInv(c: Client) {
    forall k :: 0 <= k < |c.answered| ==>
      || c.answered[k] == StatusError(Status(1, "context canceled"))
      || c.answered[k] == StatusError(Status(4, "deadline exceeded"))
      || c.lastErr == Some(c.answered[k])
  }

  lemma AnsweredKept(c: Client, e: Event)
    requires AnsweredInv(c)
    ensures AnsweredInv(Step(c, e))
  {
    var c' := Step(c, e);
    AnsweredStep(c, e);
    assert c'.answered != c.answered ==> forall k :: 0 <= k < |c.answered| ==> c'.answered[k] == c.answered[k];
  }

  lemma AnsweredStep(c: Client, e: Event)
    ensures var c' := Step(c, e);
            && (c.lastErr.Some? ==> c'.lastErr == c.lastErr)
            && (c'.answered == c.answered || (e.RecvCancelled? && c'.answered == c.answered + [RecvError(c)]))
  {
    match e
    case ReaderTake =>
      if c.msgCh != [] {
        match c.msgCh[0]
        case Reply(_) =>
        case Finish(_, _) =>
        case _ =>
      }
    case CallDone(t) => LeaveKeepsAnswers(c, t);
    case DoneStep =>
      if c.winner.Some? { LeaveKeepsAnswers(c.(mapped := Off, stage := DONE_REMOVED), c.winner.value); }
    case SenderStep(_) => if c.sender.WritingCall? {} else if c.sender.WritingData? {}
    case _ =>
  }

  lemma LeaveKeepsAnswers(c: Client, t: Caller)
    ensures LeaveDone(c, t).answered == c.answered && LeaveDone(c, t).lastErr == c.lastErr
  {
    match t
    case TheReader =>
    case _ =>
  }
}
