// Goroutines that cancellation does not free: processData sends on the receive channel
// outside any select (pkg/rpc/client.go, pkg/rpc/server.go), so that ReadMsg and the
// inbox worker of a cancelled stream return exactly when they are not blocked there.
module Blocked {
  import opened Wire
  import C = ClientStreams
  import CT = ClientTheorems
  import SS = ServerStreams

  // ---------------------------------------------------------------------
  // ReadMsg
  // ---------------------------------------------------------------------

  ghost predicate NobodyReceives(events: seq<C.Event>) {
    forall k :: 0 <= k < |events| ==> !events[k].RecvMsg?
  }

  // ReadMsg can still return, with nobody in RecvMsg.
  ghost predicate MayReturn(c: C.Client) {
    exists events :: NobodyReceives(events) && C.Run(c, events).reader.ReaderExited?
  }

  // How many of its own steps ReadMsg is away from returning, at most.
  function Distance(c: C.Client): nat {
    match c.reader
    case ReaderExited => 0
    case Reading => 1
    case Recording(_) => 1
    case Sending(_) => 2
    case ReaderInDone(_) => if c.stage < 8 then 10 - c.stage else 2
  }

  // The next of them.
  function NextRead(c: C.Client): C.Event {
    match c.reader
    case Sending(_) => C.ReaderDeliver
    case Recording(_) => C.ReaderRecord
    case ReaderInDone(_) => if C.InBody(c, C.TheReader) then C.DoneStep else C.CallDone(C.TheReader)
    case _ => C.ReaderExit
  }

  lemma ReadAdvances(c: C.Client)
    requires C.DoneInv(c) && c.live.Off? && !c.reader.ReaderExited?
    requires !(c.reader.Sending? && |c.recv| >= 1)
    ensures var c' := C.Step(c, NextRead(c));
            Distance(c') < Distance(c) && c'.live.Off? && !(c'.reader.Sending? && |c'.recv| >= 1)
  {
    CT.NeverRevived(c, NextRead(c));
    match c.reader
    case ReaderInDone(err) => if C.InBody(c, C.TheReader) { BodyAdvances(c); } else { LeavesOrEnters(c); }
    case _ =>
  }

  lemma BodyAdvances(c: C.Client)
    requires C.DoneInv(c) && c.reader.ReaderInDone? && C.InBody(c, C.TheReader)
    ensures var c' := C.Step(c, C.DoneStep);
            Distance(c') < Distance(c) && !c'.reader.Sending?
  {
    if c.stage == C.DONE_CHANNEL {
      if c.reader.err.Some? {} else {}
    }
  }

  lemma LeavesOrEnters(c: C.Client)
    requires C.DoneInv(c) && c.reader.ReaderInDone? && !C.InBody(c, C.TheReader)
    ensures var c' := C.Step(c, C.CallDone(C.TheReader));
            Distance(c') < Distance(c) && !c'.reader.Sending?
  {
    if c.closed.On? && c.reader.err.Some? {} else {}
  }

  lemma {:induction false} ReaderReturns(c: C.Client) returns (events: seq<C.Event>)
    requires C.Inv(c) && c.live.Off? && !(c.reader.Sending? && |c.recv| >= 1)
    ensures NobodyReceives(events) && C.Run(c, events).reader.ReaderExited?
    decreases Distance(c)
  {
    if c.reader.ReaderExited? {
      events := [];
    } else {
      ReadAdvances(c);
      C.StepKeeps(c, NextRead(c));
      var rest := ReaderReturns(C.Step(c, NextRead(c)));
      events := [NextRead(c)] + rest;
      CT.RunOne(c, NextRead(c), rest);
    }
  }

  lemma StepStaysBlocked(c: C.Client, e: C.Event)
    requires C.DoneInv(c) && c.reader.Sending? && |c.recv| >= 1 && !e.RecvMsg?
    ensures C.Step(c, e).reader == c.reader && C.Step(c, e).recv == c.recv
  {
    match e
    case CallDone(t) => if C.IsInDone(c, t) { LeaveStaysBlocked(c, t); }
    case DoneStep => DoneStaysBlocked(c);
    case _ => OtherStaysBlocked(c, e);
  }

  lemma DoneStaysBlocked(c: C.Client)
    requires C.DoneInv(c) && c.reader.Sending?
    ensures C.Step(c, C.DoneStep).reader == c.reader && C.Step(c, C.DoneStep).recv == c.recv
  {
    if c.winner.Some? && c.stage == C.DONE_CHANNEL {
      LeaveStaysBlocked(c.(mapped := Off, stage := C.DONE_REMOVED), c.winner.value);
    }
  }

  lemma OtherStaysBlocked(c: C.Client, e: C.Event)
    requires c.reader.Sending? && |c.recv| >= 1 && !e.RecvMsg? && !e.CallDone? && !e.DoneStep?
    ensures C.Step(c, e).reader == c.reader && C.Step(c, e).recv == c.recv
  {
    match e
    case SenderStep(_) =>
    case _ =>
  }

  lemma LeaveStaysBlocked(c: C.Client, t: C.Caller)
    requires c.reader.Sending? && C.IsInDone(c, t)
    ensures C.LeaveDone(c, t).reader == c.reader && C.LeaveDone(c, t).recv == c.recv
  {
    match t
    case TheReader =>
    case _ =>
  }

  lemma {:induction false} StaysBlocked(c: C.Client, events: seq<C.Event>)
    requires C.Inv(c) && c.reader.Sending? && |c.recv| >= 1 && NobodyReceives(events)
    ensures C.Run(c, events).reader == c.reader && C.Run(c, events).recv == c.recv
  {
    if events != [] {
      var front, last := events[..|events| - 1], events[|events| - 1];
      assert forall k :: 0 <= k < |front| ==> front[k] == events[k];
      StaysBlocked(c, front);
      C.RunKeeps(c, front);
      StepStaysBlocked(C.Run(c, front), last);
    }
  }

  /** Whatever has cancelled a client stream: if the caller does not come back to RecvMsg,
      ReadMsg can return if and only if it is not blocked handing a payload to a full
      buffer. */
  lemma ReaderReturnsExactly(path: string, events: seq<C.Event>)
    requires CT.After(path, events).live.Off?
    ensures var c := CT.After(path, events); MayReturn(c) <==> !(c.reader.Sending? && |c.recv| >= 1)
  {
    var c := CT.After(path, events);
    CT.AfterKeeps(path, events);
    if c.reader.Sending? && |c.recv| >= 1 {
      forall rest | NobodyReceives(rest) ensures !C.Run(c, rest).reader.ReaderExited? { StaysBlocked(c, rest); }
    } else {
      var rest := ReaderReturns(c);
    }
  }

  // ---------------------------------------------------------------------
  // The inbox worker
  // ---------------------------------------------------------------------

  function RunLocal(inc: SS.Inc, registered: Flag, nid: string, es: seq<SS.Local>): SS.Inc {
    if es == [] then inc
    else SS.LocalStep(RunLocal(inc, registered, nid, es[..|es| - 1]), registered, nid, es[|es| - 1])
  }

  lemma {:induction false} LocalOne(inc: SS.Inc, registered: Flag, nid: string, e: SS.Local, rest: seq<SS.Local>)
    ensures RunLocal(inc, registered, nid, [e] + rest) ==
            RunLocal(SS.LocalStep(inc, registered, nid, e), registered, nid, rest)
  {
    if rest == [] {
      assert [e] + rest == [e] && [e][..0] == [];
    } else {
      var front := rest[..|rest| - 1];
      assert ([e] + rest)[..|[e] + rest| - 1] == [e] + front;
      LocalOne(inc, registered, nid, e, front);
    }
  }

  ghost predicate NobodyReads(es: seq<SS.Local>) {
    forall k :: 0 <= k < |es| ==> !es[k].CallRecvMsg?
  }

  // The worker can still return, with the handler not in RecvMsg.
  ghost predicate MayExit(inc: SS.Inc, registered: Flag, nid: string) {
    exists es :: NobodyReads(es) && RunLocal(inc, registered, nid, es).worker.Exited?
  }

  // The worker comes back from close and finalize.
  predicate ComesBack(t: SS.Thread) {
    && !t.NotStarted? && !SS.InSend(t)
    && (t.CloseBegin? || t.CloseEnd? ==> WellFormedError(t.err) && t.back.On?)
    && (SS.InFinalize(t) ==> t.back.On?)
  }

  function Steps(t: SS.Thread): nat {
    match t
    case Exited => 0
    case Idle => 1
    case Sending(_) => 2
    case FinRemove(_) => 2
    case FinCancel(_) => 3
    case FinOnce(_, _) => 4
    case CloseEnd(_, _) => 5
    case _ => 6
  }

  function NextStep(t: SS.Thread): SS.Local {
    match t
    case Idle => SS.WorkerExit
    case Sending(_) => SS.WorkerDeliver
    case _ => SS.WorkerStep(On)
  }

  lemma WorkerAdvances(inc: SS.Inc, registered: Flag, nid: string)
    requires ComesBack(inc.worker) && inc.s.live.Off? && !inc.worker.Exited?
    requires !(inc.worker.Sending? && |inc.s.recv| >= 1)
    ensures var inc' := SS.LocalStep(inc, registered, nid, NextStep(inc.worker));
            && Steps(inc'.worker) < Steps(inc.worker) && ComesBack(inc'.worker) && inc'.s.live.Off?
            && !inc'.worker.Sending?
  {
    match inc.worker
    case Idle =>
    case Sending(_) =>
    case CloseBegin(_, _) =>
    case CloseEnd(_, _) =>
    case FinOnce(_, _) =>
    case FinCancel(_) =>
    case FinRemove(_) =>
  }

  lemma {:induction false} WorkerExits(inc: SS.Inc, registered: Flag, nid: string) returns (es: seq<SS.Local>)
    requires ComesBack(inc.worker) && inc.s.live.Off? && !(inc.worker.Sending? && |inc.s.recv| >= 1)
    ensures NobodyReads(es) && RunLocal(inc, registered, nid, es).worker.Exited?
    decreases Steps(inc.worker)
  {
    if inc.worker.Exited? {
      es := [];
    } else {
      WorkerAdvances(inc, registered, nid);
      var e := NextStep(inc.worker);
      var rest := WorkerExits(SS.LocalStep(inc, registered, nid, e), registered, nid);
      es := [e] + rest;
      LocalOne(inc, registered, nid, e, rest);
    }
  }

  // Nothing but RecvMsg makes room.
  lemma WorkerStuck(inc: SS.Inc, registered: Flag, nid: string, e: SS.Local)
    requires inc.worker.Sending? && |inc.s.recv| >= 1 && !e.CallRecvMsg?
    ensures var inc' := SS.LocalStep(inc, registered, nid, e);
            inc'.worker == inc.worker && inc'.s.recv == inc.s.recv
  {
    match e
    case HandlerStep(ok) => if SS.InSend(inc.handler) || SS.InClose(inc.handler) { ThreadFrees(inc, nid, ok); }
    case CallSetHeader(_) =>
    case CallSendHeader(_, _) =>
    case _ =>
  }

  lemma ThreadFrees(inc: SS.Inc, nid: string, ok: Flag)
    ensures var inc' := SS.StepThread(inc, nid, inc.handler, ok).0;
            inc'.worker == inc.worker && inc'.s.recv == inc.s.recv
  {
    match inc.handler
    case WriteBegin(_, _) =>
    case _ =>
  }

  lemma {:induction false} WorkerStaysStuck(inc: SS.Inc, registered: Flag, nid: string, es: seq<SS.Local>)
    requires inc.worker.Sending? && |inc.s.recv| >= 1 && NobodyReads(es)
    ensures var inc' := RunLocal(inc, registered, nid, es); inc'.worker == inc.worker && inc'.s.recv == inc.s.recv
  {
    if es != [] {
      var front, last := es[..|es| - 1], es[|es| - 1];
      assert forall k :: 0 <= k < |front| ==> front[k] == es[k];
      WorkerStaysStuck(inc, registered, nid, front);
      WorkerStuck(RunLocal(inc, registered, nid, front), registered, nid, last);
    }
  }

  /** Whatever has cancelled a server stream: if its handler does not come back to RecvMsg,
      the inbox worker can return if and only if it is not blocked handing a payload to a
      full buffer. */
  lemma WorkerReturnsExactly(inc: SS.Inc, registered: Flag, nid: string)
    requires SS.IncInv(inc, registered) && inc.s.live.Off?
    ensures MayExit(inc, registered, nid) <==> !(inc.worker.Sending? && |inc.s.recv| >= 1)
  {
    assert SS.ThreadInv(inc, registered, SS.SeenOf(inc));
    if inc.worker.Sending? && |inc.s.recv| >= 1 {
      forall es | NobodyReads(es) ensures !RunLocal(inc, registered, nid, es).worker.Exited? {
        WorkerStaysStuck(inc, registered, nid, es);
      }
    } else {
      var es := WorkerExits(inc, registered, nid);
    }
  }
}
