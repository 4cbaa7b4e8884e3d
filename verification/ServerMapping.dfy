// Which stream Server.streams holds (pkg/rpc/server.go): Server.remove deletes by
// reply, but until Stop nobody deletes the entry of a live stream whose handler is
// running, because a client publishes at most one End with an error status.
module ServerMapping {
  import opened Wire
  import opened ServerStreams
  import opened ServerSystem

  predicate IsErrorEnd(r: Request) { r.End? && !IsOk(r.status) }

  function ErrorEnds(rs: seq<Request>): nat {
    if rs == [] then 0
    else ErrorEnds(rs[..|rs| - 1]) + (if IsErrorEnd(rs[|rs| - 1]) then 1 else 0)
  }

  lemma ErrorEndsAppend(rs: seq<Request>, r: Request)
    ensures ErrorEnds(rs + [r]) == ErrorEnds(rs) + (if IsErrorEnd(r) then 1 else 0)
  {
    assert (rs + [r])[..|rs|] == rs;
  }

  // pongMonitor publishes the only End with an error status.
  ghost predicate OneErrorEnd(sent: seq<Request>) {
    forall i, j :: 0 <= i < j < |sent| ==> !(IsErrorEnd(sent[i]) && IsErrorEnd(sent[j]))
  }

  // ---------------------------------------------------------------------
  // One stream
  // ---------------------------------------------------------------------

  // A stream that has not taken the Call is finalized by its worker only, once for
  // each error End, and a completed finalize leaves its context cancelled.
  ghost predicate RemovalInv(inc: Inc, called: Flag, errors: nat) {
    && (inc.removed.On? ==> inc.s.live.Off?)
    && (called.Off? && (InFinalize(inc.worker) || inc.removed.On?) ==> errors >= 1)
    && (called.Off? && InFinalize(inc.worker) && inc.removed.On? ==> errors >= 2)
  }

  ghost predicate Removal(inc: Inc) {
    RemovalInv(inc, CallSeen(Bodies(inc.done)), ErrorEnds(Bodies(inc.done)))
  }

  lemma TakeRemoval(inc: Inc, registered: Flag, ok: Flag, called: Flag, errors: nat)
    requires RemovalInv(inc, called, errors) && inc.worker.Idle? && inc.s.inbox != []
    ensures var r := inc.s.inbox[0].body;
            RemovalInv(ProcessFrame(Take(inc), registered, r, ok), if r.Call? then On else called,
                       errors + (if IsErrorEnd(r) then 1 else 0))
  {
    match inc.s.inbox[0].body
    case Call(_) =>
    case Data(_) =>
    case End(status) => if IsOk(status) {} else {}
    case Ping(_) =>
    case Unknown =>
  }

  lemma WorkerRemoval(inc: Inc, nid: string, ok: Flag, called: Flag, errors: nat)
    requires RemovalInv(inc, called, errors) && InClose(inc.worker)
    requires called.Off? ==> InFinalize(inc.worker)
    requires inc.worker.FinRemove? ==> inc.s.live.Off?
    ensures var (inc', t) := StepThread(inc, nid, inc.worker, ok); RemovalInv(inc'.(worker := t), called, errors)
  {
    match inc.worker
    case CloseBegin(_, _) =>
    case CloseEnd(_, _) =>
    case FinOnce(_, _) =>
    case FinCancel(_) =>
    case FinRemove(_) =>
  }

  lemma HandlerRemoval(inc: Inc, nid: string, ok: Flag, called: Flag, errors: nat)
    requires RemovalInv(inc, called, errors) && called.On?
    requires inc.handler.FinRemove? ==> inc.s.live.Off?
    ensures var (inc', t) := StepThread(inc, nid, inc.handler, ok); RemovalInv(inc'.(handler := t), called, errors)
  {
    match inc.handler
    case WriteBegin(_, _) =>
    case CloseBegin(_, _) =>
    case _ =>
  }

  // What the removal property looks at.
  lemma RemovalFrame(inc: Inc, inc': Inc)
    requires Removal(inc) && inc'.removed == inc.removed && inc'.worker == inc.worker && inc'.done == inc.done
    requires inc.s.live.Off? ==> inc'.s.live.Off?
    ensures Removal(inc')
  {}

  lemma RemovalFacts(inc: Inc, registered: Flag)
    requires IncInv(inc, registered)
    ensures !HasCall(inc) ==> inc.handler.NotStarted? && !inc.worker.CloseBegin? && !inc.worker.CloseEnd?
    ensures inc.worker.FinRemove? || inc.handler.FinRemove? ==> inc.s.live.Off?
  {
    assert SeenOf(inc).called == CallSeen(Bodies(inc.done));
  }

  lemma TakeKeepsRemoval(inc: Inc, registered: Flag, nid: string, ok: Flag)
    requires Removal(inc) && inc.worker.Idle? && inc.s.inbox != []
    ensures Removal(LocalStep(inc, registered, nid, WorkerTake(ok)))
  {
    var f := inc.s.inbox[0];
    BodiesAppend(inc.done, f);
    ErrorEndsAppend(Bodies(inc.done), f.body);
    TakeRemoval(inc, registered, ok, CallSeen(Bodies(inc.done)), ErrorEnds(Bodies(inc.done)));
    TakesIt(inc, registered, ok);
  }

  lemma TakesIt(inc: Inc, registered: Flag, ok: Flag)
    requires inc.s.inbox != []
    ensures ProcessFrame(Take(inc), registered, inc.s.inbox[0].body, ok).done == inc.done + [inc.s.inbox[0]]
  {
    match inc.s.inbox[0].body
    case Ping(_) =>
    case _ =>
  }

  lemma WorkerKeepsRemoval(inc: Inc, registered: Flag, nid: string, ok: Flag)
    requires IncInv(inc, registered) && Removal(inc) && InClose(inc.worker)
    ensures Removal(LocalStep(inc, registered, nid, WorkerStep(ok)))
  {
    RemovalFacts(inc, registered);
    WorkerRemoval(inc, nid, ok, CallSeen(Bodies(inc.done)), ErrorEnds(Bodies(inc.done)));
    StepThreadQueues(inc, nid, inc.worker, ok);
  }

  lemma HandlerKeepsRemoval(inc: Inc, registered: Flag, nid: string, ok: Flag)
    requires IncInv(inc, registered) && Removal(inc) && (InSend(inc.handler) || InClose(inc.handler))
    ensures Removal(LocalStep(inc, registered, nid, HandlerStep(ok)))
  {
    RemovalFacts(inc, registered);
    HandlerRemoval(inc, nid, ok, CallSeen(Bodies(inc.done)), ErrorEnds(Bodies(inc.done)));
    StepThreadQueues(inc, nid, inc.handler, ok);
  }

  // The steps that hand over payloads, and the calls of the handler.
  lemma RestKeepsRemoval(inc: Inc, registered: Flag, nid: string, e: Local)
    requires Removal(inc) && !e.WorkerTake? && !e.WorkerStep? && !e.HandlerStep?
    ensures Removal(LocalStep(inc, registered, nid, e))
  {
    var inc' := LocalStep(inc, registered, nid, e);
    RestFrame(inc, registered, nid, e);
    assert Bodies(inc'.done) == Bodies(inc.done);
  }

  lemma RestFrame(inc: Inc, registered: Flag, nid: string, e: Local)
    requires !e.WorkerTake? && !e.WorkerStep? && !e.HandlerStep?
    ensures var inc' := LocalStep(inc, registered, nid, e);
            && inc'.removed == inc.removed && inc'.done == inc.done && inc'.s.live == inc.s.live
            && (InFinalize(inc'.worker) ==> InFinalize(inc.worker))
  {
    match e
    case WorkerDeliver =>
    case WorkerExit =>
    case CallSetHeader(_) =>
    case CallSendHeader(_, _) =>
    case _ =>
  }

  lemma LocalRemoval(inc: Inc, registered: Flag, nid: string, e: Local)
    requires IncInv(inc, registered) && Removal(inc)
    ensures Removal(LocalStep(inc, registered, nid, e))
  {
    match e
    case WorkerTake(ok) => if inc.worker.Idle? && inc.s.inbox != [] { TakeKeepsRemoval(inc, registered, nid, ok); }
    case WorkerStep(ok) => if InClose(inc.worker) { WorkerKeepsRemoval(inc, registered, nid, ok); }
    case HandlerStep(ok) =>
      if InSend(inc.handler) || InClose(inc.handler) { HandlerKeepsRemoval(inc, registered, nid, ok); }
    case _ => RestKeepsRemoval(inc, registered, nid, e);
  }

  // ---------------------------------------------------------------------
  // The entry of the map
  // ---------------------------------------------------------------------

  // Two streams at most: the one that takes the Call, and one before it that an
  // error End has removed.
  ghost predicate Shape(incs: seq<Inc>, mapped: Option<nat>) {
    || (incs == [] && mapped.None?)
    || (|incs| == 1 && incs[0].removed.Off? && mapped == Some(0))
    || (|incs| == 1 && incs[0].removed.On? && !HasCall(incs[0]) && mapped.None?)
    || (|incs| == 2 && incs[0].removed.On? && !HasCall(incs[0]) && incs[1].removed.Off? && mapped == Some(1))
  }

  ghost predicate CallerLives(incs: seq<Inc>) {
    forall k :: 0 <= k < |incs| && HasCall(incs[k]) ==> incs[k].s.live.On?
  }

  ghost predicate MapInv(y: System) {
    y.stop.NotStopping? ==>
      && (forall k :: 0 <= k < |y.incs| ==> Removal(y.incs[k]))
      && (CallerLives(y.incs) ==> Shape(y.incs, y.mapped))
  }

  lemma {:induction false} ErrorEndAt(rs: seq<Request>) returns (k: nat)
    requires ErrorEnds(rs) >= 1
    ensures k < |rs| && IsErrorEnd(rs[k]) && ErrorEnds(rs[..k]) == ErrorEnds(rs) - 1
  {
    if IsErrorEnd(rs[|rs| - 1]) {
      k := |rs| - 1;
    } else {
      var front := rs[..|rs| - 1];
      k := ErrorEndAt(front);
      assert front[..k] == rs[..k];
    }
  }

  // The number of the k-th frame a stream has processed.
  lemma DoneNumber(y: System, i: nat, k: nat) returns (n: nat)
    requires FramesInv(y) && IncsInv(y) && i < |y.incs| && k < |y.incs[i].done|
    ensures n == y.incs[i].done[k].no && y.incs[i].first <= n < Horizon(y, i) && n < |y.sent|
    ensures Bodies(y.incs[i].done)[k] == y.sent[n]
  {
    var inc := y.incs[i];
    assert StretchInv(y, i) && IncInv(inc, y.registered);
    assert inc.enq[k] == inc.done[k];
    n := inc.done[k].no;
  }

  lemma DoneAscends(y: System, i: nat, j: nat, k: nat)
    requires FramesInv(y) && IncsInv(y) && i < |y.incs| && j < k < |y.incs[i].done|
    ensures y.incs[i].done[j].no < y.incs[i].done[k].no
  {
    var inc := y.incs[i];
    assert StretchInv(y, i) && IncInv(inc, y.registered);
    assert inc.enq[j] == inc.done[j] && inc.enq[k] == inc.done[k];
  }

  // A stream processes at most one error End ...
  lemma OneErrorInStream(y: System, i: nat)
    requires FramesInv(y) && IncsInv(y) && OneErrorEnd(y.sent) && i < |y.incs|
    ensures ErrorEnds(Bodies(y.incs[i].done)) <= 1
  {
    var rs := Bodies(y.incs[i].done);
    if ErrorEnds(rs) >= 2 {
      var k := ErrorEndAt(rs);
      var j := ErrorEndAt(rs[..k]);
      var n := DoneNumber(y, i, k);
      var m := DoneNumber(y, i, j);
      DoneAscends(y, i, j, k);
    }
  }

  // ... and two streams do not both.
  lemma OneErrorInAll(y: System, i: nat, j: nat)
    requires FramesInv(y) && IncsInv(y) && OneErrorEnd(y.sent) && i < j < |y.incs|
    requires ErrorEnds(Bodies(y.incs[i].done)) >= 1
    ensures ErrorEnds(Bodies(y.incs[j].done)) == 0
  {
    if ErrorEnds(Bodies(y.incs[j].done)) >= 1 {
      var k := ErrorEndAt(Bodies(y.incs[i].done));
      var l := ErrorEndAt(Bodies(y.incs[j].done));
      var n := DoneNumber(y, i, k);
      var m := DoneNumber(y, j, l);
      FirstsAscend(y, i, j);
    }
  }

  // A step of stream i keeps a dead caller dead.
  lemma CallerStaysDead(y: System, i: nat, e: Local)
    requires i < |y.incs| && CallerLives(StepAt(y, i, e).incs)
    ensures CallerLives(y.incs)
  {
    var y' := StepAt(y, i, e);
    LocalFrame(y.incs[i], y.registered, y.nid, e);
    LocalPublishes(y.incs[i], y.registered, y.nid, e);
    forall k | 0 <= k < |y.incs| && HasCall(y.incs[k]) ensures y.incs[k].s.live.On? {
      assert HasCall(y'.incs[k]) && y'.incs[k].s.live.On?;
    }
  }

  // A live stream completes a finalize only before its Call, and for its error End.
  lemma RemoverIsNew(y: System, i: nat, e: Local)
    requires FramesInv(y) && IncsInv(y) && OneErrorEnd(y.sent) && i < |y.incs| && Removal(y.incs[i])
    requires Removes(y.incs[i], e) && (HasCall(y.incs[i]) ==> y.incs[i].s.live.On?)
    ensures !HasCall(y.incs[i]) && y.incs[i].removed.Off? && ErrorEnds(Bodies(y.incs[i].done)) >= 1
  {
    assert IncInv(y.incs[i], y.registered);
    RemovalFacts(y.incs[i], y.registered);
    OneErrorInStream(y, i);
  }

  // Who completes a finalize while no caller is dead.
  lemma RemoverIsTheFirst(y: System, i: nat, e: Local)
    requires FramesInv(y) && IncsInv(y) && OneErrorEnd(y.sent) && y.stop.NotStopping? && MapInv(y)
    requires i < |y.incs| && Removes(y.incs[i], e) && CallerLives(y.incs)
    ensures |y.incs| == 1 && i == 0 && y.incs[0].removed.Off? && !HasCall(y.incs[0])
  {
    RemoverIsNew(y, i, e);
    if |y.incs| == 2 && i == 1 {
      assert Removal(y.incs[0]);
      if ErrorEnds(Bodies(y.incs[0].done)) >= 1 { OneErrorInAll(y, 0, 1); }
    }
  }

  lemma AtKeepsShape(y: System, i: nat, e: Local)
    requires Inv(y) && OneErrorEnd(y.sent) && y.stop.NotStopping? && MapInv(y) && i < |y.incs|
    requires CallerLives(StepAt(y, i, e).incs)
    ensures Shape(StepAt(y, i, e).incs, StepAt(y, i, e).mapped)
  {
    var inc, inc' := y.incs[i], StepAt(y, i, e).incs[i];
    CallerStaysDead(y, i, e);
    LocalFrame(inc, y.registered, y.nid, e);
    LocalPublishes(inc, y.registered, y.nid, e);
    if Removes(inc, e) {
      RemoverIsTheFirst(y, i, e);
      RemoverRemoves(inc, y.registered, y.nid, e);
    } else {
      assert Removal(inc);
    }
  }

  lemma RemoverRemoves(inc: Inc, registered: Flag, nid: string, e: Local)
    requires Removes(inc, e)
    ensures var inc' := LocalStep(inc, registered, nid, e); inc'.removed.On? && inc'.done == inc.done
  {}

  lemma AtKeeps(y: System, i: nat, e: Local)
    requires Inv(y) && OneErrorEnd(y.sent) && y.stop.NotStopping? && MapInv(y) && i < |y.incs|
    ensures MapInv(StepAt(y, i, e))
  {
    var y' := StepAt(y, i, e);
    assert IncInv(y.incs[i], y.registered);
    LocalRemoval(y.incs[i], y.registered, y.nid, e);
    assert forall k :: 0 <= k < |y'.incs| && k != i ==> y'.incs[k] == y.incs[k];
    if CallerLives(y'.incs) { AtKeepsShape(y, i, e); }
  }

  lemma LookupKeeps(y: System)
    requires MapInv(y) && y.stop.NotStopping? && y.taken < |y.sent|
    ensures MapInv(LookupStream(y))
  {
    if y.mapped.None? {
      var y' := LookupStream(y);
      assert forall k :: 0 <= k < |y.incs| ==> y'.incs[k] == y.incs[k];
      NewRemoval(y.serverLive, y.taken);
      if CallerLives(y'.incs) {
        forall k | 0 <= k < |y.incs| && HasCall(y.incs[k]) ensures y.incs[k].s.live.On? {
          assert HasCall(y'.incs[k]);
        }
      }
    }
  }

  lemma NewRemoval(live: Flag, first: nat)
    ensures Removal(NewInc(live, first)) && !HasCall(NewInc(live, first)) && NewInc(live, first).removed.Off?
  {}

  lemma EnqueueKeeps(y: System, d: Delivery)
    requires MapInv(y) && y.stop.NotStopping? && d.target < |y.incs|
    ensures MapInv(y.(incs := y.incs[d.target := Accept(y.incs[d.target], d.frame)], dispatcher := None))
  {
    var inc' := Accept(y.incs[d.target], d.frame);
    var incs' := y.incs[d.target := inc'];
    RemovalFrame(y.incs[d.target], inc');
    assert forall k :: 0 <= k < |y.incs| ==> HasCall(incs'[k]) == HasCall(y.incs[k])
                                             && incs'[k].s.live == y.incs[k].s.live
                                             && incs'[k].removed == y.incs[k].removed;
  }

  // Every stream was created by a frame of its own.
  ghost predicate Ascending(y: System) {
    && (forall i :: 0 <= i < |y.incs| ==> y.incs[i].first < y.taken)
    && (forall i, j :: 0 <= i < j < |y.incs| ==> y.incs[i].first < y.incs[j].first)
  }

  lemma SameFirsts(y: System, y': System)
    requires Ascending(y) && y'.taken == y.taken && |y'.incs| == |y.incs|
    requires forall i :: 0 <= i < |y.incs| ==> y'.incs[i].first == y.incs[i].first
    ensures Ascending(y')
  {}

  lemma StepAscends(y: System, e: Event)
    requires Ascending(y)
    ensures Ascending(Step(y, e))
  {
    match e
    case Lookup =>
    case At(i, local) =>
      if i < |y.incs| {
        LocalFrame(y.incs[i], y.registered, y.nid, local);
        SameFirsts(y, Step(y, e));
      }
    case StopStep =>
      StopKeepsFirsts(y);
      SameFirsts(y, StepStop(y));
    case _ => SameFirsts(y, Step(y, e));
  }

  lemma StopKeepsFirsts(y: System)
    ensures StepStop(y).taken == y.taken && |StepStop(y).incs| == |y.incs|
    ensures forall i :: 0 <= i < |y.incs| ==> StepStop(y).incs[i].first == y.incs[i].first
  {
    match y.stop
    case Finalizing(FinOnce(_, _), _) =>
    case Finalizing(FinCancel(_), _) =>
    case Finalizing(FinRemove(_), _) =>
    case _ =>
  }

  /** Every step keeps it while the client has published at most one error End. */
  lemma StepKeepsMapping(y: System, e: Event)
    requires Inv(y) && MapInv(y) && OneErrorEnd(y.sent)
    ensures MapInv(Step(y, e))
  {
    if y.stop.NotStopping? {
      match e
      case Lookup => if y.taken < |y.sent| { LookupKeeps(y); }
      case Enqueue =>
        if y.dispatcher.Some? && y.dispatcher.value.target < |y.incs| { EnqueueKeeps(y, y.dispatcher.value); }
      case At(i, local) => if i < |y.incs| { AtKeeps(y, i, local); }
      case _ =>
    }
  }

  /** Until Stop, a live stream whose Call has been taken is the entry of
      Server.streams. */
  lemma StartedIsMapped(y: System, i: nat)
    requires Inv(y) && MapInv(y) && OneCall(y.sent) && y.stop.NotStopping?
    requires i < |y.incs| && HasCall(y.incs[i]) && y.incs[i].s.live.On?
    ensures y.mapped == Some(i)
  {
    OnlyCaller(y, i);
    CallerIsMapped(y.incs, y.mapped, i);
  }

  lemma CallerIsMapped(incs: seq<Inc>, mapped: Option<nat>, i: nat)
    requires Shape(incs, mapped) && i < |incs| && HasCall(incs[i])
    ensures mapped == Some(i)
  {}

  /** And so is, until Stop, the live stream that the Call created, from the start. */
  lemma CreatedIsMapped(y: System, i: nat)
    requires Inv(y) && MapInv(y) && Ascending(y) && OneCall(y.sent) && y.stop.NotStopping?
    requires i < |y.incs| && y.incs[i].s.live.On? && y.incs[i].first < |y.sent| && y.sent[y.incs[i].first].Call?
    ensures y.mapped == Some(i)
  {
    CreatedIsCaller(y, i);
    LiveIsMapped(y.incs, y.mapped, i);
  }

  // No other stream has taken the Call.
  lemma CreatedIsCaller(y: System, i: nat)
    requires FramesInv(y) && IncsInv(y) && Ascending(y) && OneCall(y.sent)
    requires i < |y.incs| && y.incs[i].s.live.On? && y.incs[i].first < |y.sent| && y.sent[y.incs[i].first].Call?
    ensures CallerLives(y.incs)
  {
    forall k | 0 <= k < |y.incs| && HasCall(y.incs[k]) ensures y.incs[k].s.live.On? {
      if k != i {
        var n := CallNumber(y, k);
        if k < i { FirstsAscend(y, k, i); }
      }
    }
  }

  lemma LiveIsMapped(incs: seq<Inc>, mapped: Option<nat>, i: nat)
    requires Shape(incs, mapped) && i < |incs| && incs[i].s.live.On?
    requires forall k :: 0 <= k < |incs| ==> Removal(incs[k])
    ensures mapped == Some(i)
  {
    assert Removal(incs[i]);
  }

  lemma OnlyCaller(y: System, i: nat)
    requires FramesInv(y) && IncsInv(y) && OneCall(y.sent)
    requires i < |y.incs| && HasCall(y.incs[i]) && y.incs[i].s.live.On?
    ensures CallerLives(y.incs)
  {
    forall k | 0 <= k < |y.incs| && HasCall(y.incs[k]) ensures y.incs[k].s.live.On? {
      if k != i { CallTakenOnce(y, k); }
    }
  }
}
