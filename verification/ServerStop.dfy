// Server.Stop among everything else the server does (pkg/rpc/server.go): the stream
// it found in the map ends finalized and unmapped, whoever races to finalize it.
module ServerStopping {
  import opened Wire
  import opened ServerStreams
  import opened ServerSystem

  // The stream has reported Begin, before its first finalize if it has had one.
  predicate BegunInTime(inc: Inc) {
    if inc.s.finalized.On? then inc.begunAtEnd.On? else inc.s.statsBegun.On?
  }

  // What no step undoes: a completed finalize, the first finalize and what it saw, and
  // a Begin reported before it.
  predicate Follows(inc: Inc, inc': Inc) {
    && (inc.removed.On? ==> inc'.removed.On?)
    && (inc.s.finalized.On? ==>
          inc'.s.finalized.On? && inc'.s.endErr == inc.s.endErr && inc'.begunAtEnd == inc.begunAtEnd)
    && (BegunInTime(inc) ==> BegunInTime(inc'))
  }

  lemma ThreadLater(inc: Inc, nid: string, t: Thread, ok: Flag)
    ensures Follows(inc, StepThread(inc, nid, t, ok).0)
  {
    match t
    case WriteBegin(_, _) =>
    case WriteData(_, _) =>
    case CloseBegin(_, _) =>
    case CloseEnd(_, _) =>
    case FinOnce(_, _) =>
    case _ =>
  }

  lemma TakeLater(inc: Inc, registered: Flag, ok: Flag)
    requires inc.s.inbox != []
    ensures Follows(inc, ProcessFrame(Take(inc), registered, inc.s.inbox[0].body, ok))
  {
    match inc.s.inbox[0].body
    case Call(_) =>
    case Data(_) =>
    case End(_) =>
    case Ping(_) =>
    case Unknown =>
  }

  // The other steps leave what Follows speaks of alone.
  lemma RestSame(inc: Inc, registered: Flag, nid: string, e: Local)
    requires !e.WorkerTake? && !e.WorkerStep? && !e.HandlerStep?
    ensures var inc' := LocalStep(inc, registered, nid, e);
            && inc'.removed == inc.removed && inc'.begunAtEnd == inc.begunAtEnd
            && inc'.s.finalized == inc.s.finalized && inc'.s.endErr == inc.s.endErr
            && inc'.s.statsBegun == inc.s.statsBegun
  {
    match e
    case CallSetHeader(_) =>
    case CallSendHeader(_, _) =>
    case _ =>
  }

  lemma LocalLater(inc: Inc, registered: Flag, nid: string, e: Local)
    ensures Follows(inc, LocalStep(inc, registered, nid, e))
  {
    match e
    case WorkerTake(ok) => if inc.s.inbox != [] { TakeLater(inc, registered, ok); }
    case WorkerStep(ok) => ThreadLater(inc, nid, inc.worker, ok);
    case HandlerStep(ok) => ThreadLater(inc, nid, inc.handler, ok);
    case _ => RestSame(inc, registered, nid, e);
  }

  lemma LaterStill(a: Inc, b: Inc, c: Inc)
    requires Follows(a, b) && Follows(b, c)
    ensures Follows(a, c)
  {}

  lemma StopLater(y: System, i: nat)
    requires i < |y.incs|
    ensures i < |StepStop(y).incs| && Follows(y.incs[i], StepStop(y).incs[i])
  {
    match y.stop
    case Finalizing(FinOnce(_, _), _) =>
    case Finalizing(FinCancel(_), _) =>
    case Finalizing(FinRemove(_), _) =>
    case _ =>
  }

  lemma StepLater(y: System, e: Event, i: nat)
    requires i < |y.incs|
    ensures i < |Step(y, e).incs| && Follows(y.incs[i], Step(y, e).incs[i])
  {
    match e
    case At(j, local) => if j < |y.incs| { LocalLater(y.incs[j], y.registered, y.nid, local); }
    case StopStep => StopLater(y, i);
    case _ =>
  }

  // Stop is at work on stream i, or has been.
  ghost predicate StopHas(y: System, i: nat) {
    && i < |y.incs|
    && ((y.stop.Finalizing? && y.stop.target == i)
        || ((y.stop.CancellingServer? || y.stop.StopDone?) && y.incs[i].removed.On?))
  }

  lemma StopBeginHas(y: System, i: nat)
    requires y.stop.NotStopping? && y.mapped == Some(i) && i < |y.incs|
    ensures StopHas(Step(y, StopBegin), i) && Step(y, StopBegin).incs == y.incs
  {}

  lemma StepKeepsStopHas(y: System, e: Event, i: nat)
    requires StopInv(y) && StopHas(y, i)
    ensures StopHas(Step(y, e), i)
  {
    StepLater(y, e, i);
    match e
    case StopStep => StopStepHas(y, i);
    case _ =>
  }

  lemma StopStepHas(y: System, i: nat)
    requires StopInv(y) && StopHas(y, i)
    ensures StopHas(StepStop(y), i)
  {
    StopLater(y, i);
    match y.stop
    case Finalizing(FinOnce(_, _), _) =>
    case Finalizing(FinCancel(_), _) =>
    case Finalizing(FinRemove(_), _) =>
    case _ =>
  }
}
