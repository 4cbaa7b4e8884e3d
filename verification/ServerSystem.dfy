// Everything the server does for one reply inbox (pkg/rpc/server.go): the NATS
// dispatcher, the incarnations of the stream that late frames can create, their
// workers and handlers, and Stop, interleaved in any order.
module ServerSystem {
  import opened Wire
  import opened ServerStreams

  // A frame the dispatcher has looked a stream up for but not yet enqueued.
  datatype Delivery = Delivery(target: nat, frame: Frame)

  // Server.Stop, as far as this reply is concerned.
  datatype StopThread =
    | NotStopping
    | Finalizing(thread: Thread, target: nat)
    | CancellingServer
    | StopDone

  // `mapped` is the entry of Server.streams for the reply; `sent` is what the
  // client published, `taken` how much of it the dispatcher has received, and
  // `published` what the reply inbox carries.
  datatype System = System(
    registered: Flag,
    nid: string,
    serverLive: Flag,
    subscribed: Flag,
    incs: seq<Inc>,
    mapped: Option<nat>,
    sent: seq<Request>,
    taken: nat,
    dispatcher: Option<Delivery>,
    published: seq<Response>,
    stop: StopThread)

  function Init(registered: Flag, nid: string): System {
    System(registered, nid, On, On, [], None, [], 0, None, [], NotStopping)
  }

  datatype Event =
    | Send(request: Request)
    | Lookup
    | Enqueue
    | Drop
    | At(target: nat, local: Local)
    | StopBegin
    | StopStep
    | Unsubscribe

  // onMessage up to the unlock: find or create the stream of the reply.
  function LookupStream(y: System): System
    requires y.taken < |y.sent|
  {
    var frame := Frame(y.taken, y.sent[y.taken]);
    if y.mapped.Some? then
      y.(taken := y.taken + 1, dispatcher := Some(Delivery(y.mapped.value, frame)))
    else
      y.(taken := y.taken + 1, incs := y.incs + [NewInc(y.serverLive, y.taken)], mapped := Some(|y.incs|),
         dispatcher := Some(Delivery(|y.incs|, frame)))
  }

  function Accept(inc: Inc, f: Frame): Inc {
    inc.(s := inc.s.(inbox := inc.s.inbox + [f]), enq := inc.enq + [f])
  }

  function StepAt(y: System, i: nat, e: Local): System
    requires i < |y.incs|
  {
    var inc := y.incs[i];
    var inc' := LocalStep(inc, y.registered, y.nid, e);
    y.(incs := y.incs[i := inc'],
       published := if |inc.out| < |inc'.out| then y.published + [inc'.out[|inc.out|]] else y.published,
       mapped := if Removes(inc, e) then None else y.mapped)
  }

  function CancelAll(incs: seq<Inc>): (r: seq<Inc>)
    ensures |r| == |incs|
    ensures forall i :: 0 <= i < |incs| ==> r[i] == CancelInc(incs[i])
  {
    seq(|incs|, i requires 0 <= i < |incs| => CancelInc(incs[i]))
  }

  function StepStop(y: System): System {
    match y.stop
    case Finalizing(FinOnce(err, _), i) =>
      if i < |y.incs| then
        y.(incs := y.incs[i := FinalizeInc(y.incs[i], err)], stop := Finalizing(FinCancel(Off), i))
      else y
    case Finalizing(FinCancel(_), i) =>
      if i < |y.incs| then
        y.(incs := y.incs[i := CancelInc(y.incs[i])], stop := Finalizing(FinRemove(Off), i))
      else y
    case Finalizing(FinRemove(_), i) =>
      if i < |y.incs| then
        y.(incs := y.incs[i := y.incs[i].(removed := On)], mapped := None, stop := CancellingServer)
      else y
    case CancellingServer => y.(incs := CancelAll(y.incs), serverLive := Off, stop := StopDone)
    case _ => y
  }

  // One atomic step. A step that is not enabled changes nothing.
  function Step(y: System, e: Event): System {
    match e
    case Send(r) => y.(sent := y.sent + [r])
    case Lookup =>
      if y.dispatcher.None? && y.taken < |y.sent| && y.subscribed.On? then LookupStream(y) else y
    case Enqueue =>
      if y.dispatcher.Some? && y.dispatcher.value.target < |y.incs|
         && |y.incs[y.dispatcher.value.target].s.inbox| < INBOX_CAPACITY then
        var d := y.dispatcher.value;
        y.(incs := y.incs[d.target := Accept(y.incs[d.target], d.frame)], dispatcher := None)
      else y
    case Drop =>
      if y.dispatcher.Some? && y.dispatcher.value.target < |y.incs|
         && y.incs[y.dispatcher.value.target].s.live.Off? then
        y.(dispatcher := None)
      else y
    case At(i, local) => if i < |y.incs| then StepAt(y, i, local) else y
    case StopBegin =>
      if !y.stop.NotStopping? then y
      else if y.mapped.Some? then y.(stop := Finalizing(FinOnce(SERVER_STOPPING, Off), y.mapped.value))
      else y.(stop := CancellingServer)
    case StopStep => StepStop(y)
    case Unsubscribe => if y.stop.StopDone? then y.(subscribed := Off) else y
  }

  function Run(y: System, events: seq<Event>): System {
    if events == [] then y else Step(Run(y, events[..|events| - 1]), events[|events| - 1])
  }

  // ---------------------------------------------------------------------
  // The invariant
  // ---------------------------------------------------------------------

  // Frames of `sent` with increasing numbers from lo up to hi.
  ghost predicate FramesIn(fs: seq<Frame>, lo: nat, hi: nat, sent: seq<Request>) {
    && (forall k :: 0 <= k < |fs| ==> lo <= fs[k].no < hi && hi <= |sent| && fs[k].body == sent[fs[k].no])
    && (forall j, k :: 0 <= j < k < |fs| ==> fs[j].no < fs[k].no)
  }

  ghost predicate Contiguous(fs: seq<Frame>, lo: nat) {
    forall k :: 0 <= k < |fs| ==> fs[k].no == lo + k
  }

  // How many frames have left the dispatcher.
  function Dispatched(y: System): int {
    if y.dispatcher.Some? then y.taken - 1 else y.taken
  }

  // One past the last frame number that incarnation i can hold.
  function Horizon(y: System, i: nat): int
    requires i < |y.incs|
  {
    if i + 1 < |y.incs| then y.incs[i + 1].first else Dispatched(y)
  }

  ghost predicate DispatchInv(y: System) {
    && y.taken <= |y.sent|
    && (y.mapped.Some? ==> y.mapped.value == |y.incs| - 1 && y.incs[|y.incs| - 1].removed.Off?)
    && (y.dispatcher.Some? ==>
          && y.taken > 0 && y.incs != []
          && y.dispatcher.value.target == |y.incs| - 1
          && y.dispatcher.value.frame == Frame(y.taken - 1, y.sent[y.taken - 1]))
  }

  predicate Current(y: System, i: nat) {
    y.mapped == Some(i) || (y.dispatcher.Some? && y.dispatcher.value.target == i)
  }

  // Incarnation i holds frames of its own stretch of `sent` only; without gaps
  // while it is live; and up to the last one dispatched while it is also mapped,
  // or the dispatcher is about to enqueue on it.
  ghost predicate StretchInv(y: System, i: nat)
    requires i < |y.incs|
  {
    var inc := y.incs[i];
    && inc.first <= Horizon(y, i) <= Dispatched(y)
    && FramesIn(inc.enq, inc.first, Horizon(y, i), y.sent)
    && (inc.s.live.On? ==> Contiguous(inc.enq, inc.first))
    && (inc.s.live.On? && Current(y, i) ==> inc.first + |inc.enq| == Dispatched(y))
    && (y.serverLive.Off? ==> inc.s.live.Off?)
  }

  ghost predicate FramesInv(y: System) {
    && DispatchInv(y)
    && (forall i :: 0 <= i < |y.incs| ==> StretchInv(y, i))
  }

  ghost predicate IncsInv(y: System) {
    forall i :: 0 <= i < |y.incs| ==> IncInv(y.incs[i], y.registered)
  }

  // The reply inbox carries, Pongs aside, what the one stream that got the Call
  // published.
  ghost predicate InboxInv(y: System) {
    && ((forall i :: 0 <= i < |y.incs| ==> !HasCall(y.incs[i])) ==> ErasePongs(y.published) == [])
    && (forall i :: 0 <= i < |y.incs| && HasCall(y.incs[i]) ==>
          ErasePongs(y.published) == ErasePongs(y.incs[i].out))
  }

  ghost predicate StopInv(y: System) {
    y.stop.Finalizing? ==>
      && y.stop.target < |y.incs| && InFinalize(y.stop.thread)
      && (y.stop.thread.FinCancel? || y.stop.thread.FinRemove? ==> y.incs[y.stop.target].s.finalized.On?)
  }

  ghost predicate Inv(y: System) {
    FramesInv(y) && IncsInv(y) && InboxInv(y) && StopInv(y)
  }

  // At most one Call on the reply inbox.
  ghost predicate OneCall(sent: seq<Request>) {
    forall i, j :: 0 <= i < j < |sent| ==> !(sent[i].Call? && sent[j].Call?)
  }

  lemma {:induction false} CallSeenAt(rs: seq<Request>) returns (k: nat)
    requires CallSeen(rs).On?
    ensures k < |rs| && rs[k].Call?
  {
    if rs[|rs| - 1].Call? {
      k := |rs| - 1;
    } else {
      k := CallSeenAt(rs[..|rs| - 1]);
    }
  }

  lemma {:induction false} FirstsAscend(y: System, i: nat, j: nat)
    requires FramesInv(y) && i < j < |y.incs|
    ensures Horizon(y, i) <= y.incs[j].first
    decreases j - i
  {
    if i + 1 < j {
      FirstsAscend(y, i + 1, j);
      assert StretchInv(y, i + 1);
    }
  }

  // The number of the Call a stream has taken.
  lemma CallNumber(y: System, i: nat) returns (n: nat)
    requires FramesInv(y) && IncsInv(y) && i < |y.incs| && HasCall(y.incs[i])
    ensures y.incs[i].first <= n < Horizon(y, i) && n < |y.sent| && y.sent[n].Call?
    ensures y.incs[i].s.inbox != [] ==> n < y.incs[i].s.inbox[0].no
  {
    var inc := y.incs[i];
    assert StretchInv(y, i) && IncInv(inc, y.registered);
    var k := CallSeenAt(Bodies(inc.done));
    assert inc.enq[k] == inc.done[k];
    if inc.s.inbox != [] { assert inc.enq[|inc.done|] == inc.s.inbox[0]; }
    n := inc.done[k].no;
  }

  lemma HeadNumber(y: System, i: nat)
    requires FramesInv(y) && IncsInv(y) && i < |y.incs| && y.incs[i].s.inbox != []
    ensures var f := y.incs[i].s.inbox[0];
            y.incs[i].first <= f.no < Horizon(y, i) && f.no < |y.sent| && f.body == y.sent[f.no]
  {
    var inc := y.incs[i];
    assert StretchInv(y, i) && IncInv(inc, y.registered);
    assert inc.enq[|inc.done|] == inc.s.inbox[0];
  }

  // A stream takes at most one Call, and at most one stream takes it.
  lemma CallTakenOnce(y: System, i: nat)
    requires FramesInv(y) && IncsInv(y) && OneCall(y.sent) && i < |y.incs|
    ensures FirstCall(y.incs[i])
    ensures forall j :: 0 <= j < |y.incs| && j != i && HasCall(y.incs[j]) ==>
              !HasCall(y.incs[i])
              && (y.incs[i].s.inbox != [] ==> !y.incs[i].s.inbox[0].body.Call?)
  {
    var inc := y.incs[i];
    if inc.s.inbox != [] { HeadNumber(y, i); }
    if HasCall(inc) { var n := CallNumber(y, i); }
    forall j | 0 <= j < |y.incs| && j != i && HasCall(y.incs[j])
      ensures !HasCall(inc) && (inc.s.inbox != [] ==> !inc.s.inbox[0].body.Call?)
    {
      var m := CallNumber(y, j);
      FirstsAscend(y, if i < j then i else j, if i < j then j else i);
      if HasCall(inc) { var n := CallNumber(y, i); }
    }
  }

  lemma InitInv(registered: Flag, nid: string)
    ensures Inv(Init(registered, nid))
  {}

  // ---------------------------------------------------------------------
  // Every step keeps the frames in order
  // ---------------------------------------------------------------------

  lemma LocalFrame(inc: Inc, registered: Flag, nid: string, e: Local)
    ensures var inc' := LocalStep(inc, registered, nid, e);
            && inc'.enq == inc.enq && inc'.first == inc.first
            && (inc'.s.live.On? ==> inc.s.live.On?)
            && (inc'.removed == inc.removed || Removes(inc, e))
  {
    match e
    case WorkerTake(ok) =>
    case WorkerStep(ok) => StepThreadFrame(inc, nid, inc.worker, ok);
    case HandlerStep(ok) => StepThreadFrame(inc, nid, inc.handler, ok);
    case _ =>
  }

  lemma StepThreadFrame(inc: Inc, nid: string, t: Thread, ok: Flag)
    ensures var (inc', t') := StepThread(inc, nid, t, ok);
            && inc'.enq == inc.enq && inc'.first == inc.first
            && (inc'.s.live.On? ==> inc.s.live.On?)
            && (inc'.removed == inc.removed || t.FinRemove?)
  {
    match t
    case WriteBegin(p, last) =>
    case _ =>
  }

  // Incarnation i replaced by one with the same frames.
  lemma ReplaceKeepsFrames(y: System, i: nat, inc': Inc, mapped': Option<nat>, published': seq<Response>,
                           stop': StopThread)
    requires FramesInv(y) && i < |y.incs|
    requires inc'.enq == y.incs[i].enq && inc'.first == y.incs[i].first
    requires inc'.s.live.On? ==> y.incs[i].s.live.On?
    requires mapped' == None || (mapped' == y.mapped && inc'.removed == y.incs[i].removed)
    ensures FramesInv(y.(incs := y.incs[i := inc'], mapped := mapped', published := published', stop := stop'))
  {
    var y' := y.(incs := y.incs[i := inc'], mapped := mapped', published := published', stop := stop');
    assert forall j :: 0 <= j < |y.incs| ==> y'.incs[j].first == y.incs[j].first && y'.incs[j].enq == y.incs[j].enq;
    forall j | 0 <= j < |y'.incs|
      ensures StretchInv(y', j)
    {
      assert StretchInv(y, j);
      assert Horizon(y', j) == Horizon(y, j);
    }
  }

  lemma SendKeepsFrames(y: System, r: Request)
    requires FramesInv(y)
    ensures FramesInv(y.(sent := y.sent + [r]))
  {
    var y' := y.(sent := y.sent + [r]);
    forall j | 0 <= j < |y'.incs|
      ensures StretchInv(y', j)
    {
      assert StretchInv(y, j);
      assert Horizon(y', j) == Horizon(y, j);
    }
  }

  lemma LookupKeepsFrames(y: System)
    requires FramesInv(y) && y.dispatcher.None? && y.taken < |y.sent|
    ensures FramesInv(LookupStream(y))
  {
    var y' := LookupStream(y);
    forall j | 0 <= j < |y'.incs|
      ensures StretchInv(y', j)
    {
      if j < |y.incs| {
        assert StretchInv(y, j);
        assert Horizon(y', j) == Horizon(y, j);
      }
    }
  }

  lemma EnqueueKeepsFrames(y: System)
    requires FramesInv(y) && y.dispatcher.Some?
    ensures var d := y.dispatcher.value;
            FramesInv(y.(incs := y.incs[d.target := Accept(y.incs[d.target], d.frame)], dispatcher := None))
  {
    var d := y.dispatcher.value;
    var y' := y.(incs := y.incs[d.target := Accept(y.incs[d.target], d.frame)], dispatcher := None);
    forall j | 0 <= j < |y'.incs|
      ensures StretchInv(y', j)
    {
      assert StretchInv(y, j);
    }
  }

  lemma DropKeepsFrames(y: System)
    requires FramesInv(y) && y.dispatcher.Some? && y.incs[y.dispatcher.value.target].s.live.Off?
    ensures FramesInv(y.(dispatcher := None))
  {
    var y' := y.(dispatcher := None);
    forall j | 0 <= j < |y'.incs|
      ensures StretchInv(y', j)
    {
      assert StretchInv(y, j);
    }
  }

  lemma StopKeepsFrames(y: System)
    requires FramesInv(y) && StopInv(y)
    ensures FramesInv(StepStop(y))
  {
    match y.stop
    case Finalizing(FinOnce(err, _), i) =>
      ReplaceKeepsFrames(y, i, FinalizeInc(y.incs[i], err), y.mapped, y.published, Finalizing(FinCancel(Off), i));
    case Finalizing(FinCancel(_), i) =>
      ReplaceKeepsFrames(y, i, CancelInc(y.incs[i]), y.mapped, y.published, Finalizing(FinRemove(Off), i));
    case Finalizing(FinRemove(_), i) =>
      ReplaceKeepsFrames(y, i, y.incs[i].(removed := On), None, y.published, CancellingServer);
    case CancellingServer =>
      var y' := StepStop(y);
      forall j | 0 <= j < |y'.incs|
        ensures StretchInv(y', j)
      {
        assert StretchInv(y, j);
        assert Horizon(y', j) == Horizon(y, j);
      }
    case _ =>
  }

  lemma StopFieldKeepsFrames(y: System, stop': StopThread, subscribed': Flag)
    requires FramesInv(y)
    ensures FramesInv(y.(stop := stop', subscribed := subscribed'))
  {
    forall j | 0 <= j < |y.incs|
      ensures StretchInv(y.(stop := stop', subscribed := subscribed'), j)
    {
      assert StretchInv(y, j);
    }
  }

  lemma StepKeepsFrames(y: System, e: Event)
    requires FramesInv(y) && StopInv(y)
    ensures FramesInv(Step(y, e))
  {
    match e
    case Send(r) => SendKeepsFrames(y, r);
    case Lookup =>
      if y.dispatcher.None? && y.taken < |y.sent| { LookupKeepsFrames(y); }
    case Enqueue =>
      if y.dispatcher.Some? { EnqueueKeepsFrames(y); }
    case Drop =>
      if y.dispatcher.Some? && y.incs[y.dispatcher.value.target].s.live.Off? { DropKeepsFrames(y); }
    case At(i, local) =>
      if i < |y.incs| {
        LocalFrame(y.incs[i], y.registered, y.nid, local);
        var y' := StepAt(y, i, local);
        ReplaceKeepsFrames(y, i, y'.incs[i], y'.mapped, y'.published, y'.stop);
      }
    case StopStep => StopKeepsFrames(y);
    case StopBegin => StopFieldKeepsFrames(y, Step(y, e).stop, y.subscribed);
    case Unsubscribe => StopFieldKeepsFrames(y, y.stop, Step(y, e).subscribed);
  }

  // ---------------------------------------------------------------------
  // Every step keeps every stream in order, and the reply inbox
  // ---------------------------------------------------------------------

  lemma AcceptKeeps(inc: Inc, f: Frame, registered: Flag)
    requires IncInv(inc, registered)
    ensures IncInv(Accept(inc, f), registered)
  {
    assert SeenOf(Accept(inc, f)) == SeenOf(inc);
    AcceptBusy(inc, f, registered, SeenOf(inc));
    AcceptQueue(inc, f);
  }

  lemma AcceptBusy(inc: Inc, f: Frame, registered: Flag, n: Seen)
    requires BusyInv(inc, registered, n)
    ensures BusyInv(Accept(inc, f), registered, n)
  {}

  lemma AcceptQueue(inc: Inc, f: Frame)
    requires QueueInv(inc)
    ensures QueueInv(Accept(inc, f))
  {
    assert inc.enq + [f] == inc.done + (inc.s.inbox + [f]);
  }

  lemma FinalizeBusy(inc: Inc, err: Option<Error>, registered: Flag, n: Seen)
    requires BusyInv(inc, registered, n)
    ensures BusyInv(FinalizeInc(inc, err), registered,
                    if inc.s.finalized.Off? && inc.s.statsBegun.On? then Reporting(n, StatEnd(err)) else n)
  {
    if inc.s.finalized.On? {
    } else if inc.s.statsBegun.On? {
    } else {
    }
  }

  lemma FinalizeKeeps(inc: Inc, err: Option<Error>, registered: Flag)
    requires IncInv(inc, registered)
    ensures IncInv(FinalizeInc(inc, err), registered) && FinalizeInc(inc, err).s.finalized.On?
  {
    FinalizeBusy(inc, err, registered, SeenOf(inc));
    QueuesKept(inc, FinalizeInc(inc, err));
    if inc.s.finalized.Off? && inc.s.statsBegun.On? { ReportShows(inc, FinalizeOnce(inc.s, err), StatEnd(err)); }
  }

  lemma CancelBusy(inc: Inc, registered: Flag, n: Seen)
    requires BusyInv(inc, registered, n)
    ensures BusyInv(CancelInc(inc), registered, n)
  {}

  lemma CancelKeeps(inc: Inc, registered: Flag)
    requires IncInv(inc, registered)
    ensures IncInv(CancelInc(inc), registered)
  {
    CancelBusy(inc, registered, SeenOf(inc));
    QueuesKept(inc, CancelInc(inc));
    assert SeenOf(CancelInc(inc)) == SeenOf(inc);
  }

  lemma RemovedKeeps(inc: Inc, registered: Flag)
    requires IncInv(inc, registered) && inc.s.finalized.On?
    ensures IncInv(inc.(removed := On), registered)
  {
    assert BusyInv(inc.(removed := On), registered, SeenOf(inc));
    QueuesKept(inc, inc.(removed := On));
    assert SeenOf(inc.(removed := On)) == SeenOf(inc);
  }

  lemma StopKeepsIncs(y: System)
    requires IncsInv(y) && StopInv(y)
    ensures IncsInv(StepStop(y)) && StopInv(StepStop(y))
  {
    match y.stop
    case Finalizing(FinOnce(err, _), i) => FinalizeKeeps(y.incs[i], err, y.registered);
    case Finalizing(FinCancel(_), i) => CancelKeeps(y.incs[i], y.registered);
    case Finalizing(FinRemove(_), i) => RemovedKeeps(y.incs[i], y.registered);
    case CancellingServer =>
      forall j | 0 <= j < |y.incs|
        ensures IncInv(CancelInc(y.incs[j]), y.registered)
      {
        CancelKeeps(y.incs[j], y.registered);
      }
    case _ =>
  }

  lemma AtKeepsIncs(y: System, i: nat, e: Local)
    requires FramesInv(y) && IncsInv(y) && OneCall(y.sent) && i < |y.incs|
    ensures IncsInv(StepAt(y, i, e))
  {
    CallTakenOnce(y, i);
    LocalStepKeeps(y.incs[i], y.registered, y.nid, e);
  }

  lemma EnqueueKeepsIncs(y: System, d: Delivery)
    requires IncsInv(y) && d.target < |y.incs|
    ensures IncsInv(y.(incs := y.incs[d.target := Accept(y.incs[d.target], d.frame)], dispatcher := None))
  {
    AcceptKeeps(y.incs[d.target], d.frame, y.registered);
  }

  lemma StepKeepsIncs(y: System, e: Event)
    requires FramesInv(y) && IncsInv(y) && StopInv(y) && OneCall(y.sent)
    ensures IncsInv(Step(y, e))
  {
    match e
    case Lookup => NewIncInv(y.serverLive, y.taken, y.registered);
    case Enqueue =>
      if y.dispatcher.Some? { EnqueueKeepsIncs(y, y.dispatcher.value); }
    case At(i, local) => if i < |y.incs| { AtKeepsIncs(y, i, local); }
    case StopStep => StopKeepsIncs(y);
    case _ =>
  }

  ghost predicate AtMostOneMore(a: seq<Response>, b: seq<Response>) {
    b == a || (|b| == |a| + 1 && b == a + [b[|a|]])
  }

  lemma ThreadPublishes(inc: Inc, nid: string, t: Thread, ok: Flag)
    ensures var inc' := StepThread(inc, nid, t, ok).0;
            && AtMostOneMore(inc.out, inc'.out)
            && inc'.done == inc.done
            && (inc.s.finalized.On? ==> inc'.s.finalized.On?)
  {
    match t
    case WriteBegin(p, last) =>
    case _ =>
  }

  // Taking a frame publishes a Pong at most, and nothing when it is the Call.
  lemma TakePublishes(inc: Inc, registered: Flag, ok: Flag)
    requires inc.s.inbox != []
    ensures var inc' := ProcessFrame(Take(inc), registered, inc.s.inbox[0].body, ok);
            && AtMostOneMore(inc.out, inc'.out)
            && (HasCall(inc) ==> HasCall(inc'))
            && (!HasCall(inc) && HasCall(inc') ==> inc'.out == inc.out)
            && inc'.s.finalized == inc.s.finalized
  {
    BodiesAppend(inc.done, inc.s.inbox[0]);
    match inc.s.inbox[0].body
    case Ping(ts) =>
    case _ =>
  }

  // A local step publishes at most one response; taking the Call publishes none.
  lemma LocalPublishes(inc: Inc, registered: Flag, nid: string, e: Local)
    ensures var inc' := LocalStep(inc, registered, nid, e);
            && AtMostOneMore(inc.out, inc'.out)
            && (HasCall(inc) ==> HasCall(inc'))
            && (!HasCall(inc) && HasCall(inc') ==> inc'.out == inc.out)
            && (inc.s.finalized.On? ==> inc'.s.finalized.On?)
  {
    match e
    case WorkerTake(ok) => if inc.s.inbox != [] { TakePublishes(inc, registered, ok); }
    case WorkerStep(ok) => ThreadPublishes(inc, nid, inc.worker, ok);
    case HandlerStep(ok) => ThreadPublishes(inc, nid, inc.handler, ok);
    case _ =>
  }

  // A stream that has not taken the Call has published Pongs only.
  lemma OnlyPongs(inc: Inc, registered: Flag)
    requires IncInv(inc, registered) && !HasCall(inc)
    ensures ErasePongs(inc.out) == []
  {
    assert SeenOf(inc).called.Off?;
    DigestIsGrammar(inc.out);
  }

  lemma AtKeepsInbox(y: System, i: nat, e: Local)
    requires Inv(y) && OneCall(y.sent) && i < |y.incs|
    requires FramesInv(StepAt(y, i, e)) && IncsInv(StepAt(y, i, e))
    ensures InboxInv(StepAt(y, i, e))
  {
    var y' := StepAt(y, i, e);
    var inc, inc' := y.incs[i], y'.incs[i];
    LocalPublishes(inc, y.registered, y.nid, e);
    assert IncInv(inc', y.registered) && IncInv(inc, y.registered);
    CallTakenOnce(y', i);
    assert forall j :: 0 <= j < |y.incs| && j != i ==> y'.incs[j] == y.incs[j];
    if inc'.out != inc.out {
      var r := inc'.out[|inc.out|];
      ErasePongsAppend(inc.out, r);
      ErasePongsAppend(y.published, r);
    }
    if !HasCall(inc) { OnlyPongs(inc, y.registered); }
    if !HasCall(inc') { OnlyPongs(inc', y.registered); }
  }

  // Stop publishes nothing and takes no frame.
  lemma StopFrame(y: System)
    ensures var y' := StepStop(y);
            && |y'.incs| == |y.incs| && y'.published == y.published
            && forall j :: 0 <= j < |y.incs| ==> y'.incs[j].out == y.incs[j].out && y'.incs[j].done == y.incs[j].done
  {
    match y.stop
    case Finalizing(FinOnce(_, _), _) =>
    case Finalizing(FinCancel(_), _) =>
    case Finalizing(FinRemove(_), _) =>
    case _ =>
  }

  lemma SameInbox(y: System, y': System)
    requires InboxInv(y) && |y'.incs| == |y.incs| && y'.published == y.published
    requires forall j :: 0 <= j < |y.incs| ==> y'.incs[j].out == y.incs[j].out && y'.incs[j].done == y.incs[j].done
    ensures InboxInv(y')
  {
    assert forall j :: 0 <= j < |y.incs| ==> HasCall(y'.incs[j]) == HasCall(y.incs[j]);
  }

  lemma StopKeepsInbox(y: System)
    requires InboxInv(y)
    ensures InboxInv(StepStop(y))
  {
    StopFrame(y);
    SameInbox(y, StepStop(y));
  }

  lemma LookupKeepsInbox(y: System)
    requires InboxInv(y) && y.taken < |y.sent|
    ensures InboxInv(LookupStream(y))
  {
    var y' := LookupStream(y);
    assert forall j :: 0 <= j < |y.incs| ==> y'.incs[j] == y.incs[j];
  }

  lemma EnqueueKeepsInbox(y: System, d: Delivery)
    requires InboxInv(y) && d.target < |y.incs|
    ensures InboxInv(y.(incs := y.incs[d.target := Accept(y.incs[d.target], d.frame)], dispatcher := None))
  {
    var incs' := y.incs[d.target := Accept(y.incs[d.target], d.frame)];
    assert forall j :: 0 <= j < |y.incs| ==> incs'[j].out == y.incs[j].out && incs'[j].done == y.incs[j].done;
  }

  lemma StepKeepsInbox(y: System, e: Event)
    requires Inv(y) && OneCall(y.sent) && FramesInv(Step(y, e)) && IncsInv(Step(y, e))
    ensures InboxInv(Step(y, e))
  {
    match e
    case At(i, local) => if i < |y.incs| { AtKeepsInbox(y, i, local); }
    case StopStep => StopKeepsInbox(y);
    case Lookup =>
      if y.dispatcher.None? && y.taken < |y.sent| { LookupKeepsInbox(y); }
    case Enqueue =>
      if y.dispatcher.Some? { EnqueueKeepsInbox(y, y.dispatcher.value); }
    case _ =>
  }

  lemma AtKeepsStop(y: System, i: nat, e: Local)
    requires StopInv(y) && i < |y.incs|
    ensures StopInv(StepAt(y, i, e))
  {
    LocalPublishes(y.incs[i], y.registered, y.nid, e);
  }

  lemma StepKeepsStop(y: System, e: Event)
    requires DispatchInv(y) && IncsInv(y) && StopInv(y)
    ensures StopInv(Step(y, e))
  {
    match e
    case At(i, local) => if i < |y.incs| { AtKeepsStop(y, i, local); }
    case StopStep => StopKeepsIncs(y);
    case _ =>
  }

  /** Every step keeps the invariant. */
  lemma StepKeeps(y: System, e: Event)
    requires Inv(y) && OneCall(y.sent)
    ensures Inv(Step(y, e))
  {
    StepKeepsFrames(y, e);
    StepKeepsIncs(y, e);
    StepKeepsInbox(y, e);
    StepKeepsStop(y, e);
  }

  // `sent` only grows, so a prefix of a run carries at most one Call too.
  lemma SentGrows(y: System, e: Event)
    ensures y.sent <= Step(y, e).sent
  {}

  /** The invariant holds after any run that publishes at most one Call. */
  lemma {:induction false} RunKeeps(y: System, events: seq<Event>)
    requires Inv(y) && OneCall(Run(y, events).sent)
    ensures Inv(Run(y, events))
  {
    if events != [] {
      var front := events[..|events| - 1];
      SentGrows(Run(y, front), events[|events| - 1]);
      RunKeeps(y, front);
      StepKeeps(Run(y, front), events[|events| - 1]);
    }
  }
}
