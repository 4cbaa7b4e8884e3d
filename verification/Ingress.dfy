// The registrations of the sidecar (pkg/sidecar/ingress.go, sidecar.go): stream
// workers being created by subscription callbacks and exiting on their own, while
// closeIngress and Sidecar.Close tear their registration down.
module IngressSystem {
  import opened Wire
  import Subjects

  // Where a worker stands: created but not running; running; its deferred exit
  // has removed its cancel function, has removed it from Sidecar.streams, has
  // cancelled its context.
  datatype Phase = Created | Running | Unlisted | Unindexed | Gone

  // `sub` is the subscription whose callback made the worker.
  datatype Worker = Worker(reply: string, sub: nat, cancelled: Flag, phase: Phase)

  // ensureStreamWorker on its way, in the callback of one subscription, for one
  // reply: past the first critical section; worker made; addStream done; stored in
  // Sidecar.streams.
  datatype Creation =
    | Checked(reply: string)
    | Made(reply: string, worker: nat)
    | Added(reply: string, worker: nat)
    | Stored(reply: string, worker: nat)

  // teardown: the subscriptions and the cancel functions that the one caller that
  // set `torndown` has still to go through.
  datatype Teardown = NotStarted | Unsubscribing(next: nat) | Cancelling | TornDown

  // The registration: one stream subscription per service, in order. `routes` are
  // the streams callers ever open: their reply inboxes and the subject all frames
  // of each are published on.
  datatype Config = Config(svcid: string, nid: string, services: seq<string>, routes: map<string, string>)

  // NATS hands frames of the stream to the callback of subscription `sub`.
  predicate Receives(config: Config, sub: nat, reply: string) {
    && sub < |config.services| && reply in config.routes
    && Subjects.Matches(Subjects.StreamPattern(config.svcid, config.nid, config.services[sub]), config.routes[reply])
  }

  // ctxs is registration.streamCtxs (the worker each cancel function belongs to),
  // streams is Sidecar.streams, creating what each callback is doing, unsubscribed
  // counts the calls on each subscription. A callback runs one frame at a time;
  // callbacks of different subscriptions run concurrently.
  datatype System = System(
    config: Config,
    torndown: Flag,
    ctxs: map<string, nat>,
    streams: map<string, nat>,
    workers: seq<Worker>,
    creating: map<nat, Creation>,
    teardown: Teardown,
    pending: set<nat>,
    unsubscribed: seq<nat>)

  // openIngress has made a unary and a stream subscription for each service.
  function Init(config: Config): System {
    System(config, Off, map[], map[], [], map[], NotStarted, {}, seq(2 * |config.services|, i => 0))
  }

  datatype Event =
    | Check(sub: nat, reply: string)
    | Make(sub: nat, ok: Flag)
    | AddStream(sub: nat)
    | Store(sub: nat)
    | Start(sub: nat)
    | Unlist(worker: nat)
    | Unindex(worker: nat)
    | FinishExit(worker: nat)
    | BeginTeardown
    | Unsubscribe
    | CancelOne(worker: nat)
    | EndTeardown

  function Cancel(y: System, w: nat): System
    requires w < |y.workers|
  {
    y.(workers := y.workers[w := y.workers[w].(cancelled := On)])
  }

  function Move(y: System, w: nat, p: Phase): System
    requires w < |y.workers|
  {
    y.(workers := y.workers[w := y.workers[w].(phase := p)])
  }

  // Whether worker w is in the phase p.
  predicate At(y: System, w: nat, p: Phase) { w < |y.workers| && y.workers[w].phase == p }

  function StepCreate(y: System, e: Event): System
    requires e.Check? || e.Make? || e.AddStream? || e.Store? || e.Start?
  {
    match e
    case Check(s, r) =>
      if s !in y.creating && y.torndown.Off? && r !in y.ctxs && Receives(y.config, s, r) then
        y.(creating := y.creating[s := Checked(r)])
      else y
    case Make(s, ok) =>
      if s !in y.creating || !y.creating[s].Checked? then y
      else if ok.On? then
        y.(workers := y.workers + [Worker(y.creating[s].reply, s, Off, Created)],
           creating := y.creating[s := Made(y.creating[s].reply, |y.workers|)])
      else y.(creating := y.creating - {s})
    case AddStream(s) =>
      if s !in y.creating || !y.creating[s].Made? || y.creating[s].worker >= |y.workers| then y
      else
        var r, w := y.creating[s].reply, y.creating[s].worker;
        if y.torndown.On? then Cancel(y, w).(creating := y.creating[s := Added(r, w)])
        else y.(ctxs := y.ctxs[r := w], creating := y.creating[s := Added(r, w)])
    case Store(s) =>
      if s !in y.creating || !y.creating[s].Added? then y
      else
        var r, w := y.creating[s].reply, y.creating[s].worker;
        y.(streams := y.streams[r := w], creating := y.creating[s := Stored(r, w)])
    case Start(s) =>
      if s !in y.creating || !y.creating[s].Stored? || y.creating[s].worker >= |y.workers| then y
      else Move(y, y.creating[s].worker, Running).(creating := y.creating - {s})
  }

  // The deferred exit of run(), in its order.
  function StepExit(y: System, e: Event): System
    requires e.Unlist? || e.Unindex? || e.FinishExit?
  {
    match e
    case Unlist(w) =>
      if At(y, w, Running) then Move(y, w, Unlisted).(ctxs := y.ctxs - {y.workers[w].reply}) else y
    case Unindex(w) =>
      if At(y, w, Unlisted) then Move(y, w, Unindexed).(streams := y.streams - {y.workers[w].reply}) else y
    case FinishExit(w) =>
      if At(y, w, Unindexed) then Move(Cancel(y, w), w, Gone) else y
  }

  function StepTeardown(y: System, e: Event): System
    requires e.BeginTeardown? || e.Unsubscribe? || e.CancelOne? || e.EndTeardown?
  {
    match e
    case BeginTeardown =>
      if y.torndown.On? then y
      else y.(torndown := On, pending := y.ctxs.Values, ctxs := map[], teardown := Unsubscribing(0))
    case Unsubscribe =>
      if !y.teardown.Unsubscribing? then y
      else if y.teardown.next < |y.unsubscribed| then
        y.(unsubscribed := y.unsubscribed[y.teardown.next := y.unsubscribed[y.teardown.next] + 1],
           teardown := Unsubscribing(y.teardown.next + 1))
      else y.(teardown := Cancelling)
    case CancelOne(w) =>
      if y.teardown.Cancelling? && w in y.pending && w < |y.workers| then
        Cancel(y, w).(pending := y.pending - {w})
      else y
    case EndTeardown =>
      if y.teardown.Cancelling? && y.pending == {} then y.(teardown := TornDown) else y
  }

  function Step(y: System, e: Event): System {
    if e.Check? || e.Make? || e.AddStream? || e.Store? || e.Start? then StepCreate(y, e)
    else if e.Unlist? || e.Unindex? || e.FinishExit? then StepExit(y, e)
    else StepTeardown(y, e)
  }

  function Run(y: System, events: seq<Event>): System {
    if events == [] then y else Step(Run(y, events[..|events| - 1]), events[|events| - 1])
  }

  // ---------------------------------------------------------------------
  // What every registration keeps
  // ---------------------------------------------------------------------

  ghost predicate CtxsInv(y: System) {
    && (y.torndown.On? ==> y.ctxs == map[])
    && (y.torndown.On? <==> !y.teardown.NotStarted?)
    && (forall r :: r in y.ctxs ==> y.ctxs[r] < |y.workers| && y.workers[y.ctxs[r]].reply == r)
  }

  ghost predicate CreationInv(y: System) {
    && (forall s :: s in y.creating ==> Receives(y.config, s, y.creating[s].reply))
    && (forall s :: s in y.creating && !y.creating[s].Checked? ==> IsMaking(y, s, y.creating[s].worker))
    && (forall w :: 0 <= w < |y.workers| ==> Receives(y.config, y.workers[w].sub, y.workers[w].reply))
  }

  // Worker w is the one that the callback of subscription s is creating.
  predicate IsMaking(y: System, s: nat, w: nat)
    requires s in y.creating
  {
    && w < |y.workers| && y.workers[w].reply == y.creating[s].reply && y.workers[w].sub == s
    && y.workers[w].phase.Created?
  }

  // Sidecar.streams holds workers that have not yet removed themselves.
  ghost predicate StreamsInv(y: System) {
    forall r :: r in y.streams ==>
      && y.streams[r] < |y.workers| && y.workers[y.streams[r]].reply == r
      && (y.workers[y.streams[r]].phase.Created? || y.workers[y.streams[r]].phase.Running?
          || y.workers[y.streams[r]].phase.Unlisted?)
  }

  ghost predicate TeardownInv(y: System) {
    && (y.teardown.TornDown? ==> y.pending == {})
    && (y.teardown.NotStarted? ==> y.pending == {})
    && (forall w :: w in y.pending ==> w < |y.workers|)
    && (y.teardown.Unsubscribing? ==> y.teardown.next <= |y.unsubscribed|)
    && (forall k :: 0 <= k < |y.unsubscribed| ==> y.unsubscribed[k] == (if Passed(y, k) then 1 else 0))
  }

  predicate Passed(y: System, k: nat) {
    y.teardown.Cancelling? || y.teardown.TornDown? || (y.teardown.Unsubscribing? && k < y.teardown.next)
  }

  ghost predicate Inv(y: System) {
    WorkersInv(y) && IndexInv(y)
  }

  ghost predicate WorkersInv(y: System) { CtxsInv(y) && CreationInv(y) }

  ghost predicate IndexInv(y: System) { StreamsInv(y) && TeardownInv(y) }

  lemma CheckKeepsWorkers(y: System, s: nat, r: string)
    requires WorkersInv(y)
    ensures WorkersInv(StepCreate(y, Check(s, r)))
  {}

  lemma CheckKeepsIndex(y: System, s: nat, r: string)
    requires IndexInv(y) && CreationInv(y)
    ensures IndexInv(StepCreate(y, Check(s, r)))
  {}

  lemma MakeKeepsWorkers(y: System, s: nat, ok: Flag)
    requires WorkersInv(y)
    ensures WorkersInv(StepCreate(y, Make(s, ok)))
  {
    if ok.On? {} else {}
  }

  lemma MakeKeepsIndex(y: System, s: nat, ok: Flag)
    requires IndexInv(y) && CreationInv(y)
    ensures IndexInv(StepCreate(y, Make(s, ok)))
  {
    if ok.On? {} else {}
  }

  lemma AddStreamKeepsWorkers(y: System, s: nat)
    requires WorkersInv(y)
    ensures WorkersInv(StepCreate(y, AddStream(s)))
  {
    if y.torndown.On? {} else {}
  }

  lemma AddStreamKeepsIndex(y: System, s: nat)
    requires IndexInv(y) && CreationInv(y)
    ensures IndexInv(StepCreate(y, AddStream(s)))
  {
    if y.torndown.On? {} else {}
  }

  lemma StoreKeepsWorkers(y: System, s: nat)
    requires WorkersInv(y)
    ensures WorkersInv(StepCreate(y, Store(s)))
  {}

  lemma StoreKeepsIndex(y: System, s: nat)
    requires IndexInv(y) && CreationInv(y)
    ensures IndexInv(StepCreate(y, Store(s)))
  {}

  lemma StartKeepsCtxs(y: System, s: nat)
    requires CtxsInv(y)
    ensures CtxsInv(StepCreate(y, Start(s)))
  {}

  lemma StartKeepsCreation(y: System, s: nat)
    requires CreationInv(y)
    ensures CreationInv(StepCreate(y, Start(s)))
  {
    var y' := StepCreate(y, Start(s));
    forall t | t in y'.creating && !y'.creating[t].Checked? ensures IsMaking(y', t, y'.creating[t].worker) {
      assert IsMaking(y, t, y.creating[t].worker);
    }
    forall w | 0 <= w < |y'.workers| ensures Receives(y'.config, y'.workers[w].sub, y'.workers[w].reply) {
      assert Receives(y.config, y.workers[w].sub, y.workers[w].reply);
    }
  }

  lemma StartKeepsWorkers(y: System, s: nat)
    requires WorkersInv(y)
    ensures WorkersInv(StepCreate(y, Start(s)))
  {
    StartKeepsCtxs(y, s);
    StartKeepsCreation(y, s);
  }

  lemma StartKeepsIndex(y: System, s: nat)
    requires IndexInv(y) && CreationInv(y)
    ensures IndexInv(StepCreate(y, Start(s)))
  {}

  lemma UnlistKeepsWorkers(y: System, w: nat)
    requires WorkersInv(y)
    ensures WorkersInv(StepExit(y, Unlist(w)))
  {}

  lemma UnlistKeepsIndex(y: System, w: nat)
    requires IndexInv(y)
    ensures IndexInv(StepExit(y, Unlist(w)))
  {}

  lemma UnindexKeepsWorkers(y: System, w: nat)
    requires WorkersInv(y)
    ensures WorkersInv(StepExit(y, Unindex(w)))
  {}

  lemma UnindexKeepsIndex(y: System, w: nat)
    requires IndexInv(y)
    ensures IndexInv(StepExit(y, Unindex(w)))
  {}

  lemma FinishExitKeepsWorkers(y: System, w: nat)
    requires WorkersInv(y)
    ensures WorkersInv(StepExit(y, FinishExit(w)))
  {}

  lemma FinishExitKeepsIndex(y: System, w: nat)
    requires IndexInv(y)
    ensures IndexInv(StepExit(y, FinishExit(w)))
  {}

  lemma TeardownKeepsWorkers(y: System, e: Event)
    requires WorkersInv(y) && (e.BeginTeardown? || e.Unsubscribe? || e.CancelOne? || e.EndTeardown?)
    ensures WorkersInv(StepTeardown(y, e))
  {
    match e
    case BeginTeardown =>
    case Unsubscribe =>
    case CancelOne(w) =>
    case EndTeardown =>
  }

  lemma TeardownKeepsIndex(y: System, e: Event)
    requires Inv(y) && (e.BeginTeardown? || e.Unsubscribe? || e.CancelOne? || e.EndTeardown?)
    ensures IndexInv(StepTeardown(y, e))
  {
    match e
    case BeginTeardown =>
    case Unsubscribe =>
    case CancelOne(w) =>
    case EndTeardown =>
  }

  lemma CreateKeeps(y: System, e: Event)
    requires Inv(y) && (e.Check? || e.Make? || e.AddStream? || e.Store? || e.Start?)
    ensures Inv(StepCreate(y, e))
  {
    match e
    case Check(s, r) => CheckKeepsWorkers(y, s, r); CheckKeepsIndex(y, s, r);
    case Make(s, ok) => MakeKeepsWorkers(y, s, ok); MakeKeepsIndex(y, s, ok);
    case AddStream(s) => AddStreamKeepsWorkers(y, s); AddStreamKeepsIndex(y, s);
    case Store(s) => StoreKeepsWorkers(y, s); StoreKeepsIndex(y, s);
    case Start(s) => StartKeepsWorkers(y, s); StartKeepsIndex(y, s);
  }

  lemma ExitKeeps(y: System, e: Event)
    requires Inv(y) && (e.Unlist? || e.Unindex? || e.FinishExit?)
    ensures Inv(StepExit(y, e))
  {
    match e
    case Unlist(w) => UnlistKeepsWorkers(y, w); UnlistKeepsIndex(y, w);
    case Unindex(w) => UnindexKeepsWorkers(y, w); UnindexKeepsIndex(y, w);
    case FinishExit(w) => FinishExitKeepsWorkers(y, w); FinishExitKeepsIndex(y, w);
  }

  lemma ConfigKept(y: System, e: Event)
    ensures Step(y, e).config == y.config
  {}

  lemma StepKeeps(y: System, e: Event)
    requires Inv(y)
    ensures Inv(Step(y, e)) && Step(y, e).config == y.config
  {
    ConfigKept(y, e);
    if e.Check? || e.Make? || e.AddStream? || e.Store? || e.Start? {
      CreateKeeps(y, e);
    } else if e.Unlist? || e.Unindex? || e.FinishExit? {
      ExitKeeps(y, e);
    } else {
      TeardownKeepsWorkers(y, e);
      TeardownKeepsIndex(y, e);
    }
  }

  lemma {:induction false} RunKeeps(config: Config, events: seq<Event>)
    ensures Inv(Run(Init(config), events)) && Run(Init(config), events).config == config
  {
    if events != [] {
      RunKeeps(config, events[..|events| - 1]);
      StepKeeps(Run(Init(config), events[..|events| - 1]), events[|events| - 1]);
    }
  }
}
