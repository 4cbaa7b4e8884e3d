// What teardown promises about the workers of a registration
// (pkg/sidecar/ingress.go), and for which lists of services it does.
module IngressTheorems {
  import opened Wire
  import opened IngressSystem
  import Subjects

  // No two subscriptions of the registration are handed the frames of one stream.
  ghost predicate SoleReceivers(config: Config) {
    forall r, s: nat, t: nat :: Receives(config, s, r) && Receives(config, t, r) ==> s == t
  }

  // The worker has not yet removed its cancel function.
  predicate Listed(w: Worker) { w.phase.Created? || w.phase.Running? }

  // The callback that made worker w is still ahead of its addStream.
  predicate Unadded(y: System, w: nat)
    requires w < |y.workers|
  {
    y.workers[w].sub in y.creating && y.creating[y.workers[w].sub] == Made(y.workers[w].reply, w)
  }

  // Until teardown the worker is in streamCtxs or about to be added; afterwards it
  // is cancelled, about to be cancelled, or about to be added.
  predicate Attended(y: System, w: nat)
    requires w < |y.workers|
  {
    || Unadded(y, w)
    || (y.torndown.Off? && y.workers[w].reply in y.ctxs && y.ctxs[y.workers[w].reply] == w)
    || (y.torndown.On? && (y.workers[w].cancelled.On? || w in y.pending))
  }

  ghost predicate ListedInv(y: System) {
    forall w :: 0 <= w < |y.workers| && Listed(y.workers[w]) ==> Attended(y, w)
  }

  // A reply whose worker is being created has none listed.
  ghost predicate ClearInv(y: System) {
    forall s :: s in y.creating && (y.creating[s].Checked? || y.creating[s].Made?) && y.torndown.Off? ==>
      y.creating[s].reply !in y.ctxs
  }

  ghost predicate SoleInv(y: System) { ListedInv(y) && ClearInv(y) }

  lemma CheckKeeps(y: System, s: nat, r: string)
    requires Inv(y) && SoleInv(y)
    ensures SoleInv(StepCreate(y, Check(s, r)))
  {}

  lemma MakeKeeps(y: System, s: nat, ok: Flag)
    requires Inv(y) && SoleInv(y) && SoleReceivers(y.config)
    ensures SoleInv(StepCreate(y, Make(s, ok)))
  {
    var y' := StepCreate(y, Make(s, ok));
    forall w | 0 <= w < |y'.workers| && Listed(y'.workers[w])
      ensures Attended(y', w)
    {
      if w < |y.workers| { assert Attended(y, w); }
    }
  }

  // No other callback is creating a worker for the same reply.
  lemma AloneOnReply(y: System, s: nat, t: nat)
    requires Inv(y) && SoleReceivers(y.config) && s in y.creating && t in y.creating
    requires y.creating[s].reply == y.creating[t].reply
    ensures s == t
  {}

  lemma AddKeepsListed(y: System, s: nat)
    requires WorkersInv(y) && SoleInv(y)
    ensures ListedInv(StepCreate(y, AddStream(s)))
  {
    var y' := StepCreate(y, AddStream(s));
    forall w | 0 <= w < |y'.workers| && Listed(y'.workers[w])
      ensures Attended(y', w)
    {
      assert Attended(y, w);
    }
  }

  lemma AddKeepsClear(y: System, s: nat)
    requires Inv(y) && ClearInv(y) && SoleReceivers(y.config)
    ensures ClearInv(StepCreate(y, AddStream(s)))
  {
    var y' := StepCreate(y, AddStream(s));
    forall t | t in y'.creating && (y'.creating[t].Checked? || y'.creating[t].Made?) && y'.torndown.Off?
      ensures y'.creating[t].reply !in y'.ctxs
    {
      if s in y.creating && y.creating[s].reply == y.creating[t].reply { AloneOnReply(y, s, t); }
    }
  }

  lemma AddKeeps(y: System, s: nat)
    requires Inv(y) && SoleInv(y) && SoleReceivers(y.config)
    ensures SoleInv(StepCreate(y, AddStream(s)))
  {
    AddKeepsListed(y, s);
    AddKeepsClear(y, s);
  }

  lemma StoreKeeps(y: System, s: nat)
    requires Inv(y) && SoleInv(y)
    ensures SoleInv(StepCreate(y, Store(s)))
  {
    var y' := StepCreate(y, Store(s));
    forall w | 0 <= w < |y'.workers| && Listed(y'.workers[w])
      ensures Attended(y', w)
    {
      assert Attended(y, w);
    }
  }

  lemma StartKeeps(y: System, s: nat)
    requires Inv(y) && SoleInv(y)
    ensures SoleInv(StepCreate(y, Start(s)))
  {
    var y' := StepCreate(y, Start(s));
    forall w | 0 <= w < |y'.workers| && Listed(y'.workers[w])
      ensures Attended(y', w)
    {
      assert Attended(y, w);
    }
  }

  lemma UnlistKeeps(y: System, w: nat)
    requires Inv(y) && SoleInv(y)
    ensures SoleInv(StepExit(y, Unlist(w)))
  {
    var y' := StepExit(y, Unlist(w));
    if At(y, w, Running) {
      assert Attended(y, w);
      forall v | 0 <= v < |y'.workers| && Listed(y'.workers[v])
        ensures Attended(y', v)
      {
        assert Attended(y, v);
      }
    }
  }

  lemma UnindexKeeps(y: System, w: nat)
    requires SoleInv(y)
    ensures SoleInv(StepExit(y, Unindex(w)))
  {
    var y' := StepExit(y, Unindex(w));
    forall v | 0 <= v < |y'.workers| && Listed(y'.workers[v])
      ensures Attended(y', v)
    {
      assert Attended(y, v);
    }
  }

  lemma FinishExitKeeps(y: System, w: nat)
    requires SoleInv(y)
    ensures SoleInv(StepExit(y, FinishExit(w)))
  {
    var y' := StepExit(y, FinishExit(w));
    forall v | 0 <= v < |y'.workers| && Listed(y'.workers[v])
      ensures Attended(y', v)
    {
      assert Attended(y, v);
    }
  }

  lemma TeardownKeeps(y: System, e: Event)
    requires Inv(y) && SoleInv(y) && (e.BeginTeardown? || e.Unsubscribe? || e.CancelOne? || e.EndTeardown?)
    ensures SoleInv(StepTeardown(y, e))
  {
    var y' := StepTeardown(y, e);
    forall v | 0 <= v < |y'.workers| && Listed(y'.workers[v])
      ensures Attended(y', v)
    {
      assert Attended(y, v);
      if e.BeginTeardown? && y.torndown.Off? && !Unadded(y, v) { assert y.ctxs[y.workers[v].reply] in y.ctxs.Values; }
    }
  }

  lemma SoleStepKeeps(y: System, e: Event)
    requires Inv(y) && SoleInv(y) && SoleReceivers(y.config)
    ensures SoleInv(Step(y, e))
  {
    match e
    case Check(s, r) => CheckKeeps(y, s, r);
    case Make(s, ok) => MakeKeeps(y, s, ok);
    case AddStream(s) => AddKeeps(y, s);
    case Store(s) => StoreKeeps(y, s);
    case Start(s) => StartKeeps(y, s);
    case Unlist(w) => UnlistKeeps(y, w);
    case Unindex(w) => UnindexKeeps(y, w);
    case FinishExit(w) => FinishExitKeeps(y, w);
    case _ => TeardownKeeps(y, e);
  }

  lemma {:induction false} SoleRunKeeps(config: Config, events: seq<Event>)
    requires SoleReceivers(config)
    ensures SoleInv(Run(Init(config), events))
  {
    if events != [] {
      var front := events[..|events| - 1];
      SoleRunKeeps(config, front);
      RunKeeps(config, front);
      SoleStepKeeps(Run(Init(config), front), events[|events| - 1]);
    }
  }

  // ---------------------------------------------------------------------
  // Two callbacks for one stream
  // ---------------------------------------------------------------------

  // A state that some run of the registration reaches.
  ghost predicate Reached(config: Config, y: System) {
    exists events :: y == Run(Init(config), events)
  }

  lemma StepReaches(config: Config, y: System, e: Event)
    requires Reached(config, y)
    ensures Reached(config, Step(y, e))
  {
    var events :| y == Run(Init(config), events);
    assert (events + [e])[..|events|] == events;
    assert Step(y, e) == Run(Init(config), events + [e]);
  }

  // Both callbacks pass the check before either has added its worker.
  lemma TwoChecked(config: Config, s: nat, t: nat, r: string) returns (y: System)
    requires Receives(config, s, r) && Receives(config, t, r) && s != t
    ensures Reached(config, y) && y == Init(config).(creating := map[s := Checked(r), t := Checked(r)])
  {
    y := Init(config);
    assert Reached(config, y) by { assert y == Run(y, []); }
    StepReaches(config, y, Check(s, r));
    y := Step(y, Check(s, r));
    StepReaches(config, y, Check(t, r));
    y := Step(y, Check(t, r));
  }

  lemma TwoMade(config: Config, s: nat, t: nat, r: string) returns (y: System)
    requires Receives(config, s, r) && Receives(config, t, r) && s != t
    ensures Reached(config, y)
    ensures y == Init(config).(workers := Pair(r, s, t, Created), creating := map[s := Made(r, 0), t := Made(r, 1)])
  {
    var y0 := TwoChecked(config, s, t, r);
    StepReaches(config, y0, Make(s, On));
    var y1 := Step(y0, Make(s, On));
    assert y1.workers == [Worker(r, s, Off, Created)] && y1.creating == map[s := Made(r, 0), t := Checked(r)];
    StepReaches(config, y1, Make(t, On));
    y := Step(y1, Make(t, On));
    assert y.workers == Pair(r, s, t, Created) && y.creating == map[s := Made(r, 0), t := Made(r, 1)];
  }

  function Pair(r: string, s: nat, t: nat, p: IngressSystem.Phase): seq<Worker> {
    [Worker(r, s, Off, p), Worker(r, t, Off, p)]
  }

  // The second addStream overwrites the first.
  lemma TwoAdded(config: Config, s: nat, t: nat, r: string) returns (y: System)
    requires Receives(config, s, r) && Receives(config, t, r) && s != t
    ensures Reached(config, y)
    ensures y == Init(config).(workers := Pair(r, s, t, Created), ctxs := map[r := 1],
                               creating := map[s := Added(r, 0), t := Added(r, 1)])
  {
    var y0 := TwoMade(config, s, t, r);
    StepReaches(config, y0, AddStream(s));
    var y1 := Step(y0, AddStream(s));
    assert y1.ctxs == map[r := 0] && y1.creating == map[s := Added(r, 0), t := Made(r, 1)];
    StepReaches(config, y1, AddStream(t));
    y := Step(y1, AddStream(t));
    assert y.ctxs == map[r := 1] && y.creating == map[s := Added(r, 0), t := Added(r, 1)];
  }

  lemma OneStored(config: Config, s: nat, t: nat, r: string) returns (y: System)
    requires Receives(config, s, r) && Receives(config, t, r) && s != t
    ensures Reached(config, y)
    ensures y == Init(config).(workers := [Worker(r, s, Off, Created), Worker(r, t, Off, Created)], ctxs := map[r := 1],
                               streams := map[r := 0], creating := map[s := Stored(r, 0), t := Added(r, 1)])
  {
    var y0 := TwoAdded(config, s, t, r);
    StepReaches(config, y0, Store(s));
    y := Step(y0, Store(s));
    assert y.streams == map[r := 0] && y.creating == map[s := Stored(r, 0), t := Added(r, 1)];
  }

  lemma OneRunning(config: Config, s: nat, t: nat, r: string) returns (y: System)
    requires Receives(config, s, r) && Receives(config, t, r) && s != t
    ensures Reached(config, y)
    ensures y == Init(config).(workers := [Worker(r, s, Off, Running), Worker(r, t, Off, Created)],
                               ctxs := map[r := 1], streams := map[r := 0], creating := map[t := Added(r, 1)])
  {
    var y1 := OneStored(config, s, t, r);
    StepReaches(config, y1, Start(s));
    y := Step(y1, Start(s));
    assert y.creating == map[t := Added(r, 1)];
  }

  lemma TwoRunning(config: Config, s: nat, t: nat, r: string) returns (y: System)
    requires Receives(config, s, r) && Receives(config, t, r) && s != t
    ensures Reached(config, y)
    ensures y == Init(config).(workers := Pair(r, s, t, Running), ctxs := map[r := 1], streams := map[r := 1])
  {
    var y0 := OneRunning(config, s, t, r);
    StepReaches(config, y0, Store(t));
    var y1 := Step(y0, Store(t));
    assert y1.streams == map[r := 1] && y1.creating == map[t := Stored(r, 1)];
    StepReaches(config, y1, Start(t));
    y := Step(y1, Start(t));
    assert y.creating == map[];
  }

  // teardown goes through all subscriptions.
  lemma {:induction false} UnsubscribesAll(config: Config, y: System) returns (y': System)
    requires Reached(config, y) && y.teardown.Unsubscribing? && y.teardown.next <= |y.unsubscribed|
    ensures Reached(config, y') && y' == y.(unsubscribed := y'.unsubscribed, teardown := Cancelling)
    decreases |y.unsubscribed| - y.teardown.next
  {
    StepReaches(config, y, Unsubscribe);
    y' := Step(y, Unsubscribe);
    if y.teardown.next < |y.unsubscribed| { y' := UnsubscribesAll(config, y'); }
  }

  lemma OnlyValue(r: string, w: nat)
    ensures map[r := w].Values == {w}
  {
    var m := map[r := w];
    assert m[r] == w && m[r] in m.Values;
  }

  lemma LostCancellation(config: Config, s: nat, t: nat, r: string) returns (y: System)
    requires Receives(config, s, r) && Receives(config, t, r) && s != t
    ensures Reached(config, y) && y.teardown.TornDown?
    ensures |y.workers| == 2 && y.workers[0] == Worker(r, s, Off, Running) && y.creating == map[]
  {
    var y0 := TwoRunning(config, s, t, r);
    StepReaches(config, y0, BeginTeardown);
    var y1 := Step(y0, BeginTeardown);
    OnlyValue(r, 1);
    var y2 := UnsubscribesAll(config, y1);
    y := CancelsTheSecond(config, y2, s, t, r);
  }

  lemma CancelsTheSecond(config: Config, y: System, s: nat, t: nat, r: string) returns (y': System)
    requires Reached(config, y) && y.teardown.Cancelling? && y.pending == {1}
    requires y.workers == Pair(r, s, t, Running) && y.creating == map[]
    ensures Reached(config, y') && y'.teardown.TornDown?
    ensures |y'.workers| == 2 && y'.workers[0] == Worker(r, s, Off, Running) && y'.creating == map[]
  {
    StepReaches(config, y, CancelOne(1));
    var y1 := Step(y, CancelOne(1));
    assert y1.pending == {};
    StepReaches(config, y1, EndTeardown);
    y' := Step(y1, EndTeardown);
  }

  // ---------------------------------------------------------------------
  // What teardown promises
  // ---------------------------------------------------------------------

  // Once teardown has completed, the worker is cancelled, or already on its way out,
  // or still ahead of its addStream.
  predicate CancelledByTeardown(y: System, w: nat) {
    y.teardown.TornDown? && w < |y.workers| ==>
      y.workers[w].cancelled.On? || !Listed(y.workers[w]) || Unadded(y, w)
  }

  /** After teardown addStream cancels the worker at once. */
  lemma LateAddCancels(y: System, w: nat)
    requires Inv(y) && y.teardown.TornDown? && w < |y.workers| && Unadded(y, w)
    ensures Step(y, AddStream(y.workers[w].sub)).workers[w].cancelled.On?
  {}

  // Before teardown a running worker is the one its reply is listed under.
  predicate ListedWhileRunning(y: System, w: nat) {
    y.torndown.Off? && At(y, w, Running) ==> y.workers[w].reply in y.ctxs && y.ctxs[y.workers[w].reply] == w
  }

  lemma PrefixFreeMeansSole(config: Config)
    requires forall k :: 0 <= k < |config.services| ==>
               Subjects.WellFormedService(config.svcid, config.nid, config.services[k])
    requires Subjects.ServicesPrefixFree(config.services)
    ensures SoleReceivers(config)
  {
    forall r, s: nat, t: nat | Receives(config, s, r) && Receives(config, t, r) ensures s == t {
      Subjects.OverlapIsPrefix(Subjects.Subscription(config.svcid, config.nid, config.services[s]),
                               Subjects.Subscription(config.svcid, config.nid, config.services[t]), config.routes[r]);
    }
  }

  // A caller of a method of the longer service.
  lemma OverlapMeansTwo(svcid: string, nid: string, services: seq<string>, s: nat, t: nat, r: string)
    returns (config: Config)
    requires s < |services| && t < |services| && Subjects.Tokens(services[s]) <= Subjects.Tokens(services[t])
    requires forall k :: 0 <= k < |services| ==> Subjects.WellFormedService(svcid, nid, services[k])
    ensures config.svcid == svcid && config.nid == nid && config.services == services
    ensures Receives(config, s, r) && Receives(config, t, r)
  {
    var a := Subjects.Address(svcid, nid, services[t], "m");
    config := Config(svcid, nid, services, map[r := Subjects.SubjectOf(a)]);
    Subjects.StreamMatchExactly(Subjects.Subscription(svcid, nid, services[s]), a);
    Subjects.StreamMatchExactly(Subjects.Subscription(svcid, nid, services[t]), a);
  }

  /** No lost cancellation: whatever streams callers open and however worker creation,
      worker exit and teardown interleave, a completed teardown has reached every
      worker - exactly for lists of services none of which is a token prefix of
      another and none of which is listed twice. */
  lemma NoLostCancellationExactly(svcid: string, nid: string, services: seq<string>)
    requires forall k :: 0 <= k < |services| ==> Subjects.WellFormedService(svcid, nid, services[k])
    ensures (forall routes, events, w ::
               CancelledByTeardown(Run(Init(Config(svcid, nid, services, routes)), events), w))
            <==> Subjects.ServicesPrefixFree(services)
  {
    if Subjects.ServicesPrefixFree(services) {
      forall routes, events, w
        ensures CancelledByTeardown(Run(Init(Config(svcid, nid, services, routes)), events), w)
      {
        var config := Config(svcid, nid, services, routes);
        PrefixFreeMeansSole(config);
        Reaches(config, events, w);
      }
    } else {
      var s, t :| 0 <= s < |services| && 0 <= t < |services|
        && Subjects.Tokens(services[s]) <= Subjects.Tokens(services[t]) && s != t;
      var config := OverlapMeansTwo(svcid, nid, services, s, t, "inbox");
      var y := LostCancellation(config, s, t, "inbox");
      var events :| y == Run(Init(config), events);
      assert !CancelledByTeardown(Run(Init(Config(svcid, nid, services, config.routes)), events), 0);
    }
  }

  lemma Reaches(config: Config, events: seq<Event>, w: nat)
    requires SoleReceivers(config)
    ensures CancelledByTeardown(Run(Init(config), events), w) && ListedWhileRunning(Run(Init(config), events), w)
  {
    var y := Run(Init(config), events);
    RunKeeps(config, events);
    SoleRunKeeps(config, events);
    if w < |y.workers| && Listed(y.workers[w]) { assert Attended(y, w); }
  }

  /** Likewise no exit ever removes another worker's cancel function, so that before
      teardown every running worker is listed under its reply, exactly for such
      lists. */
  lemma RunningIsListedExactly(svcid: string, nid: string, services: seq<string>)
    requires forall k :: 0 <= k < |services| ==> Subjects.WellFormedService(svcid, nid, services[k])
    ensures (forall routes, events, w ::
               ListedWhileRunning(Run(Init(Config(svcid, nid, services, routes)), events), w))
            <==> Subjects.ServicesPrefixFree(services)
  {
    if Subjects.ServicesPrefixFree(services) {
      forall routes, events, w
        ensures ListedWhileRunning(Run(Init(Config(svcid, nid, services, routes)), events), w)
      {
        var config := Config(svcid, nid, services, routes);
        PrefixFreeMeansSole(config);
        Reaches(config, events, w);
      }
    } else {
      var s, t :| 0 <= s < |services| && 0 <= t < |services|
        && Subjects.Tokens(services[s]) <= Subjects.Tokens(services[t]) && s != t;
      var config := OverlapMeansTwo(svcid, nid, services, s, t, "inbox");
      var y := TwoRunning(config, s, t, "inbox");
      var events :| y == Run(Init(config), events);
      assert !ListedWhileRunning(Run(Init(Config(svcid, nid, services, config.routes)), events), 0);
    }
  }

  /** For every registration: nothing is stored in streamCtxs once torndown is set,
      every subscription is unsubscribed at most once, and exactly once when teardown
      has completed. */
  lemma TornDownClean(config: Config, events: seq<Event>)
    ensures var y := Run(Init(config), events);
            && (y.torndown.On? ==> y.ctxs == map[])
            && |y.unsubscribed| == 2 * |config.services|
            && (forall k :: 0 <= k < |y.unsubscribed| ==> y.unsubscribed[k] <= 1)
            && (y.teardown.TornDown? ==> forall k :: 0 <= k < |y.unsubscribed| ==> y.unsubscribed[k] == 1)
  {
    RunKeeps(config, events);
    SubscriptionsStay(config, events);
  }

  lemma {:induction false} SubscriptionsStay(config: Config, events: seq<Event>)
    ensures |Run(Init(config), events).unsubscribed| == 2 * |config.services|
  {
    if events != [] { SubscriptionsStay(config, events[..|events| - 1]); }
  }

  lemma StoredIsNotGone(y: System)
    requires Inv(y)
    ensures forall r :: r in y.streams ==> y.streams[r] < |y.workers| && !y.workers[y.streams[r]].phase.Gone?
  {}

  // No worker is left.
  ghost predicate AllGone(y: System) {
    forall w :: 0 <= w < |y.workers| ==> y.workers[w].phase.Gone?
  }

  /** For every registration, Sidecar.streams leaks nothing: once every worker is gone
      it is empty. */
  lemma StreamsDrain(config: Config, events: seq<Event>)
    requires AllGone(Run(Init(config), events))
    ensures Run(Init(config), events).streams == map[]
  {
    RunKeeps(config, events);
    var y := Run(Init(config), events);
    StoredIsNotGone(y);
    assert forall r :: r !in y.streams;
  }

  // ---------------------------------------------------------------------
  // Exits
  // ---------------------------------------------------------------------

  // A listed cancel function is that of a worker on its way in or running, and a worker
  // that is gone has cancelled its context.
  ghost predicate ExitsInv(y: System) {
    && (forall r :: r in y.ctxs ==> y.ctxs[r] < |y.workers| && IsAlive(y.workers[y.ctxs[r]]))
    && (forall w :: 0 <= w < |y.workers| && y.workers[w].phase.Gone? ==> y.workers[w].cancelled.On?)
  }

  predicate IsAlive(w: Worker) { w.phase.Created? || w.phase.Running? }

  lemma CreateKeepsExits(y: System, e: Event)
    requires WorkersInv(y) && ExitsInv(y) && (e.Check? || e.Make? || e.Store? || e.Start?)
    ensures ExitsInv(Step(y, e))
  {
    match e
    case Check(_, _) =>
    case Make(_, ok) => if ok.On? {} else {}
    case Store(_) =>
    case Start(_) =>
  }

  lemma AddKeepsExits(y: System, s: nat)
    requires WorkersInv(y) && ExitsInv(y)
    ensures ExitsInv(Step(y, AddStream(s)))
  {
    if s in y.creating && y.creating[s].Made? {
      assert IsMaking(y, s, y.creating[s].worker);
      if y.torndown.On? {} else {}
    }
  }

  lemma ExitKeepsExits(y: System, e: Event)
    requires CtxsInv(y) && ExitsInv(y) && (e.Unlist? || e.Unindex? || e.FinishExit?)
    ensures ExitsInv(Step(y, e))
  {
    match e
    case Unlist(w) => UnlistKeepsExits(y, w);
    case Unindex(_) =>
    case FinishExit(_) =>
  }

  lemma UnlistKeepsExits(y: System, w: nat)
    requires CtxsInv(y) && ExitsInv(y)
    ensures ExitsInv(Step(y, Unlist(w)))
  {}

  lemma TeardownKeepsExits(y: System, e: Event)
    requires ExitsInv(y) && (e.BeginTeardown? || e.Unsubscribe? || e.CancelOne? || e.EndTeardown?)
    ensures ExitsInv(Step(y, e))
  {
    match e
    case BeginTeardown =>
    case Unsubscribe =>
    case CancelOne(_) =>
    case EndTeardown =>
  }

  lemma {:induction false} ExitsHold(config: Config, events: seq<Event>)
    ensures ExitsInv(Run(Init(config), events))
  {
    if events != [] {
      var front, e := events[..|events| - 1], events[|events| - 1];
      ExitsHold(config, front);
      RunKeeps(config, front);
      var y := Run(Init(config), front);
      if e.AddStream? { AddKeepsExits(y, e.sub); }
      else if e.Check? || e.Make? || e.Store? || e.Start? { CreateKeepsExits(y, e); }
      else if e.Unlist? || e.Unindex? || e.FinishExit? { ExitKeepsExits(y, e); }
      else { TeardownKeepsExits(y, e); }
    }
  }

  /** Exits are clean, for any services: a worker that has left its loop is not listed for
      cancellation any more, and one that is gone has cancelled its own context. */
  lemma ExitsAreClean(config: Config, events: seq<Event>, w: nat)
    requires w < |Run(Init(config), events).workers|
    ensures var y := Run(Init(config), events);
            && (!y.workers[w].phase.Created? && !y.workers[w].phase.Running? ==>
                  forall r :: r in y.ctxs ==> y.ctxs[r] != w)
            && (y.workers[w].phase.Gone? ==> y.workers[w].cancelled.On?)
  {
    ExitsHold(config, events);
  }

  // No other worker was ever made for the reply.
  ghost predicate Sole(y: System, w: nat) {
    w < |y.workers| && forall v :: 0 <= v < |y.workers| && y.workers[v].reply == y.workers[w].reply ==> v == w
  }

  // Sidecar.streams leads to it.
  predicate Indexed(y: System, w: nat) {
    w < |y.workers| && y.workers[w].reply in y.streams && y.streams[y.workers[w].reply] == w
  }

  // The callback of some subscription has stored it.
  ghost predicate IsStored(y: System, w: nat) {
    exists s :: s in y.creating && y.creating[s].Stored? && y.creating[s].worker == w
  }

  // Worker w is to be found: it has been stored, and has not deleted itself.
  ghost predicate Findable(y: System, w: nat) {
    w < |y.workers| && (y.workers[w].phase.Running? || y.workers[w].phase.Unlisted? || IsStored(y, w))
  }

  lemma SameReplies(y: System, e: Event)
    ensures |y.workers| <= |Step(y, e).workers|
    ensures forall v :: 0 <= v < |y.workers| ==> Step(y, e).workers[v].reply == y.workers[v].reply
  {
    match e
    case Make(_, ok) => if ok.On? {} else {}
    case AddStream(_) =>
    case Start(_) =>
    case Unlist(_) =>
    case Unindex(_) =>
    case FinishExit(_) =>
    case CancelOne(_) =>
    case _ =>
  }

  lemma SoleBefore(y: System, e: Event, w: nat)
    requires w < |y.workers| && Sole(Step(y, e), w)
    ensures Sole(y, w)
  {
    SameReplies(y, e);
  }

  // A worker just made is not to be found yet.
  lemma MadeIsNotFindable(y: System, e: Event, w: nat)
    requires CreationInv(y) && |y.workers| <= w < |Step(y, e).workers|
    ensures !Findable(Step(y, e), w)
  {
    assert e.Make?;
    var y' := Step(y, e);
    forall s | s in y'.creating && y'.creating[s].Stored? ensures y'.creating[s].worker != w {
      assert s in y.creating && y.creating[s] == y'.creating[s];
      assert IsMaking(y, s, y.creating[s].worker);
    }
  }

  lemma StartFinds(y: System, s: nat, w: nat)
    requires w < |y.workers|
    ensures var y' := Step(y, Start(s)); y'.streams == y.streams && (Findable(y', w) ==> Findable(y, w))
  {
    var y' := Step(y, Start(s));
    StoredBefore(y, y', w);
    if s in y.creating && y.creating[s].Stored? { assert IsStored(y, y.creating[s].worker); }
  }

  // What is stored after a step that stores nothing was stored before.
  lemma StoredBefore(y: System, y': System, w: nat)
    requires forall s :: s in y'.creating && y'.creating[s].Stored? ==>
               s in y.creating && y.creating[s] == y'.creating[s]
    ensures IsStored(y', w) ==> IsStored(y, w)
  {
    if IsStored(y', w) {
      var s :| s in y'.creating && y'.creating[s].Stored? && y'.creating[s].worker == w;
      assert s in y.creating && y.creating[s] == y'.creating[s];
    }
  }

  lemma CreateFinds(y: System, e: Event, w: nat)
    requires w < |y.workers| && (e.Check? || e.Make? || e.AddStream?)
    ensures Step(y, e).streams == y.streams && (Findable(Step(y, e), w) ==> Findable(y, w))
  {
    CreatesUnstored(y, e);
    StoredBefore(y, Step(y, e), w);
  }

  lemma CreatesUnstored(y: System, e: Event)
    requires e.Check? || e.Make? || e.AddStream?
    ensures var y' := Step(y, e);
            && y'.streams == y.streams && |y.workers| <= |y'.workers|
            && (forall v :: 0 <= v < |y.workers| ==> y'.workers[v].phase == y.workers[v].phase)
            && (forall s :: s in y'.creating && y'.creating[s].Stored? ==>
                  s in y.creating && y.creating[s] == y'.creating[s])
  {
    match e
    case Check(_, _) =>
    case Make(_, ok) => if ok.On? {} else {}
    case AddStream(_) => if y.torndown.On? {} else {}
  }

  lemma StoreFinds(y: System, s: nat, w: nat)
    requires CreationInv(y) && w < |y.workers| && Sole(y, w) && (Findable(y, w) ==> Indexed(y, w))
    ensures var y' := Step(y, Store(s)); Findable(y', w) ==> Indexed(y', w)
  {
    var y' := Step(y, Store(s));
    if s in y.creating && y.creating[s].Added? {
      var v := y.creating[s].worker;
      assert IsMaking(y, s, v);
      if v != w && IsStored(y', w) {
        var t :| t in y'.creating && y'.creating[t].Stored? && y'.creating[t].worker == w;
        assert t in y.creating && y.creating[t] == y'.creating[t];
        assert IsStored(y, w);
      }
    }
  }

  lemma ExitFinds(y: System, e: Event, w: nat)
    requires CreationInv(y) && w < |y.workers| && Sole(y, w) && (Findable(y, w) ==> Indexed(y, w))
    requires e.Unlist? || e.Unindex? || e.FinishExit?
    ensures Findable(Step(y, e), w) ==> Indexed(Step(y, e), w)
  {
    var y' := Step(y, e);
    SameCreations(y, e);
    StoredBefore(y, y', w);
    if e.Unindex? { UnindexFinds(y, e.worker, w); }
  }

  lemma SameCreations(y: System, e: Event)
    requires e.Unlist? || e.Unindex? || e.FinishExit?
    ensures Step(y, e).creating == y.creating
  {}

  // Deleting one worker's entry leaves the others'.
  lemma UnindexFinds(y: System, v: nat, w: nat)
    requires CreationInv(y) && w < |y.workers| && Sole(y, w) && (Findable(y, w) ==> Indexed(y, w))
    requires IsStored(Step(y, Unindex(v)), w) ==> IsStored(y, w)
    ensures var y' := Step(y, Unindex(v)); Findable(y', w) ==> Indexed(y', w)
  {
    if IsStored(y, w) { StoredIsCreated(y, w); }
    if v < |y.workers| && v != w { assert y.workers[v].reply != y.workers[w].reply; }
  }

  lemma StoredIsCreated(y: System, w: nat)
    requires CreationInv(y) && IsStored(y, w)
    ensures w < |y.workers| && y.workers[w].phase.Created?
  {
    var s :| s in y.creating && y.creating[s].Stored? && y.creating[s].worker == w;
    assert IsMaking(y, s, w);
  }

  lemma TeardownFinds(y: System, e: Event, w: nat)
    requires w < |y.workers| && (e.BeginTeardown? || e.Unsubscribe? || e.CancelOne? || e.EndTeardown?)
    ensures Step(y, e).streams == y.streams && (Findable(Step(y, e), w) <==> Findable(y, w))
  {
    var y' := Step(y, e);
    assert y'.creating == y.creating && (IsStored(y', w) <==> IsStored(y, w));
  }

  lemma StepFinds(y: System, e: Event, w: nat)
    requires Inv(y) && w < |y.workers| && Sole(y, w) && (Findable(y, w) ==> Indexed(y, w))
    ensures Findable(Step(y, e), w) ==> Indexed(Step(y, e), w)
  {
    SameReplies(y, e);
    if e.Store? { StoreFinds(y, e.sub, w); }
    else if e.Start? { StartFinds(y, e.sub, w); }
    else if e.Check? || e.Make? || e.AddStream? { CreateFinds(y, e, w); }
    else if e.Unlist? || e.Unindex? || e.FinishExit? { ExitFinds(y, e, w); }
    else { TeardownFinds(y, e, w); }
  }

  /** The index is complete: a worker that runs is found under its reply in
      Sidecar.streams, if it is the only one ever made for that reply. */
  lemma {:induction false} SoleIsIndexed(config: Config, events: seq<Event>, w: nat)
    requires Sole(Run(Init(config), events), w)
    ensures var y := Run(Init(config), events); Findable(y, w) ==> Indexed(y, w)
  {
    if events != [] {
      var front, e := events[..|events| - 1], events[|events| - 1];
      RunKeeps(config, front);
      var y := Run(Init(config), front);
      if w < |y.workers| {
        SoleBefore(y, e, w);
        SoleIsIndexed(config, front, w);
        StepFinds(y, e, w);
      } else {
        MadeIsNotFindable(y, e, w);
      }
    }
  }

  // ---------------------------------------------------------------------
  // Creations
  // ---------------------------------------------------------------------

  // The callback of s and its worker, if it has one, after each of its steps.
  predicate MakeIsOver(y: System, s: nat) { s in y.creating ==> !y.creating[s].Checked? }

  predicate AddIsOver(y: System, s: nat) { s in y.creating ==> y.creating[s].Added? || y.creating[s].Stored? }

  predicate StoreIsOver(y: System, s: nat) { s in y.creating ==> y.creating[s].Stored? }

  lemma MakeEnds(y: System, s: nat, ok: Flag)
    ensures MakeIsOver(Step(y, Make(s, ok)), s)
  {
    if ok.On? {} else {}
  }

  lemma AddEnds(y: System, s: nat)
    requires CreationInv(y) && MakeIsOver(y, s)
    ensures AddIsOver(Step(y, AddStream(s)), s)
  {
    if s in y.creating && y.creating[s].Made? {
      assert IsMaking(y, s, y.creating[s].worker);
      if y.torndown.On? {} else {}
    }
  }

  lemma StoreEnds(y: System, s: nat)
    requires AddIsOver(y, s)
    ensures StoreIsOver(Step(y, Store(s)), s)
  {}

  // Starting it makes its worker run.
  lemma StartEnds(y: System, s: nat)
    requires CreationInv(y) && StoreIsOver(y, s)
    ensures s !in Step(y, Start(s)).creating
    ensures s in y.creating ==>
              var w := y.creating[s].worker; w < |y.workers| && Step(y, Start(s)).workers[w].phase.Running?
  {
    if s in y.creating { assert IsMaking(y, s, y.creating[s].worker); }
  }

  lemma RunNext(y: System, events: seq<Event>, e: Event)
    ensures Run(y, events + [e]) == Step(Run(y, events), e)
  {
    assert (events + [e])[..|events|] == events;
  }

  /** No callback gets stuck in ensureStreamWorker: wherever it stands, and whether or not
      the upstream accepts the stream, four steps of its own bring it to its end. */
  lemma CallbackGetsThrough(config: Config, events: seq<Event>, s: nat, ok: Flag)
    ensures s !in Run(Init(config), events + [Make(s, ok)] + [AddStream(s)] + [Store(s)] + [Start(s)]).creating
  {
    var made := events + [Make(s, ok)];
    var added := made + [AddStream(s)];
    var stored := added + [Store(s)];
    RunNext(Init(config), events, Make(s, ok));
    RunNext(Init(config), made, AddStream(s));
    RunNext(Init(config), added, Store(s));
    RunNext(Init(config), stored, Start(s));
    RunKeeps(config, made);
    RunKeeps(config, stored);
    MakeEnds(Run(Init(config), events), s, ok);
    AddEnds(Run(Init(config), made), s);
    StoreEnds(Run(Init(config), added), s);
    StartEnds(Run(Init(config), stored), s);
  }
}
