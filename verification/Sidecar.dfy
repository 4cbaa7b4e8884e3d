// Sidecar and registration (pkg/sidecar/sidecar.go, pkg/sidecar/ingress.go) as
// objects: opening, closing and tearing down registrations in place.
module Sidecars {
  import opened Wire
  import Subjects

  // A NATS subscription, with its queue group if it has one, and how often it was
  // unsubscribed.
  class Subscription {
    const subject: string
    const queue: Option<string>
    var active: Flag
    var unsubscribes: nat

    constructor (subject: string, queue: Option<string>)
      ensures this.subject == subject && this.queue == queue && active.On? && unsubscribes == 0
    {
      this.subject, this.queue := subject, queue;
      active := On;
      unsubscribes := 0;
    }

    method Unsubscribe()
      modifies this
      ensures active.Off? && unsubscribes == old(unsubscribes) + 1
    {
      active := Off;
      unsubscribes := unsubscribes + 1;
    }
  }

  // The context of one stream worker, reached through its cancel function.
  class WorkerContext {
    var cancelled: Flag

    constructor ()
      ensures cancelled.Off?
    {
      cancelled := Off;
    }

    method Cancel()
      modifies this
      ensures cancelled.On?
    {
      cancelled := On;
    }
  }

  class Registration {
    const id: string
    const svcid: string
    var subs: seq<Subscription>
    var streamCtxs: map<string, WorkerContext>
    var torndown: Flag
    var connOpen: Flag

    constructor (id: string, svcid: string)
      ensures this.id == id && this.svcid == svcid
      ensures subs == [] && streamCtxs == map[] && torndown.Off? && connOpen.On?
    {
      this.id := id;
      this.svcid := svcid;
      subs, streamCtxs, torndown, connOpen := [], map[], Off, On;
    }

    // The subscriptions are distinct objects, each still to be unsubscribed until
    // teardown.
    ghost predicate Valid()
      reads this, subs
    {
      && (forall j, k :: 0 <= j < k < |subs| ==> subs[j] != subs[k])
      && (forall k :: 0 <= k < |subs| ==> subs[k].unsubscribes == (if torndown.On? then 1 else 0))
      && (forall k :: 0 <= k < |subs| ==> subs[k].active == Not(torndown))
      && (torndown.On? ==> streamCtxs == map[])
    }

    // addStream: stored, or cancelled at once when the registration is torn down.
    method AddStream(reply: string, ctx: WorkerContext)
      requires Valid()
      modifies this`streamCtxs, ctx
      ensures Valid()
      ensures torndown.On? ==> ctx.cancelled.On? && streamCtxs == old(streamCtxs)
      ensures torndown.Off? ==> ctx.cancelled == old(ctx.cancelled) && streamCtxs == old(streamCtxs)[reply := ctx]
    {
      if torndown.On? {
        ctx.Cancel();
        return;
      }
      streamCtxs := streamCtxs[reply := ctx];
    }

    // teardown: the first call unsubscribes everything and cancels every listed
    // stream; later calls do nothing.
    method Teardown()
      requires Valid()
      modifies this, subs, streamCtxs.Values
      ensures Valid() && torndown.On? && subs == old(subs)
      ensures connOpen == if old(torndown).On? then old(connOpen) else Off
      ensures forall ctx :: ctx in old(streamCtxs.Values) ==> ctx.cancelled.On?
    {
      if torndown.On? {
        return;
      }
      torndown := On;
      var cancels := streamCtxs;
      streamCtxs := map[];
      var i := 0;
      while i < |subs|
        invariant 0 <= i <= |subs| && torndown.On? && streamCtxs == map[] && subs == old(subs)
        invariant forall k :: 0 <= k < |subs| ==> subs[k].unsubscribes == (if k < i then 1 else 0)
        invariant forall k :: 0 <= k < |subs| ==> (subs[k].active.On? <==> k >= i)
        invariant forall ctx :: ctx in cancels.Values ==> ctx.cancelled == old(ctx.cancelled)
        modifies subs
      {
        subs[i].Unsubscribe();
        i := i + 1;
      }
      CancelAll(cancels);
      connOpen := Off;
    }

    static method CancelAll(cancels: map<string, WorkerContext>)
      modifies cancels.Values
      ensures forall ctx :: ctx in cancels.Values ==> ctx.cancelled.On?
    {
      var left := cancels;
      while left != map[]
        invariant left.Keys <= cancels.Keys && forall r :: r in left ==> left[r] == cancels[r]
        invariant forall r :: r in cancels && r !in left ==> cancels[r].cancelled.On?
        decreases |left|
      {
        var r :| r in left;
        assert cancels[r] in cancels.Values;
        left[r].Cancel();
        left := left - {r};
      }
    }
  }

  datatype OpenError =
    | SvcidRequired
    | UpstreamRequired
    | ServiceRequired
    | DialFailed
    | SubscribeFailed(service: string)

  datatype OpenResult = Registered(registration: Registration) | Refused(error: OpenError)

  class Sidecar {
    const nid: string
    var registrations: map<string, Registration>
    var done: Flag

    constructor (nid: string)
      ensures this.nid == nid && registrations == map[] && done.Off?
    {
      this.nid := nid;
      registrations := map[];
      done := Off;
    }

    // The subscriptions of some registrations, and the contexts of all their streams.
    static ghost function SubsOf(regs: set<Registration>): (all: set<Subscription>)
      reads regs
      ensures forall reg, s :: reg in regs && s in reg.subs ==> s in all
    {
      set reg, s | reg in regs && s in reg.subs :: s
    }

    static ghost function ContextsOf(regs: set<Registration>): (all: set<WorkerContext>)
      reads regs
      ensures forall reg, ctx :: reg in regs && ctx in reg.streamCtxs.Values ==> ctx in all
    {
      set reg, ctx | reg in regs && ctx in reg.streamCtxs.Values :: ctx
    }

    // Distinct registrations share no subscription.
    static ghost predicate Separate(regs: set<Registration>)
      reads regs, SubsOf(regs)
    {
      && (forall reg :: reg in regs ==> reg.Valid())
      && (forall a, b, s :: a in regs && b in regs && a != b && s in a.subs ==> s !in b.subs)
    }

    // Registrations are filed under their own id.
    ghost predicate Valid()
      reads this, registrations.Values, SubsOf(registrations.Values)
    {
      && (forall id :: id in registrations ==> registrations[id].id == id)
      && Separate(registrations.Values)
    }

    // The replicas of a service share its unary calls; frames of a stream go to all
    // subscribers of its replica's own subject.
    predicate IsUnary(s: Subscription, svcid: string, service: string) {
      s.subject == Subjects.UnaryPattern(svcid, service) && s.queue == Some(Subjects.QueueGroup(svcid, service))
    }

    predicate IsStream(s: Subscription, svcid: string, service: string) {
      s.subject == Subjects.StreamPattern(svcid, nid, service) && s.queue == None
    }

    // Two subscriptions for each of the first n services.
    ghost predicate Subscribed(reg: Registration, services: seq<string>, n: nat)
      reads reg
    {
      && n <= |services| && |reg.subs| == 2 * n
      && (forall k :: 0 <= k < n ==> IsUnary(reg.subs[2 * k], reg.svcid, services[k]))
      && (forall k :: 0 <= k < n ==> IsStream(reg.subs[2 * k + 1], reg.svcid, services[k]))
    }

    // subscribeService: the queue-grouped unary subject, then the stream subject of
    // this replica. `unaryOk` and `streamOk` say whether NATS accepts each.
    method SubscribeService(reg: Registration, service: string, unaryOk: bool, streamOk: bool) returns (ok: bool)
      requires reg.Valid() && reg.torndown.Off?
      modifies reg`subs
      ensures ok <==> unaryOk && streamOk
      ensures reg.Valid() && |reg.subs| == |old(reg.subs)| + (if ok then 2 else if unaryOk then 1 else 0)
      ensures old(reg.subs) <= reg.subs
      ensures forall k :: |old(reg.subs)| <= k < |reg.subs| ==> fresh(reg.subs[k])
      ensures ok ==>
                && IsUnary(reg.subs[|reg.subs| - 2], reg.svcid, service)
                && IsStream(reg.subs[|reg.subs| - 1], reg.svcid, service)
    {
      if !unaryOk {
        return false;
      }
      var unary := new Subscription(Subjects.UnaryPattern(reg.svcid, service),
                                    Some(Subjects.QueueGroup(reg.svcid, service)));
      reg.subs := reg.subs + [unary];
      if !streamOk {
        return false;
      }
      var stream := new Subscription(Subjects.StreamPattern(reg.svcid, nid, service), None);
      reg.subs := reg.subs + [stream];
      ok := true;
    }

    // openIngress: the i-th call to NATS succeeds when accepted(i); `id` is the
    // random session id. `worked` is the registration it worked on, for the
    // postcondition: a refused call leaves it torn down and unregistered.
    method OpenIngress(id: string, svcid: string, upstream: string, services: seq<string>,
                       dialOk: bool, accepted: nat -> bool)
      returns (result: OpenResult, ghost worked: Registration?)
      requires Valid() && id !in registrations
      modifies this`registrations
      ensures Valid()
      ensures result.Refused? ==> registrations == old(registrations)
      ensures svcid == "" ==> result == Refused(SvcidRequired)
      ensures svcid != "" && upstream == "" ==> result == Refused(UpstreamRequired)
      ensures svcid != "" && upstream != "" && services == [] ==> result == Refused(ServiceRequired)
      ensures svcid != "" && upstream != "" && services != [] && !dialOk ==> result == Refused(DialFailed)
      ensures svcid != "" && upstream != "" && services != [] && dialOk ==>
                worked != null && fresh(worked) && worked.Valid()
                && (result.Registered? <==> forall k :: 0 <= k < 2 * |services| ==> accepted(k))
                && (forall k :: 0 <= k < |worked.subs| ==> fresh(worked.subs[k]))
      ensures result.Registered? ==>
                && worked == result.registration && registrations == old(registrations)[id := result.registration]
                && worked.torndown.Off? && worked.svcid == svcid && Subscribed(worked, services, |services|)
      ensures result.Refused? && worked != null ==>
                && worked.torndown.On? && worked.connOpen.Off?
                && forall s :: s in worked.subs ==> s.active.Off? && s.unsubscribes == 1
    {
      worked := null;
      if svcid == "" {
        return Refused(SvcidRequired), null;
      }
      if upstream == "" {
        return Refused(UpstreamRequired), null;
      }
      if services == [] {
        return Refused(ServiceRequired), null;
      }
      if !dialOk {
        return Refused(DialFailed), null;
      }
      var reg := new Registration(id, svcid);
      worked := reg;
      var failed := SubscribeAll(reg, services, accepted);
      if failed.Some? {
        return Refused(SubscribeFailed(failed.value)), reg;
      }
      File(reg);
      result := Registered(reg);
    }

    // Its loop: the first service that cannot be subscribed takes the registration
    // down again.
    method SubscribeAll(reg: Registration, services: seq<string>, accepted: nat -> bool)
      returns (failed: Option<string>)
      requires reg.Valid() && reg.torndown.Off? && reg.subs == [] && reg.streamCtxs == map[]
      modifies reg
      ensures reg.Valid() && forall k :: 0 <= k < |reg.subs| ==> fresh(reg.subs[k])
      ensures failed.None? <==> forall k :: 0 <= k < 2 * |services| ==> accepted(k)
      ensures failed.None? ==> reg.torndown.Off? && Subscribed(reg, services, |services|)
      ensures failed.Some? ==>
                && reg.torndown.On? && reg.connOpen.Off?
                && forall s :: s in reg.subs ==> s.active.Off? && s.unsubscribes == 1
    {
      var i := 0;
      while i < |services|
        invariant 0 <= i <= |services|
        invariant reg.Valid() && reg.torndown.Off? && reg.streamCtxs == map[] && Subscribed(reg, services, i)
        invariant forall k :: 0 <= k < |reg.subs| ==> fresh(reg.subs[k])
        invariant forall k :: 0 <= k < 2 * i ==> accepted(k)
      {
        var ok := SubscribeService(reg, services[i], accepted(2 * i), accepted(2 * i + 1));
        if !ok {
          reg.Teardown();
          return Some(services[i]);
        }
        i := i + 1;
      }
      failed := None;
    }

    // The end of openIngress.
    method File(reg: Registration)
      requires Valid() && Separate(registrations.Values + {reg}) && reg.id !in registrations
      modifies this`registrations
      ensures Valid() && registrations == old(registrations)[reg.id := reg]
    {
      ghost var before := registrations;
      registrations := registrations[reg.id := reg];
      forall r | r in registrations.Values ensures r in before.Values + {reg} {
        var id :| id in registrations && registrations[id] == r;
        if id != reg.id { assert before[id] == r; }
      }
    }

    // closeIngress, on a registration that openIngress returned; Close may already
    // have taken it from the map.
    method CloseIngress(reg: Registration)
      requires Valid() && Separate(registrations.Values + {reg})
      requires reg.id in registrations ==> registrations[reg.id] == reg
      modifies this`registrations, reg, reg.subs, reg.streamCtxs.Values
      ensures Valid() && registrations == old(registrations) - {reg.id}
      ensures reg.Valid() && reg.torndown.On?
      ensures forall ctx :: ctx in old(reg.streamCtxs.Values) ==> ctx.cancelled.On?
    {
      ghost var all := registrations.Values + {reg};
      registrations := registrations - {reg.id};
      assert registrations.Values <= all;
      TearDownOne(all, reg);
    }

    // Close, as far as registrations are concerned: a snapshot of the map, which is
    // replaced by an empty one, and one teardown each.
    method Close()
      requires Valid()
      modifies this, registrations.Values, SubsOf(registrations.Values), ContextsOf(registrations.Values)
      ensures done.On? && registrations == map[]
      ensures forall reg :: reg in old(registrations.Values) ==> reg.Valid() && reg.torndown.On?
      ensures forall ctx :: ctx in old(ContextsOf(registrations.Values)) ==> ctx.cancelled.On?
    {
      done := On;
      var regs := registrations.Values;
      registrations := map[];
      TearDownAll(regs);
    }

    static method TearDownAll(regs: set<Registration>)
      requires Separate(regs)
      modifies regs, SubsOf(regs), ContextsOf(regs)
      ensures forall reg :: reg in regs ==> reg.Valid() && reg.torndown.On?
      ensures forall ctx :: ctx in old(ContextsOf(regs)) ==> ctx.cancelled.On?
    {
      var left := regs;
      while left != {}
        invariant left <= regs && Separate(regs)
        invariant forall reg :: reg in regs ==> reg.subs == old(reg.subs)
        invariant forall reg :: reg in left ==> reg.streamCtxs == old(reg.streamCtxs)
        invariant forall reg :: reg in regs - left ==> reg.torndown.On?
        invariant forall reg, ctx :: reg in regs - left && ctx in old(reg.streamCtxs.Values) ==> ctx.cancelled.On?
      {
        var reg :| reg in left;
        TearDownOne(regs, reg);
        left := left - {reg};
      }
    }

    // One teardown leaves the other registrations as they are.
    static method TearDownOne(ghost regs: set<Registration>, reg: Registration)
      requires Separate(regs) && reg in regs
      modifies reg, reg.subs, reg.streamCtxs.Values
      ensures Separate(regs) && reg.torndown.On? && reg.subs == old(reg.subs)
      ensures forall ctx :: ctx in old(reg.streamCtxs.Values) ==> ctx.cancelled.On?
    {
      assert forall other, k :: other in regs && other != reg && 0 <= k < |other.subs| ==> other.subs[k] !in reg.subs;
      reg.Teardown();
    }
  }
}
