// Server.Stop in whole runs: client, NATS, dispatcher, workers, handlers and Stop
// interleaved in any order.
module SessionStopping {
  import opened Wire
  import opened Sessions
  import opened ServerStopping
  import C = ClientStreams
  import SS = ServerStreams
  import S = ServerSystem
  import ST = ServerTheorems

  // A step of the session is a step of the server, or none.
  lemma ServerMoves(s: Session, e: Event) returns (se: S.Event)
    requires Inv(s)
    ensures Step(s, e).server == s.server || Step(s, e).server == S.Step(s.server, se)
  {
    se := S.Lookup;
    match e
    case AtClient(ce) =>
      if !ce.Arrive? {
        ClientPublishes(s.client, ce);
        var out' := C.Step(s.client, ce).out;
        if out' == s.client.out {
          assert s.server.(sent := out') == s.server;
        } else {
          se := S.Send(out'[|s.client.out|]);
        }
      }
    case AtServer(ev) => se := ev;
    case Deliver =>
  }

  // From stream inc0 on, while Stop has the stream.
  ghost predicate Stopping(y: S.System, i: nat, inc0: SS.Inc) {
    StopHas(y, i) && Follows(inc0, y.incs[i])
  }

  lemma StoppingKept(s: Session, e: Event, i: nat, inc0: SS.Inc)
    requires Inv(s) && Stopping(s.server, i, inc0)
    ensures Stopping(Step(s, e).server, i, inc0)
  {
    var se := ServerMoves(s, e);
    if Step(s, e).server != s.server { StoppingStepKept(s.server, se, i, inc0); }
  }

  lemma StoppingStepKept(y: S.System, se: S.Event, i: nat, inc0: SS.Inc)
    requires S.StopInv(y) && Stopping(y, i, inc0)
    ensures Stopping(S.Step(y, se), i, inc0)
  {
    StepKeepsStopHas(y, se, i);
    StepLater(y, se, i);
    LaterStill(inc0, y.incs[i], S.Step(y, se).incs[i]);
  }

  // The events after the one that begins Stop.
  lemma {:induction false} StaysStopped(path: string, registered: Flag, nid: string,
                                        begun: seq<Event>, rest: seq<Event>, i: nat, inc0: SS.Inc)
    requires Stopping(After(path, registered, nid, begun).server, i, inc0)
    ensures Stopping(After(path, registered, nid, begun + rest).server, i, inc0)
  {
    if rest == [] {
      assert begun + rest == begun;
    } else {
      var front, last := rest[..|rest| - 1], rest[|rest| - 1];
      assert (begun + rest)[..|begun + rest| - 1] == begun + front;
      StaysStopped(path, registered, nid, begun, front, i, inc0);
      AfterKeeps(path, registered, nid, begun + front);
      StoppingKept(After(path, registered, nid, begun + front), last, i, inc0);
    }
  }

  lemma StopFindsIt(s: Session, i: nat)
    requires Inv(s) && s.server.stop.NotStopping? && s.server.mapped == Some(i)
    ensures i < |s.server.incs| && Stopping(Step(s, AtServer(S.StopBegin)).server, i, s.server.incs[i])
  {
    EntryExists(s.server, i);
    StopBeginHas(s.server, i);
  }

  lemma EntryExists(y: S.System, i: nat)
    requires S.DispatchInv(y) && y.mapped == Some(i)
    ensures i < |y.incs|
  {}

  /** Stop among everything else, in every run: the stream that Server.Stop finds in
      the map for this reply is, once Stop's loop is through and in every continuation,
      finalized and not the entry of the map, with at most one End on its stats, and
      exactly one if it had begun and was not finalized yet when Stop found it. */
  lemma StopFinalizesItsSnapshot(path: string, registered: Flag, nid: string,
                                 before: seq<Event>, rest: seq<Event>, i: nat)
    requires var y := After(path, registered, nid, before).server;
             y.stop.NotStopping? && y.mapped == Some(i)
    ensures var y0 := After(path, registered, nid, before).server;
            var y := After(path, registered, nid, before + [AtServer(S.StopBegin)] + rest).server;
            && i < |y0.incs| && i < |y.incs|
            && (y.stop.CancellingServer? || y.stop.StopDone? ==>
                  && y.incs[i].removed.On? && y.incs[i].s.finalized.On? && y.mapped != Some(i)
                  && OrderlyTrace(y.incs[i].s.stats)
                  && (ST.HasStatEnd(y.incs[i].s.stats) <==> y.incs[i].begunAtEnd.On?)
                  && (y0.incs[i].s.statsBegun.On? && y0.incs[i].s.finalized.Off? ==>
                        StatEnd(y.incs[i].s.endErr) in y.incs[i].s.stats))
  {
    var begun := before + [AtServer(S.StopBegin)];
    assert begun[..|before|] == before;
    AfterKeeps(path, registered, nid, before);
    StopFindsIt(After(path, registered, nid, before), i);
    StaysStopped(path, registered, nid, begun, rest, i, After(path, registered, nid, before).server.incs[i]);
    AfterKeeps(path, registered, nid, begun + rest);
    var y := After(path, registered, nid, begun + rest).server;
    if y.stop.CancellingServer? || y.stop.StopDone? {
      ST.RemovedIsUnmapped(y, i);
      ST.StatsLifecycle(y, i);
    }
  }

  // The server hears nothing more.
  predicate Deaf(y: S.System, taken: nat, streams: nat) {
    y.stop.StopDone? && y.subscribed.Off? && y.taken == taken && |y.incs| == streams
  }

  lemma StaysDeaf(y: S.System, e: S.Event, taken: nat, streams: nat)
    requires Deaf(y, taken, streams)
    ensures Deaf(S.Step(y, e), taken, streams)
  {}

  lemma {:induction false} DeafAfter(path: string, registered: Flag, nid: string, before: seq<Event>,
                                     rest: seq<Event>, taken: nat, streams: nat)
    requires Deaf(After(path, registered, nid, before).server, taken, streams)
    ensures Deaf(After(path, registered, nid, before + rest).server, taken, streams)
  {
    if rest == [] {
      assert before + rest == before;
    } else {
      var front, last := rest[..|rest| - 1], rest[|rest| - 1];
      assert (before + rest)[..|before + rest| - 1] == before + front;
      DeafAfter(path, registered, nid, before, front, taken, streams);
      AfterKeeps(path, registered, nid, before + front);
      var s := After(path, registered, nid, before + front);
      var se := ServerMoves(s, last);
      if Step(s, last).server != s.server { StaysDeaf(s.server, se, taken, streams); }
    }
  }

  /** The end of Stop: once it has unsubscribed, no frame is dispatched and no stream
      created any more, in any continuation. */
  lemma UnsubscribedIsDeaf(path: string, registered: Flag, nid: string, before: seq<Event>, rest: seq<Event>)
    requires After(path, registered, nid, before).server.stop.StopDone?
    ensures var y0 := After(path, registered, nid, before).server;
            var y := After(path, registered, nid, before + [AtServer(S.Unsubscribe)] + rest).server;
            y.taken == y0.taken && |y.incs| == |y0.incs|
  {
    var y0 := After(path, registered, nid, before).server;
    var told := before + [AtServer(S.Unsubscribe)];
    assert told[..|before|] == before;
    assert Deaf(After(path, registered, nid, told).server, y0.taken, |y0.incs|);
    DeafAfter(path, registered, nid, told, rest, y0.taken, |y0.incs|);
  }
}
