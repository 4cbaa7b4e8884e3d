// Building runs of a whole stream: a client step that publishes, then the server on
// its own, and so on.
module SessionRuns {
  import opened Wire
  import opened Sessions
  import C = ClientStreams
  import S = ServerSystem
  import L = ServerLimits

  // A state that some run of the session reaches.
  ghost predicate Reached(s: Session, path: string, registered: Flag, nid: string) {
    exists events: seq<Event> :: s == After(path, registered, nid, events)
  }

  lemma InitReached(path: string, registered: Flag, nid: string)
    ensures Reached(Init(path, registered, nid), path, registered, nid)
  {
    assert Init(path, registered, nid) == After(path, registered, nid, []);
  }

  lemma StepReached(s: Session, e: Event, path: string, registered: Flag, nid: string)
    requires Reached(s, path, registered, nid)
    ensures Reached(Step(s, e), path, registered, nid)
  {
    var events: seq<Event> :| s == After(path, registered, nid, events);
    assert (events + [e])[..|events|] == events;
    assert Step(s, e) == After(path, registered, nid, events + [e]);
  }

  // A client step that publishes r.
  lemma ClientReached(s: Session, ce: C.Event, path: string, registered: Flag, nid: string)
    requires Reached(s, path, registered, nid) && !ce.Arrive?
    ensures var client := C.Step(s.client, ce);
            Reached(Session(client, s.server.(sent := client.out)), path, registered, nid)
  {
    StepReached(s, AtClient(ce), path, registered, nid);
  }

  lemma {:induction false} ServerRunReached(s: Session, events: seq<S.Event>,
                                            path: string, registered: Flag, nid: string)
    requires Reached(s, path, registered, nid) && L.NoSends(events)
    ensures Reached(s.(server := S.Run(s.server, events)), path, registered, nid)
  {
    if events == [] {
      assert s.(server := S.Run(s.server, events)) == s;
    } else {
      var front, last := events[..|events| - 1], events[|events| - 1];
      ServerRunReached(s, front, path, registered, nid);
      StepReached(s.(server := S.Run(s.server, front)), AtServer(last), path, registered, nid);
    }
  }

  // The server moves while the client publishes nothing.
  lemma ServerReached(s: Session, y: S.System, path: string, registered: Flag, nid: string)
    requires Reached(s, path, registered, nid) && L.Silently(s.server, y)
    ensures Reached(s.(server := y), path, registered, nid)
  {
    var events: seq<S.Event> :| L.NoSends(events) && y == S.Run(s.server, events);
    ServerRunReached(s, events, path, registered, nid);
  }

  lemma ReachedKeeps(s: Session, path: string, registered: Flag, nid: string)
    requires Reached(s, path, registered, nid)
    ensures Inv(s)
  {
    var events: seq<Event> :| s == After(path, registered, nid, events);
    AfterKeeps(path, registered, nid, events);
  }
}
