// From the handler's calls to what the client is told, in whole runs: payloads, io.EOF
// and the status of the RPC.
module SessionAnswers {
  import opened Wire
  import opened Sessions
  import opened ServerAnswers
  import C = ClientStreams
  import CT = ClientTheorems
  import SS = ServerStreams
  import S = ServerSystem
  import ST = ServerTheorems

  /** What the handler of server stream i did in a run, read off its events: the payloads
      it gave SendMsg or returned as its response, and the error it returned. */
  function DeedsOf(path: string, registered: Flag, nid: string, events: seq<Event>, i: nat): Deeds {
    if events == [] then NOTHING_DONE
    else
      var front, last := events[..|events| - 1], events[|events| - 1];
      var d := DeedsOf(path, registered, nid, front, i);
      if last.AtServer? then DidIn(d, After(path, registered, nid, front).server, last.serverEvent, i) else d
  }

  ghost predicate Answers(s: Session, i: nat, d: Deeds) {
    && StopSays(s.server)
    && if i < |s.server.incs| then AnswerInv(s.server.incs[i], s.server.registered, d) else d == NOTHING_DONE
  }

  // What a step of the session adds to the deeds.
  function DidNext(d: Deeds, s: Session, e: Event, i: nat): Deeds {
    if e.AtServer? then DidIn(d, s.server, e.serverEvent, i) else d
  }

  lemma StepAnswered(s: Session, e: Event, i: nat, d: Deeds)
    requires Inv(s) && Answers(s, i, d)
    ensures Answers(Step(s, e), i, DidNext(d, s, e, i)) && Step(s, e).server.registered == s.server.registered
  {
    OneCallSent(s);
    match e
    case AtClient(ce) =>
    case AtServer(se) => if !se.Send? { StepAnswers(s.server, se, i, d); }
    case Deliver =>
  }

  lemma {:induction false} Answered(path: string, registered: Flag, nid: string, events: seq<Event>, i: nat)
    ensures var s := After(path, registered, nid, events);
            Answers(s, i, DeedsOf(path, registered, nid, events, i)) && s.server.registered == registered
  {
    if events != [] {
      var front, last := events[..|events| - 1], events[|events| - 1];
      Answered(path, registered, nid, front, i);
      AfterKeeps(path, registered, nid, front);
      StepAnswered(After(path, registered, nid, front), last, i, DeedsOf(path, registered, nid, front, i));
    }
  }

  // ---------------------------------------------------------------------
  // The End of a stream
  // ---------------------------------------------------------------------

  /** In every run, an End a server stream has published says what its handler returned:
      OK exactly for nil, a status error's own code and message, Unknown and the text of
      any other error; the only other Ends are Unimplemented, when no handler is
      registered, and that of a Begin that could not be published. */
  lemma EndIsTheHandlers(path: string, registered: Flag, nid: string, events: seq<Event>, i: nat, k: nat)
    requires var y := After(path, registered, nid, events).server;
             i < |y.incs| && k < |y.incs[i].out| && y.incs[i].out[k].Finish?
    ensures var inc := After(path, registered, nid, events).server.incs[i];
            var d := DeedsOf(path, registered, nid, events, i);
            && EndSays(inc.out[k].status, registered, d)
            && (IsOk(inc.out[k].status) ==> d.exit == Some(None))
            && (registered.On? && d.lost.Off? ==> d.exit.Some? && (IsOk(inc.out[k].status) <==> d.exit.value.None?))
  {
    Answered(path, registered, nid, events, i);
  }

  /** And it is owed: once the handler has returned on a live stream and its goroutine is
      through, with every publication succeeding, the last thing on the wire, Pongs
      aside, is an End that says what it returned. */
  lemma EndIsOwed(path: string, nid: string, events: seq<Event>, i: nat)
    requires var y := After(path, On, nid, events).server;
             i < |y.incs| && y.incs[i].handler.Exited? && y.incs[i].failed.Off?
    requires DeedsOf(path, On, nid, events, i).exit.Some?
    ensures var e := ErasePongs(After(path, On, nid, events).server.incs[i].out);
            && |e| >= 2 && e[|e| - 1].Finish?
            && Says(e[|e| - 1].status, DeedsOf(path, On, nid, events, i).exit.value)
  {
    var inc, d := StreamFacts(path, On, nid, events, i);
    OwedIn(inc, d);
  }

  // What holds of one stream.
  lemma StreamFacts(path: string, registered: Flag, nid: string, events: seq<Event>, i: nat)
    returns (inc: SS.Inc, d: Deeds)
    requires i < |After(path, registered, nid, events).server.incs|
    ensures inc == After(path, registered, nid, events).server.incs[i]
    ensures d == DeedsOf(path, registered, nid, events, i)
    ensures SS.IncInv(inc, registered) && AnswerInv(inc, registered, d)
  {
    Answered(path, registered, nid, events, i);
    AfterKeeps(path, registered, nid, events);
    inc, d := After(path, registered, nid, events).server.incs[i], DeedsOf(path, registered, nid, events, i);
  }

  /** The error a stream is finalized with, which End reports to the stats handlers, is
      the handler's as well, unless the client or Stop finalized the stream first. */
  lemma KeptIsTheHandlers(path: string, registered: Flag, nid: string, events: seq<Event>, i: nat)
    requires var y := After(path, registered, nid, events).server; i < |y.incs| && y.incs[i].s.finalized.On?
    ensures var inc := After(path, registered, nid, events).server.incs[i];
            && KeptError(inc.s.endErr, inc, registered, DeedsOf(path, registered, nid, events, i))
            && (ST.HasStatEnd(inc.s.stats) ==> StatEnd(inc.s.endErr) in inc.s.stats)
  {
    Answered(path, registered, nid, events, i);
    ServerStats(path, registered, nid, events, i);
  }

  lemma OwedIn(inc: SS.Inc, d: Deeds)
    requires SS.IncInv(inc, On) && AnswerInv(inc, On, d)
    requires inc.handler.Exited? && inc.failed.Off? && d.exit.Some?
    ensures var e := ErasePongs(inc.out);
            |e| >= 2 && e[|e| - 1].Finish? && Says(e[|e| - 1].status, d.exit.value)
  {
    ExitedHasEnded(inc, d);
    DigestIsGrammar(inc.out);
    LastIsPublished(inc.out);
  }

  lemma ExitedHasEnded(inc: SS.Inc, d: Deeds)
    requires SS.IncInv(inc, On) && AnswerInv(inc, On, d)
    requires inc.handler.Exited? && inc.failed.Off? && d.exit.Some?
    ensures DigestOf(inc.out).phase == Ended
  {
    assert SS.SeenOf(inc).wire == DigestOf(inc.out);
    assert SS.CloseInv(inc, On);
  }

  lemma {:induction false} ErasedIsPublished(out: seq<Response>, j: nat)
    requires j < |ErasePongs(out)|
    ensures exists k :: 0 <= k < |out| && out[k] == ErasePongs(out)[j]
  {
    var front, last := out[..|out| - 1], out[|out| - 1];
    if j < |ErasePongs(front)| {
      ErasedIsPublished(front, j);
      var k :| 0 <= k < |front| && front[k] == ErasePongs(front)[j];
      assert out[k] == ErasePongs(out)[j];
    } else {
      assert out[|out| - 1] == ErasePongs(out)[j];
    }
  }

  lemma LastIsPublished(out: seq<Response>)
    requires ErasePongs(out) != []
    ensures exists k :: 0 <= k < |out| && out[k] == ErasePongs(out)[|ErasePongs(out)| - 1]
  {
    ErasedIsPublished(out, |ErasePongs(out)| - 1);
  }

  lemma {:induction false} PublishedIsErased(out: seq<Response>, k: nat)
    requires k < |out| && !out[k].Pong?
    ensures exists j :: 0 <= j < |ErasePongs(out)| && ErasePongs(out)[j] == out[k]
  {
    var front, last := out[..|out| - 1], out[|out| - 1];
    if k < |front| {
      PublishedIsErased(front, k);
      var j :| 0 <= j < |ErasePongs(front)| && ErasePongs(front)[j] == front[k];
      assert ErasePongs(out)[j] == out[k];
    } else {
      assert ErasePongs(out)[|ErasePongs(out)| - 1] == out[k];
    }
  }

  // What the reply inbox carries, Pongs aside, a stream that took the Call published.
  lemma PublishedByCaller(y: S.System, k: nat) returns (i: nat, j: nat)
    requires S.InboxInv(y) && k < |y.published| && !y.published[k].Pong?
    ensures i < |y.incs| && SS.HasCall(y.incs[i]) && j < |y.incs[i].out| && y.incs[i].out[j] == y.published[k]
  {
    PublishedIsErased(y.published, k);
    assert ErasePongs(y.published) != [];
    i :| 0 <= i < |y.incs| && SS.HasCall(y.incs[i]);
    var p :| 0 <= p < |ErasePongs(y.published)| && ErasePongs(y.published)[p] == y.published[k];
    ErasedIsPublished(y.incs[i].out, p);
    j :| 0 <= j < |y.incs[i].out| && y.incs[i].out[j] == ErasePongs(y.incs[i].out)[p];
  }

  /** In every run, the Pongs a server stream has published answer the Pings it has taken
      from its inbox: with their timestamps and in order, one each while publications
      succeed. */
  lemma PongsAnswerPings(path: string, registered: Flag, nid: string, events: seq<Event>, i: nat)
    requires i < |After(path, registered, nid, events).server.incs|
    ensures var inc := After(path, registered, nid, events).server.incs[i];
            && Subsequence(Pongs(inc.out), Pings(SS.Bodies(inc.done)))
            && (inc.failed.Off? ==> Pongs(inc.out) == Pings(SS.Bodies(inc.done)))
  {
    Answered(path, registered, nid, events, i);
  }

  // ---------------------------------------------------------------------
  // What the client is told
  // ---------------------------------------------------------------------

  lemma InboxEnd(path: string, registered: Flag, nid: string, events: seq<Event>, k: nat) returns (i: nat)
    requires var y := After(path, registered, nid, events).server; k < |y.published| && y.published[k].Finish?
    ensures var y := After(path, registered, nid, events).server;
            && i < |y.incs|
            && EndSays(y.published[k].status, registered, DeedsOf(path, registered, nid, events, i))
  {
    var y := After(path, registered, nid, events).server;
    AfterKeeps(path, registered, nid, events);
    var j: nat;
    i, j := PublishedByCaller(y, k);
    EndIsTheHandlers(path, registered, nid, events, i, j);
  }

  /** io.EOF at the client means that the handler of the stream returned nil. */
  lemma EofMeansNil(path: string, registered: Flag, nid: string, events: seq<Event>) returns (i: nat)
    requires After(path, registered, nid, events).client.sawEof.On?
    ensures i < |After(path, registered, nid, events).server.incs|
    ensures DeedsOf(path, registered, nid, events, i).exit == Some(None)
  {
    var s := After(path, registered, nid, events);
    AfterKeeps(path, registered, nid, events);
    var k := EofIsAnEnd(s);
    i := InboxEnd(path, registered, nid, events, k);
  }

  lemma EofIsAnEnd(s: Session) returns (k: nat)
    requires Inv(s) && s.client.sawEof.On?
    ensures k < |s.server.published| && s.server.published[k].Finish? && IsOk(s.server.published[k].status)
  {
    CT.EofMeansEverything(s.client);
    k := OkEndTaken(s.client.processed);
    TakenIsPublished(s, k);
  }

  lemma {:induction false} OkEndTaken(rs: seq<Response>) returns (k: nat)
    requires Completed(rs).On?
    ensures k < |rs| && rs[k].Finish? && IsOk(rs[k].status)
  {
    if rs[|rs| - 1].Finish? && IsOk(rs[|rs| - 1].status) {
      k := |rs| - 1;
    } else {
      k := OkEndTaken(rs[..|rs| - 1]);
    }
  }

  lemma TakenIsPublished(s: Session, k: nat)
    requires Inv(s) && k < |s.client.processed|
    ensures k < |s.server.published| && s.server.published[k] == s.client.processed[k]
  {
    assert s.client.arrived[k] == s.client.processed[k];
  }

  /** The status ReadMsg keeps for RecvMsg is the one the handler returned, or one of the
      two other Ends. */
  lemma StatusIsTheHandlers(path: string, registered: Flag, nid: string, events: seq<Event>, st: Status)
    returns (i: nat)
    requires After(path, registered, nid, events).client.lastErr == Some(StatusError(st))
    ensures var y := After(path, registered, nid, events).server;
            && i < |y.incs| && st.code != 0
            && EndSays(Some(st), registered, DeedsOf(path, registered, nid, events, i))
  {
    var s := After(path, registered, nid, events);
    AfterKeeps(path, registered, nid, events);
    var k :| 0 <= k < |s.client.processed| && C.Explains(StatusError(st), s.client.processed[k]);
    TakenIsPublished(s, k);
    i := InboxEnd(path, registered, nid, events, k);
  }

  lemma {:induction false} AnsweredHolds(path: string, registered: Flag, nid: string, events: seq<Event>)
    ensures CT.AnsweredInv(After(path, registered, nid, events).client)
  {
    if events != [] {
      var front, last := events[..|events| - 1], events[|events| - 1];
      AnsweredHolds(path, registered, nid, front);
      var s := After(path, registered, nid, front);
      ClientMoves(s, last);
      CT.AnsweredKept(s.client, ClientEvent(s, last));
    }
  }

  // It is the status of an End of stream i.
  ghost predicate SaidBy(path: string, registered: Flag, nid: string, events: seq<Event>, st: Status, i: nat) {
    && i < |After(path, registered, nid, events).server.incs|
    && EndSays(Some(st), registered, DeedsOf(path, registered, nid, events, i))
  }

  /** Whatever error RecvMsg has answered: Canceled, DeadlineExceeded, a message it could
      not parse, or the status of an End, that is what the handler returned. */
  lemma AnswerIsTheHandlers(path: string, registered: Flag, nid: string, events: seq<Event>, k: nat)
    requires k < |After(path, registered, nid, events).client.answered|
    ensures var s := After(path, registered, nid, events);
            var e := s.client.answered[k];
            || e == StatusError(Status(1, "context canceled"))
            || e == StatusError(Status(4, "deadline exceeded"))
            || e.PlainError?
            || exists i :: SaidBy(path, registered, nid, events, e.status, i)
  {
    var s := After(path, registered, nid, events);
    AnsweredHolds(path, registered, nid, events);
    var e := s.client.answered[k];
    if s.client.lastErr == Some(e) && e.StatusError? {
      var i := StatusIsTheHandlers(path, registered, nid, events, e.status);
      assert SaidBy(path, registered, nid, events, e.status, i);
    }
  }

  // ---------------------------------------------------------------------
  // Payloads
  // ---------------------------------------------------------------------

  /** In every run, the payloads a server stream has published are those its handler gave
      it, in order: some, and while publications succeed all but the one SendMsg has in
      hand. */
  lemma PaidIsGiven(path: string, registered: Flag, nid: string, events: seq<Event>, i: nat)
    requires i < |After(path, registered, nid, events).server.incs|
    ensures var inc := After(path, registered, nid, events).server.incs[i];
            var given := DeedsOf(path, registered, nid, events, i).sent;
            && Subsequence(Payloads(inc.out), given)
            && (inc.failed.Off? ==> Payloads(inc.out) + InHand(inc.handler) == given)
  {
    Answered(path, registered, nid, events, i);
    var inc := After(path, registered, nid, events).server.incs[i];
    PaidMeans(inc.handler, inc.failed, Payloads(inc.out), DeedsOf(path, registered, nid, events, i).sent);
  }

  lemma PaidMeans(t: SS.Thread, failed: Flag, paid: seq<Payload>, given: seq<Payload>)
    requires PaidInv(t, failed, paid, given)
    ensures Subsequence(paid, given) && (failed.Off? ==> paid + InHand(t) == given)
  {
    if SS.InSend(t) {
      SubsequenceMore(paid, given[..|given| - 1], given[|given| - 1]);
      assert given[..|given| - 1] + [given[|given| - 1]] == given;
    }
  }

  // The inbox carries the payloads of the stream that took the Call.
  lemma InboxPayloads(y: S.System, i: nat)
    requires S.InboxInv(y) && i < |y.incs| && SS.HasCall(y.incs[i])
    ensures Payloads(y.published) == Payloads(y.incs[i].out)
  {
    ST.DigestErased(y.published);
    ST.DigestErased(y.incs[i].out);
  }

  /** Handler to client, in every run and whatever is cancelled: what RecvMsg has returned
      is among the payloads the handler gave, in order; with every publication of the
      stream succeeding it is a prefix of them, all of them once io.EOF is seen, and
      short of at most one once the OK End is taken. */
  lemma HandlerToClient(path: string, registered: Flag, nid: string, events: seq<Event>, i: nat)
    requires var y := After(path, registered, nid, events).server;
             i < |y.incs| && !y.incs[i].handler.NotStarted?
    ensures var s := After(path, registered, nid, events);
            var d, got := DeedsOf(path, registered, nid, events, i), s.client.got;
            && Subsequence(got, d.sent)
            && (s.server.incs[i].failed.Off? ==>
                  && got <= d.sent
                  && (s.client.sawEof.On? ==> got == d.sent && d.exit == Some(None))
                  && (Completed(s.client.processed).On? ==> |d.sent| <= |got| + 1))
  {
    var s := After(path, registered, nid, events);
    AfterKeeps(path, registered, nid, events);
    StartedHasCall(s, i);
    PaidIsGiven(path, registered, nid, events, i);
    PublishedToClient(path, registered, nid, events);
    InboxPayloads(s.server, i);
    var d, paid := DeedsOf(path, registered, nid, events, i), Payloads(s.server.incs[i].out);
    ST.SubsequencePrefix(paid, d.sent, |s.client.got|);
    if s.server.incs[i].failed.Off? {
      PrefixOfGiven(s.client.got, paid, InHand(s.server.incs[i].handler), d.sent);
      if Completed(s.client.processed).On? { CompletedMeansGiven(path, registered, nid, events, i); }
    }
  }

  lemma PrefixOfGiven<T>(got: seq<T>, paid: seq<T>, hand: seq<T>, given: seq<T>)
    requires |got| <= |paid| && got == paid[..|got|] && paid + hand == given
    ensures got <= given
  {}

  // After the OK End the handler has returned, and has nothing in hand.
  lemma CompletedMeansGiven(path: string, registered: Flag, nid: string, events: seq<Event>, i: nat)
    requires var s := After(path, registered, nid, events);
             && i < |s.server.incs| && !s.server.incs[i].handler.NotStarted? && s.server.incs[i].failed.Off?
             && Completed(s.client.processed).On?
    ensures var d := DeedsOf(path, registered, nid, events, i);
            && d.exit == Some(None) && d.sent == Payloads(After(path, registered, nid, events).server.incs[i].out)
  {
    var s := After(path, registered, nid, events);
    AfterKeeps(path, registered, nid, events);
    OneCallSent(s);
    StartedHasCall(s, i);
    var k := OkEndTaken(s.client.processed);
    TakenIsPublished(s, k);
    var i', j := PublishedByCaller(s.server, k);
    if i' != i { S.CallTakenOnce(s.server, i); }
    EndIsTheHandlers(path, registered, nid, events, i, j);
    PaidIsGiven(path, registered, nid, events, i);
    Answered(path, registered, nid, events, i);
    EndedHasNothing(s.server.incs[i], registered, j);
  }

  // A stream that has published an End is not in SendMsg, while publications succeed.
  lemma EndedHasNothing(inc: SS.Inc, registered: Flag, j: nat)
    requires SS.IncInv(inc, registered) && inc.failed.Off? && j < |inc.out| && inc.out[j].Finish?
    requires registered.On?
    ensures !SS.InSend(inc.handler)
  {
    assert SS.SeenOf(inc).wire == DigestOf(inc.out);
    DigestIsOrder(inc.out);
    assert SS.WireInv(inc, registered, SS.SeenOf(inc)) && SS.CloseInv(inc, registered);
  }
}
