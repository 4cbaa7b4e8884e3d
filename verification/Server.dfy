// Server and serverStream (pkg/rpc/server.go) as objects: the methods that update
// their fields in place, each proved against the critical sections of
// ServerStreams that the transition system of ServerSystem interleaves.
module Servers {
  import opened Wire
  import opened ServerStreams

  // What a finished finalize() makes of a stream: the endOnce body, then cancel.
  function Finalized(s: Stream, err: Option<Error>): Stream {
    FinalizeOnce(s, err).(live := Off)
  }

  /** The first finalize wins: whichever error paths call it later, and however
      often, the stream and its stats trace stay as the first call left them. */
  lemma {:induction false} FirstFinalizeWins(s: Stream, first: Option<Error>, later: seq<Option<Error>>)
    ensures FinalizedBy(s, [first] + later) == Finalized(s, first)
  {
    var all := [first] + later;
    if later == [] {
      assert all == [first];
      assert all[..0] == [];
    } else {
      var front := later[..|later| - 1];
      assert all[..|all| - 1] == [first] + front;
      FirstFinalizeWins(s, first, front);
    }
  }

  function FinalizedBy(s: Stream, errs: seq<Option<Error>>): Stream {
    if errs == [] then s else Finalized(FinalizedBy(s, errs[..|errs| - 1]), errs[|errs| - 1])
  }

  // What has been published on each subject.
  type Log = map<string, seq<Response>>

  // The NATS connection: what has been published on each subject. Publishing
  // fails when the connection is down.
  class Conn {
    const up: Flag
    var log: Log

    constructor (up: Flag)
      ensures this.up == up && log == map[]
    {
      this.up := up;
      log := map[];
    }

    method Publish(subject: string, r: Response) returns (ok: bool)
      modifies this
      ensures ok == up.On?
      ensures log == Logged(old(log), subject, if ok then [r] else [])
    {
      ok := up.On?;
      if up.On? {
        log := Logged(log, subject, [r]);
      }
    }
  }

  // Two publications in a row, as the stream and the connection record them.
  lemma SentTwice(sent: seq<Response>, log: Log, subject: string, a: seq<Response>, b: seq<Response>)
    ensures (sent + a) + b == sent + (a + b)
    ensures Logged(Logged(log, subject, a), subject, b) == Logged(log, subject, a + b)
  {
    LoggedTwice(log, subject, a, b);
  }

  // What has gone out on a subject, and more of it.
  function Inbox(log: Log, subject: string): seq<Response> {
    if subject in log then log[subject] else []
  }

  function Logged(log: Log, subject: string, rs: seq<Response>): (more: Log)
    ensures Inbox(more, subject) == Inbox(log, subject) + rs
    ensures forall other :: other != subject ==> Inbox(more, other) == Inbox(log, other)
  {
    if rs == [] then log else log[subject := Inbox(log, subject) + rs]
  }

  lemma LoggedTwice(log: Log, subject: string, a: seq<Response>, b: seq<Response>)
    ensures Logged(Logged(log, subject, a), subject, b) == Logged(log, subject, a + b)
  {
    assert (Inbox(log, subject) + a) + b == Inbox(log, subject) + (a + b);
    assert a + [] == a && [] + b == b;
  }

  // The response that gets through, if there is one and the connection is up.
  function Through(r: Option<Response>, up: bool): seq<Response> {
    if r.Some? && up then [r.value] else []
  }

  // ---------------------------------------------------------------------
  // What a stream keeps
  // ---------------------------------------------------------------------

  // Histories of a stream: `sent`, what it got onto its reply inbox; `ended`, close
  // has run; `begunAtEnd`, the first finalize saw statsBegun.
  datatype Own = Own(sent: seq<Response>, ended: Flag, begunAtEnd: Flag)

  // One leading Begin, and an End exactly when Begin preceded the first finalize.
  ghost predicate StatsLawful(trace: StatPhase, s: Stream, begunAtEnd: Flag) {
    && trace == (if s.statsBegun.Off? then Silent else if begunAtEnd.On? then Closed(s.endErr) else Opened)
    && (begunAtEnd.On? ==> s.statsBegun.On? && s.finalized.On?)
    && (s.finalized.On? ==> s.live.Off?)
  }

  // On the wire Begin Data* End, and Begin carries the header as it now is.
  ghost predicate WireLawful(s: Stream, own: Own, nid: string, up: bool) {
    && (own.ended.On? ==> s.hasBegun.On?)
    && (!up ==> own.sent == [])
    && (up ==> DigestOf(own.sent).phase == if s.hasBegun.Off? then Fresh else if own.ended.On? then Ended else Begun)
    && (up && s.hasBegun.On? ==> Opens(own.sent, Begin(MakeMetadata(s.header), nid)))
  }

  // Pongs aside, r is the first response.
  ghost predicate Opens(sent: seq<Response>, r: Response) {
    ErasePongs(sent) != [] && ErasePongs(sent)[0] == r
  }

  ghost predicate Lawful(s: Stream, own: Own, nid: string, up: bool) {
    StatsLawful(StatPhaseOf(s.stats), s, own.begunAtEnd) && WireLawful(s, own, nid, up)
  }

  lemma FinalizedLawful(s: Stream, own: Own, nid: string, up: bool, err: Option<Error>)
    requires Lawful(s, own, nid, up)
    ensures Lawful(Finalized(s, err),
                   own.(begunAtEnd := if s.finalized.On? then own.begunAtEnd else s.statsBegun), nid, up)
  {
    StatAppend(s.stats, StatEnd(err));
  }

  lemma StatsBegunLawful(s: Stream, own: Own, nid: string, up: bool)
    requires Lawful(s, own, nid, up) && s.statsBegun.Off?
    ensures Lawful(s.(statsBegun := On, stats := s.stats + [StatBegin]), own, nid, up)
  {
    StatAppend(s.stats, StatBegin);
  }

  lemma PayloadLawful(s: Stream, own: Own, nid: string, up: bool, e: StatEvent)
    requires Lawful(s, own, nid, up) && s.statsBegun.On? && (e.InPayload? || e.OutPayload?)
    ensures Lawful(s.(stats := s.stats + [e]), own, nid, up)
  {
    StatAppend(s.stats, e);
  }

  lemma PongLawful(s: Stream, own: Own, nid: string, up: bool, timestamp: int)
    requires Lawful(s, own, nid, up)
    ensures Lawful(s, own.(sent := own.sent + Through(Some(Pong(timestamp)), up)), nid, up)
  {
    assert own.sent + [] == own.sent;
    DigestAppend(own.sent, Pong(timestamp));
    ErasePongsAppend(own.sent, Pong(timestamp));
  }

  lemma BegunLawful(s: Stream, own: Own, nid: string, up: bool)
    requires Lawful(s, own, nid, up)
    ensures var (s', begin) := ServerStreams.BeginMaybe(s, nid);
            Lawful(s', own.(sent := own.sent + Through(begin, up)), nid, up) && s'.hasBegun.On?
  {
    assert own.sent + [] == own.sent;
    var begin := Begin(MakeMetadata(s.header), nid);
    DigestAppend(own.sent, begin);
    ErasePongsAppend(own.sent, begin);
    DigestIsGrammar(own.sent);
  }

  lemma ReplyLawful(s: Stream, own: Own, nid: string, up: bool, p: Payload)
    requires Lawful(s, own, nid, up) && s.hasBegun.On? && (up ==> own.ended.Off?)
    ensures Lawful(s, own.(sent := own.sent + Through(Some(Reply(p)), up)), nid, up)
  {
    assert own.sent + [] == own.sent;
    DigestAppend(own.sent, Reply(p));
    ErasePongsAppend(own.sent, Reply(p));
  }

  lemma EndLawful(s: Stream, own: Own, nid: string, up: bool, err: Option<Error>)
    requires Lawful(s, own, nid, up) && s.hasBegun.On? && (up ==> own.ended.Off?) && WellFormedError(err)
    ensures Lawful(s, own.(sent := own.sent + Through(Some(FinishFrame(s, err)), up), ended := On), nid, up)
  {
    assert own.sent + [] == own.sent;
    DigestAppend(own.sent, FinishFrame(s, err));
    ErasePongsAppend(own.sent, FinishFrame(s, err));
  }

  /** Exactly a Data or an End published after close would break the grammar: close
      runs once, and nothing is sent after it. */
  lemma AfterCloseExactly(s: Stream, own: Own, nid: string, up: bool, r: Response)
    requires Lawful(s, own, nid, up) && s.hasBegun.On? && (r.Reply? || r.Finish?)
    ensures Grammar(ErasePongs(own.sent + Through(Some(r), up))) <==> (up ==> own.ended.Off?)
  {
    assert own.sent + [] == own.sent;
    DigestAppend(own.sent, r);
    DigestIsGrammar(own.sent + Through(Some(r), up));
    DigestIsGrammar(own.sent);
  }

  class ServerStream {
    const server: Server
    const reply: string
    var live: Flag
    var inbox: seq<Frame>
    var recv: seq<Payload>
    var recvOpen: Flag
    var hasBegun: Flag
    var header: Option<MD>
    var trailer: Option<MD>
    var statsBegun: Flag
    var finalized: Flag
    var endErr: Option<Error>
    var stats: seq<StatEvent>
    ghost var own: Own

    function State(): Stream
      reads this
    {
      Stream(live, inbox, recv, recvOpen, hasBegun, header, trailer, statsBegun, finalized, endErr, stats)
    }

    ghost predicate Valid()
      reads this
    {
      Lawful(State(), own, server.nid, server.conn.up.On?)
    }

    // rs went out on the reply inbox, and nothing on any other subject.
    twostate predicate Sends(rs: seq<Response>)
      reads this, server.conn
    {
      own.sent == old(own.sent) + rs && server.conn.log == Logged(old(server.conn.log), reply, rs)
    }

    constructor (server: Server, reply: string, live: Flag)
      ensures this.server == server && this.reply == reply && State() == NewStream(live)
      ensures Valid() && own == Own([], Off, Off)
    {
      this.server := server;
      this.reply := reply;
      this.live := live;
      inbox, recv, recvOpen, hasBegun := [], [], On, Off;
      header, trailer, statsBegun, finalized, endErr, stats := None, None, Off, Off, None, [];
      own := Own([], Off, Off);
    }

    method Publish(r: Response) returns (ok: bool)
      modifies this`own, server.conn
      ensures ok == server.conn.up.On? && Sends(Through(Some(r), server.conn.up.On?))
      ensures own == old(own).(sent := own.sent)
    {
      ok := server.conn.Publish(reply, r);
      own := own.(sent := own.sent + Through(Some(r), server.conn.up.On?));
    }

    method StatsBegin()
      requires Valid()
      modifies this`stats, this`statsBegun
      ensures Valid()
      ensures State() == ServerStreams.StatsBegin(old(State()))
    {
      if statsBegun.Off? {
        ghost var s := State();
        StatsBegunLawful(s, own, server.nid, server.conn.up.On?);
        stats := stats + [StatBegin];
        statsBegun := On;
        assert State() == s.(statsBegun := On, stats := s.stats + [StatBegin]);
      }
    }

    // finalize: the endOnce body, cancel(), and removal from Server.streams.
    method Finalize(err: Option<Error>)
      requires Valid()
      modifies this, server`streams
      ensures Valid() && own == old(own).(begunAtEnd := own.begunAtEnd)
      ensures State() == Finalized(old(State()), err)
      ensures server.streams == old(server.streams) - {reply}
    {
      FinalizedLawful(State(), own, server.nid, server.conn.up.On?, err);
      EndOnce(err);
      live := Off;
      server.Remove(reply);
    }

    // What endOnce guards.
    method EndOnce(err: Option<Error>)
      modifies this`own, this`endErr, this`stats, this`finalized
      ensures State() == FinalizeOnce(old(State()), err)
      ensures own == old(own).(begunAtEnd := if old(finalized).On? then old(own).begunAtEnd else old(statsBegun))
    {
      if finalized.Off? {
        own := own.(begunAtEnd := statsBegun);
        endErr := err;
        if statsBegun.On? {
          stats := stats + [StatEnd(err)];
        }
        finalized := On;
      }
    }

    // The frame is accepted or, when the context is cancelled, may be dropped.
    method Enqueue(f: Frame, drop: bool)
      requires Valid()
      requires drop ==> live.Off?
      requires !drop ==> |inbox| < INBOX_CAPACITY
      modifies this`inbox
      ensures Valid() && inbox == if drop then old(inbox) else old(inbox) + [f]
    {
      if !drop {
        inbox := inbox + [f];
      }
    }

    // processCall: close with Unimplemented, or report Begin and launch a handler.
    method ProcessCall(registered: bool) returns (launch: bool)
      requires Valid() && (server.conn.up.On? ==> own.ended.Off?)
      modifies this, server`streams, server.conn
      ensures Valid() && launch == registered
      ensures registered ==>
                && State() == ServerStreams.StatsBegin(old(State())) && server.streams == old(server.streams)
                && Sends([])
      ensures !registered ==>
                && State() == Finalized(ServerStreams.BeginMaybe(old(State()), server.nid).0, UNIMPLEMENTED)
                && server.streams == old(server.streams) - {reply}
                && Sends(Through(ServerStreams.BeginMaybe(old(State()), server.nid).1, server.conn.up.On?)
                         + Through(Some(FinishFrame(old(State()), UNIMPLEMENTED)), server.conn.up.On?))
    {
      if registered {
        StatsBegin();
      } else {
        Close(UNIMPLEMENTED);
      }
      launch := registered;
    }

    // processData up to the blocking send; reports what the worker must hand over.
    method ProcessData(p: Payload) returns (blocked: Option<Payload>)
      requires Valid()
      modifies this`stats, this`statsBegun
      ensures Valid()
      ensures State() == if old(recvOpen).On? then AcceptData(old(State()), p) else old(State())
      ensures blocked == if old(recvOpen).On? then Some(p) else None
    {
      if recvOpen.Off? {
        return None;
      }
      StatsBegin();
      PayloadLawful(State(), own, server.nid, server.conn.up.On?, InPayload(|p|));
      stats := stats + [InPayload(|p|)];
      blocked := Some(p);
    }

    // An error status cancels the stream; OK or no status closes the receive side.
    method ProcessEnd(status: Option<Status>)
      requires Valid()
      modifies this, server`streams
      ensures Valid()
      ensures IsOk(status) ==> State() == CloseRecv(old(State())) && server.streams == old(server.streams)
      ensures !IsOk(status) ==>
                && State() == Finalized(old(State()), Some(StatusError(status.value)))
                && server.streams == old(server.streams) - {reply}
    {
      if !IsOk(status) {
        Finalize(Some(StatusError(status.value)));
      } else {
        recvOpen := Off;
      }
    }

    method ProcessPing(timestamp: int)
      requires Valid()
      modifies this`own, server.conn
      ensures Valid() && Sends(Through(Some(Pong(timestamp)), server.conn.up.On?))
    {
      PongLawful(State(), own, server.nid, server.conn.up.On?, timestamp);
      var _ := Publish(Pong(timestamp));
    }

    // beginMaybe: false when Begin had to be published and could not be.
    method BeginMaybe() returns (ok: bool)
      requires Valid()
      modifies this`hasBegun, this`own, server.conn
      ensures Valid() && own == old(own).(sent := own.sent)
      ensures State() == ServerStreams.BeginMaybe(old(State()), server.nid).0
      ensures ok <==> old(hasBegun).On? || server.conn.up.On?
      ensures Sends(Through(ServerStreams.BeginMaybe(old(State()), server.nid).1, server.conn.up.On?))
    {
      BegunLawful(State(), own, server.nid, server.conn.up.On?);
      if hasBegun.On? {
        return true;
      }
      hasBegun := On;
      ok := Publish(Begin(MakeMetadata(header), server.nid));
    }

    method WriteEnd(err: Option<Error>)
      requires Valid() && hasBegun.On? && WellFormedError(err) && (server.conn.up.On? ==> own.ended.Off?)
      modifies this`own, server.conn
      ensures Valid() && own.ended.On? && own.begunAtEnd == old(own).begunAtEnd
      ensures Sends(Through(Some(FinishFrame(State(), err)), server.conn.up.On?))
    {
      EndLawful(State(), own, server.nid, server.conn.up.On?, err);
      var _ := Publish(Finish(StatusProto(err), MakeMetadata(trailer)));
      own := own.(ended := On);
    }

    method WriteData(p: Payload)
      requires Valid() && hasBegun.On? && (server.conn.up.On? ==> own.ended.Off?)
      modifies this`own, server.conn
      ensures Valid() && own == old(own).(sent := own.sent)
      ensures Sends(Through(Some(Reply(p)), server.conn.up.On?))
    {
      ReplyLawful(State(), own, server.nid, server.conn.up.On?, p);
      var _ := Publish(Reply(p));
    }

    // close: Begin if none was sent, End with the error's status, then finalize.
    method Close(err: Option<Error>)
      requires Valid() && WellFormedError(err) && (server.conn.up.On? ==> own.ended.Off?)
      modifies this, server`streams, server.conn
      ensures Valid() && own.ended.On?
      ensures State() == Finalized(ServerStreams.BeginMaybe(old(State()), server.nid).0, err)
      ensures server.streams == old(server.streams) - {reply}
      ensures Sends(Through(ServerStreams.BeginMaybe(old(State()), server.nid).1, server.conn.up.On?)
                    + Through(Some(FinishFrame(old(State()), err)), server.conn.up.On?))
    {
      PublishEnd(err);
      Finalize(err);
    }

    // What close puts on the wire.
    method PublishEnd(err: Option<Error>)
      requires Valid() && WellFormedError(err) && (server.conn.up.On? ==> own.ended.Off?)
      modifies this`hasBegun, this`own, server.conn
      ensures Valid() && own.ended.On? && own.begunAtEnd == old(own).begunAtEnd
      ensures State() == ServerStreams.BeginMaybe(old(State()), server.nid).0
      ensures Sends(Through(ServerStreams.BeginMaybe(old(State()), server.nid).1, server.conn.up.On?)
                    + Through(Some(FinishFrame(old(State()), err)), server.conn.up.On?))
    {
      ghost var before, log := own.sent, server.conn.log;
      ghost var begin := Through(ServerStreams.BeginMaybe(State(), server.nid).1, server.conn.up.On?);
      ghost var end := Through(Some(FinishFrame(State(), err)), server.conn.up.On?);
      var _ := BeginMaybe();
      WriteEnd(err);
      SentTwice(before, log, reply, begin, end);
    }

    method SetHeader(md: Option<MD>) returns (ok: bool)
      requires Valid()
      modifies this`header
      ensures Valid()
      ensures (State(), if ok then On else Off) == ServerStreams.SetHeader(old(State()), md)
    {
      if hasBegun.On? {
        return false;
      }
      if header.None? {
        header := md;
      } else if md.Some? {
        header := Some(Join(header.value, md.value));
      }
      ok := true;
    }

    method SendHeader(md: Option<MD>) returns (ok: bool)
      requires Valid()
      modifies this`header, this`hasBegun, this`own, server.conn
      ensures Valid()
      ensures old(hasBegun).On? ==> !ok && State() == old(State()) && Sends([])
      ensures old(hasBegun).Off? ==>
                var (s', begin) := ServerStreams.BeginMaybe(ServerStreams.SetHeader(old(State()), md).0, server.nid);
                ok == server.conn.up.On? && State() == s' && Sends(Through(begin, server.conn.up.On?))
    {
      ok := SetHeader(md);
      if ok {
        ok := BeginMaybe();
      }
    }

    method SetTrailer(md: Option<MD>)
      requires Valid()
      modifies this`trailer
      ensures Valid() && State() == ServerStreams.SetTrailer(old(State()), md)
    {
      if trailer.None? {
        trailer := md;
      } else if md.Some? {
        trailer := Some(Join(trailer.value, md.value));
      }
    }

    // SendMsg, by the running handler, on a message that marshals to p: when Begin
    // cannot be published the stream is closed with that error; a failed Data
    // publication goes unnoticed.
    method SendMsg(p: Payload) returns (ok: bool)
      requires Valid() && statsBegun.On? && (server.conn.up.On? ==> own.ended.Off?)
      modifies this, server`streams, server.conn
      ensures Valid() && (ok <==> old(hasBegun).On? || server.conn.up.On?)
      ensures ok ==>
                var (s', begin) := ServerStreams.BeginMaybe(old(State()), server.nid);
                && State() == s'.(stats := s'.stats + [OutPayload(|p|)])
                && server.streams == old(server.streams) && own.ended == old(own.ended)
                && Sends(Through(begin, server.conn.up.On?) + Through(Some(Reply(p)), server.conn.up.On?))
      ensures !ok ==>
                && State() == Finalized(old(State()).(hasBegun := On), PUBLISH_FAILED)
                && server.streams == old(server.streams) - {reply} && Sends([])
    {
      ghost var before, log := own.sent, server.conn.log;
      ghost var begin := Through(ServerStreams.BeginMaybe(State(), server.nid).1, server.conn.up.On?);
      ok := BeginMaybe();
      if ok {
        WriteMessage(p);
        ghost var data := Through(Some(Reply(p)), server.conn.up.On?);
        SentTwice(before, log, reply, begin, data);
      } else {
        Close(PUBLISH_FAILED);
      }
    }

    method ReportOutPayload(p: Payload)
      requires Valid() && statsBegun.On?
      modifies this`stats
      ensures Valid() && stats == old(stats) + [OutPayload(|p|)]
    {
      PayloadLawful(State(), own, server.nid, server.conn.up.On?, OutPayload(|p|));
      stats := stats + [OutPayload(|p|)];
    }

    // OutPayload, and the Data whose publication may fail unnoticed.
    method WriteMessage(p: Payload)
      requires Valid() && statsBegun.On? && hasBegun.On? && (server.conn.up.On? ==> own.ended.Off?)
      modifies this`stats, this`own, server.conn
      ensures Valid() && stats == old(stats) + [OutPayload(|p|)] && own == old(own).(sent := own.sent)
      ensures Sends(Through(Some(Reply(p)), server.conn.up.On?))
    {
      ReportOutPayload(p);
      WriteData(p);
    }

    // RecvMsg when the receive case of its select is chosen and ready.
    method RecvMsg() returns (r: Option<Payload>)
      requires Valid() && (recv != [] || recvOpen.Off?)
      modifies this`recv
      ensures Valid()
      ensures old(recv) != [] ==> r == Some(old(recv)[0]) && recv == old(recv)[1..]
      ensures old(recv) == [] ==> r == None && recv == []
    {
      if recv == [] {
        return None;
      }
      r := Some(recv[0]);
      recv := recv[1..];
    }
  }

  /** What every method of a stream keeps, whatever the order of calls: with the
      connection up the stream has put a prefix of Begin Data* End on its inbox, Pongs
      aside, opened by a Begin with the header as it stands, which is therefore frozen;
      and its stats trace is orderly, with an End exactly when one was due. */
  lemma ValidStream(stream: ServerStream)
    requires stream.Valid()
    ensures stream.server.conn.up.On? ==>
              && Grammar(ErasePongs(stream.own.sent))
              && (stream.hasBegun.On? <==> ErasePongs(stream.own.sent) != [])
              && (stream.hasBegun.On? ==>
                    ErasePongs(stream.own.sent)[0] == Begin(MakeMetadata(stream.header), stream.server.nid))
    ensures OrderlyTrace(stream.stats)
    ensures (exists k :: 0 <= k < |stream.stats| && stream.stats[k].StatEnd?) <==> stream.own.begunAtEnd.On?
    ensures stream.own.begunAtEnd.On? ==> StatEnd(stream.endErr) in stream.stats
  {
    DigestIsGrammar(stream.own.sent);
    StatPhaseMeaning(stream.stats);
  }

  class Server {
    const conn: Conn
    const nid: string
    var live: Flag
    var streams: map<string, ServerStream>

    constructor (conn: Conn, nid: string)
      ensures this.conn == conn && this.nid == nid && live.On? && streams == map[]
    {
      this.conn := conn;
      this.nid := nid;
      live := On;
      streams := map[];
    }

    // Every entry is keyed by its stream's reply, so no stream is held twice.
    ghost predicate Valid()
      reads this, streams.Values
    {
      forall reply :: reply in streams ==>
        streams[reply].reply == reply && streams[reply].server == this && streams[reply].Valid()
    }

    method Remove(reply: string)
      modifies this`streams
      ensures streams == old(streams) - {reply}
    {
      streams := streams - {reply};
    }

    // onMessage, past the unary fast path: find or create the stream of the reply.
    method Lookup(reply: string) returns (stream: ServerStream)
      requires Valid()
      modifies this`streams
      ensures Valid()
      ensures stream.reply == reply && stream.server == this
      ensures reply in old(streams) ==> stream == old(streams)[reply] && streams == old(streams)
      ensures reply !in old(streams) ==>
                fresh(stream) && stream.State() == NewStream(live) && streams == old(streams)[reply := stream]
    {
      if reply in streams {
        return streams[reply];
      }
      stream := new ServerStream(this, reply, live);
      streams := streams[reply := stream];
    }

    // The streams of the map, in whatever order it is iterated.
    method Snapshot() returns (snapshot: seq<ServerStream>)
      ensures IsSnapshot(snapshot, streams.Values)
    {
      snapshot := [];
      var left := streams.Values;
      while left != {}
        invariant left <= streams.Values
        invariant forall stream :: stream in snapshot ==> stream in streams.Values
        invariant forall stream :: stream in streams.Values ==> stream in snapshot || stream in left
        invariant forall k :: 0 <= k < |snapshot| ==> snapshot[k] !in left
        invariant forall j, k :: 0 <= j < k < |snapshot| ==> snapshot[j] != snapshot[k]
        decreases left
      {
        var stream :| stream in left;
        snapshot := snapshot + [stream];
        left := left - {stream};
      }
    }

    // Every entry once.
    ghost predicate IsSnapshot(snapshot: seq<ServerStream>, entries: set<ServerStream>) {
      && (forall stream :: stream in snapshot ==> stream in entries)
      && (forall stream :: stream in entries ==> stream in snapshot)
      && (forall j, k :: 0 <= j < k < |snapshot| ==> snapshot[j] != snapshot[k])
    }

    // Stop: finalize on every stream of a snapshot, each of which deletes its own
    // entry from the map the snapshot was taken from.
    method Stop()
      requires Valid()
      modifies this, streams.Values
      ensures Valid() && streams == map[] && live.Off?
      ensures forall stream :: stream in old(streams.Values) ==>
                stream.State() == Finalized(old(stream.State()), SERVER_STOPPING) && stream.Valid()
    {
      var snapshot := Snapshot();
      assert forall r :: r in streams ==> streams[r] in snapshot;
      FinalizeAll(snapshot);
      live := Off;
    }

    method FinalizeAll(snapshot: seq<ServerStream>)
      requires forall j, k :: 0 <= j < k < |snapshot| ==> snapshot[j] != snapshot[k]
      requires forall stream :: stream in snapshot ==> stream.server == this && stream.Valid()
      modifies this`streams, snapshot
      ensures forall r :: r in streams ==> r in old(streams) && streams[r] == old(streams)[r]
      ensures forall stream :: stream in snapshot ==> stream.reply !in streams && Stopped(stream)
    {
      var i := 0;
      while i < |snapshot|
        invariant 0 <= i <= |snapshot|
        invariant forall r :: r in streams ==> r in old(streams) && streams[r] == old(streams)[r]
        invariant forall k :: 0 <= k < i ==> snapshot[k].reply !in streams && Stopped(snapshot[k])
        invariant forall k :: i <= k < |snapshot| ==> unchanged(snapshot[k])
      {
        FinalizeOne(snapshot, i);
        i := i + 1;
      }
    }

    // One finalize leaves the other streams of the snapshot as they are.
    method FinalizeOne(snapshot: seq<ServerStream>, i: nat)
      requires forall j, k :: 0 <= j < k < |snapshot| ==> snapshot[j] != snapshot[k]
      requires i < |snapshot| && snapshot[i].server == this && snapshot[i].Valid()
      modifies this`streams, snapshot[i]
      ensures streams == old(streams) - {snapshot[i].reply}
      ensures Stopped(snapshot[i])
      ensures forall k :: 0 <= k < |snapshot| && k != i ==> unchanged(snapshot[k])
    {
      snapshot[i].Finalize(SERVER_STOPPING);
    }

    // The stream is as Stop's finalize leaves it.
    static twostate predicate Stopped(stream: ServerStream)
      reads stream
    {
      stream.State() == Finalized(old(stream.State()), SERVER_STOPPING) && stream.Valid()
    }
  }

  /** What Stop leaves of a stream: one that had reported Begin and was not finalized
      yet now ends with Unavailable, so its trace holds exactly one End; any other
      keeps its trace. */
  lemma StoppedTrace(s: Stream)
    requires s.finalized.Off? ==> StatPhaseOf(s.stats) == if s.statsBegun.On? then Opened else Silent
    ensures var t := Finalized(s, SERVER_STOPPING);
            && t.finalized.On? && t.live.Off?
            && if s.finalized.Off? && s.statsBegun.On? then StatPhaseOf(t.stats) == Closed(SERVER_STOPPING)
               else t.stats == s.stats
  {
    StatAppend(s.stats, StatEnd(SERVER_STOPPING));
  }
}
