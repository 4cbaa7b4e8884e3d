// Client and clientStream (pkg/rpc/client.go) as objects: the methods that update
// their fields in place, each proved against what the goroutines of
// ClientStreams do step by step.
module Clients {
  import opened Wire
  import CS = ClientStreams

  // The fields of clientStream that done(), onMessage and RecvMsg share.
  datatype Fields = Fields(
    live: Flag,
    closed: Flag,
    lastErr: Option<Error>,
    endErr: Option<Error>,
    msgChOpen: Flag,
    subscribed: Flag,
    heartbeatOpen: Flag,
    recv: seq<Payload>,
    recvOpen: Flag,
    stats: seq<StatEvent>)

  function FieldsOf(c: CS.Client): Fields {
    Fields(c.live, c.closed, c.lastErr, c.endErr, c.msgChOpen, c.subscribed, c.heartbeatOpen,
           c.recv, c.recvOpen, c.stats)
  }

  // The whole body of done().
  function Torn(f: Fields): Fields {
    if f.closed.On? then f
    else f.(closed := On, stats := f.stats + [StatEnd(f.endErr)], live := Off, heartbeatOpen := Off,
            subscribed := Off, msgChOpen := Off)
  }

  // CallDone and the six statements of done(), one after the other.
  function DoneAlone(c: CS.Client, t: CS.Caller): CS.Client {
    var s := CS.DoneStep;
    CS.Step(CS.Step(CS.Step(CS.Step(CS.Step(CS.Step(CS.Step(c, CS.CallDone(t)), s), s), s), s), s), s)
  }

  lemma LeaveKeepsFields(c: CS.Client, t: CS.Caller)
    ensures FieldsOf(CS.LeaveDone(c, t)) == FieldsOf(c)
    ensures CS.LeaveDone(c, t).mapped == c.mapped && CS.LeaveDone(c, t).stage == c.stage
  {
    match t
    case TheReader =>
    case _ =>
  }

  /** done() called alone is done() run step by step: the same fields, and the
      stream gone from Client.streams. */
  lemma DoneRefines(c: CS.Client, t: CS.Caller)
    requires CS.DoneInv(c) && CS.IsInDone(c, t) && c.closed.Off?
    ensures FieldsOf(DoneAlone(c, t)) == Torn(FieldsOf(c)) && DoneAlone(c, t).mapped.Off?
  {
    var c1 := CS.Step(c, CS.CallDone(t));
    var c2 := CS.Step(c1, CS.DoneStep);
    var c3 := CS.Step(c2, CS.DoneStep);
    var c4 := CS.Step(c3, CS.DoneStep);
    var c5 := CS.Step(c4, CS.DoneStep);
    var c6 := CS.Step(c5, CS.DoneStep);
    assert c6.stage == CS.DONE_CHANNEL && c6.winner == Some(t);
    LeaveKeepsFields(c6.(mapped := Off, stage := CS.DONE_REMOVED), t);
  }

  // onMessage on a Data or End response.
  function OnData(f: Fields, p: Payload): Fields {
    if f.recvOpen.On? then f.(stats := f.stats + [InPayload(|p|)]) else f
  }

  function OnEnd(f: Fields, status: Option<Status>): Fields {
    if !IsOk(status) then Torn(f.(endErr := Some(StatusError(status.value))))
    else Torn(f.(recvOpen := Off))
  }

  /** The methods on a Data or End response are what ReadMsg does with it step by step:
      taking it off msgCh and, for an End, going through done() alone, or finding it
      done. */
  lemma MessageRefines(c: CS.Client)
    requires CS.DoneInv(c) && c.reader.Reading? && c.msgCh != []
    ensures var r, taken := c.msgCh[0], CS.Step(c, CS.ReaderTake);
            && (r.Reply? ==>
                  && FieldsOf(taken) == OnData(FieldsOf(c), r.payload)
                  && (c.recvOpen.On? ==> taken.reader == CS.Sending(r.payload)))
            && (r.Finish? && c.closed.Off? ==>
                  FieldsOf(DoneAlone(taken, CS.TheReader)) == OnEnd(FieldsOf(c), r.status))
            && (r.Finish? && c.closed.On? ==>
                  FieldsOf(CS.Step(taken, CS.CallDone(CS.TheReader))) == OnEnd(FieldsOf(c), r.status))
  {
    var r, taken := c.msgCh[0], CS.Step(c, CS.ReaderTake);
    match r
    case Reply(_) =>
    case Finish(status, _) =>
      TakenEnd(c);
      if c.closed.Off? {
        DoneRefines(taken, CS.TheReader);
      } else {
        LeaveKeepsFields(taken, CS.TheReader);
      }
    case _ =>
  }

  // ReadMsg with an End in hand, about to call done().
  lemma TakenEnd(c: CS.Client)
    requires CS.DoneInv(c) && c.reader.Reading? && c.msgCh != [] && c.msgCh[0].Finish?
    ensures var status, taken := c.msgCh[0].status, CS.Step(c, CS.ReaderTake);
            && CS.DoneInv(taken) && CS.IsInDone(taken, CS.TheReader) && !CS.InBody(taken, CS.TheReader)
            && taken.closed == c.closed
            && Torn(FieldsOf(taken)) == OnEnd(FieldsOf(c), status)
  {
    if IsOk(c.msgCh[0].status) { TakenOkEnd(c); } else { TakenErrorEnd(c); }
  }

  lemma TakenOkEnd(c: CS.Client)
    requires CS.DoneInv(c) && c.reader.Reading? && c.msgCh != [] && c.msgCh[0].Finish? && IsOk(c.msgCh[0].status)
    ensures var taken := CS.Step(c, CS.ReaderTake);
            && CS.DoneInv(taken) && taken.reader == CS.ReaderInDone(None) && taken.closed == c.closed
            && !CS.InBody(taken, CS.TheReader) && FieldsOf(taken) == FieldsOf(c).(recvOpen := Off)
  {}

  lemma TakenErrorEnd(c: CS.Client)
    requires CS.DoneInv(c) && c.reader.Reading? && c.msgCh != [] && c.msgCh[0].Finish? && !IsOk(c.msgCh[0].status)
    ensures var taken, err := CS.Step(c, CS.ReaderTake), StatusError(c.msgCh[0].status.value);
            && CS.DoneInv(taken) && taken.reader == CS.ReaderInDone(Some(err)) && taken.closed == c.closed
            && !CS.InBody(taken, CS.TheReader) && FieldsOf(taken) == FieldsOf(c).(endErr := Some(err))
  {}

  // ---------------------------------------------------------------------
  // What a stream keeps
  // ---------------------------------------------------------------------

  // done() has run, or nothing it undoes is undone; the stats trace is Begin and,
  // after done(), one End.
  ghost predicate TornLawful(f: Fields) {
    && f.heartbeatOpen == f.subscribed == f.msgChOpen == Not(f.closed)
    && (f.closed.On? ==> f.live.Off?)
    && (if f.closed.On? then StatPhaseOf(f.stats).Closed? else StatPhaseOf(f.stats) == Opened)
  }

  // The Call goes first and only once.
  ghost predicate OutLawful(hasBegun: Flag, out: seq<Request>) {
    CS.CallLeads(out) && (hasBegun.Off? ==> CS.Unstarted(out))
  }

  lemma TornIsLawful(f: Fields)
    requires TornLawful(f)
    ensures TornLawful(Torn(f))
  {
    StatAppend(f.stats, StatEnd(f.endErr));
  }

  lemma PayloadIsLawful(f: Fields, e: StatEvent)
    requires TornLawful(f) && (e.InPayload? || e.OutPayload?)
    ensures TornLawful(f.(stats := f.stats + [e]))
  {
    StatAppend(f.stats, e);
  }

  lemma OutIsLawful(hasBegun: Flag, out: seq<Request>, r: Request)
    requires OutLawful(hasBegun, out)
    ensures r.Call? && hasBegun.Off? ==> OutLawful(On, out + [r])
    ensures r.Data? && hasBegun.On? ==> OutLawful(On, out + [r])
    ensures !r.Call? && !r.Data? ==> OutLawful(hasBegun, out + [r])
  {
    assert forall i :: 0 <= i < |out| ==> (out + [r])[i] == out[i];
  }

  // Why done() reports an error, and what SendMsg answers.
  datatype DoneError = AlreadyClosed | UnsubscribeFailed

  datatype SendAnswer = Sent | Refused | Unpublished

  // What gets through when the connection is up, and when it is not.
  function Through(r: Request, up: bool): seq<Request> { if up then [r] else [] }

  class ClientStream {
    const client: Client
    const reply: string
    const unsubscribes: Flag
    var live: Flag
    var closed: Flag
    var lastErr: Option<Error>
    var endErr: Option<Error>
    var msgChOpen: Flag
    var subscribed: Flag
    var heartbeatOpen: Flag
    var recv: seq<Payload>
    var recvOpen: Flag
    var stats: seq<StatEvent>
    var hasBegun: Flag
    ghost var out: seq<Request>

    function State(): Fields
      reads this
    {
      Fields(live, closed, lastErr, endErr, msgChOpen, subscribed, heartbeatOpen, recv, recvOpen, stats)
    }

    ghost predicate Valid()
      reads this
    {
      TornLawful(State()) && OutLawful(hasBegun, out)
    }

    // newClientStream: Begin is reported before the stream exists. `unsubscribes`
    // is whether sub.Unsubscribe will succeed.
    constructor (client: Client, reply: string, unsubscribes: Flag)
      ensures this.client == client && this.reply == reply && this.unsubscribes == unsubscribes
      ensures Valid() && State() == FieldsOf(CS.Init("")) && hasBegun.Off? && out == []
    {
      this.client := client;
      this.reply := reply;
      this.unsubscribes := unsubscribes;
      live, closed, lastErr, endErr := On, Off, None, None;
      msgChOpen, subscribed, heartbeatOpen := On, On, On;
      recv, recvOpen, stats, hasBegun, out := [], On, [StatBegin], Off, [];
      new;
      StatAppend([], StatBegin);
      assert [] + [StatBegin] == [StatBegin];
    }

    // What done() will answer.
    function Answer(): Option<DoneError>
      reads this`closed
    {
      if closed.On? then Some(AlreadyClosed) else if unsubscribes.On? then None else Some(UnsubscribeFailed)
    }

    // done: the first call tears the stream down; later calls only report that.
    method Done() returns (err: Option<DoneError>)
      requires Valid()
      modifies this, client`streams
      ensures Valid() && err == old(Answer())
      ensures State() == Torn(old(State())) && out == old(out) && hasBegun == old(hasBegun)
      ensures client.streams == if old(closed).Off? then old(client.streams) - {reply} else old(client.streams)
    {
      TornIsLawful(State());
      err := Answer();
      if closed.On? {
        return;
      }
      closed := On;
      stats := stats + [StatEnd(endErr)];
      live := Off;
      heartbeatOpen := Off;
      subscribed := Off;
      msgChOpen := Off;
      client.Remove(reply);
    }

    // A request goes out, unless the connection is down.
    method Publish(r: Request) returns (ok: bool)
      requires Valid() && !r.Call? && (r.Data? ==> hasBegun.On?)
      modifies this`out
      ensures Valid() && ok == client.up.On? && out == old(out) + Through(r, ok)
    {
      OutIsLawful(hasBegun, out, r);
      ok := client.up.On?;
      if ok { out := out + [r]; }
    }

    // close, as pongMonitor calls it: a failure to publish the End goes unnoticed.
    method Close(err: Error)
      requires Valid() && err.StatusError?
      modifies this, client`streams
      ensures Valid()
      ensures State() == Torn(old(State()).(endErr := Some(err)))
      ensures out == old(out) + Through(End(Some(err.status)), client.up.On?)
      ensures client.streams == if old(closed).Off? then old(client.streams) - {reply} else old(client.streams)
    {
      endErr := Some(err);
      var _ := Publish(End(Some(err.status)));
      var _ := Done();
    }

    method CloseSend() returns (ok: bool)
      requires Valid()
      modifies this`out
      ensures Valid() && ok == client.up.On? && out == old(out) + Through(CS.HALF_CLOSE, ok)
    {
      ok := Publish(CS.HALF_CLOSE);
    }

    // The Call, before the first Data; a failure to publish it goes unnoticed.
    method BeginMaybe(path: string)
      requires Valid()
      modifies this`hasBegun, this`out
      ensures Valid() && hasBegun.On?
      ensures out == old(out) + (if old(hasBegun).Off? then Through(Call(path), client.up.On?) else [])
    {
      if hasBegun.Off? {
        OutIsLawful(hasBegun, out, Call(path));
        hasBegun := On;
        if client.up.On? { out := out + [Call(path)]; }
      }
    }

    // SendMsg: refused once closed; the first one publishes the Call as well; the
    // error of the Data publication is returned.
    method SendMsg(path: string, p: Payload) returns (answer: SendAnswer)
      requires Valid()
      modifies this`hasBegun, this`out, this`stats
      ensures Valid()
      ensures answer == if old(closed).On? then Refused else if client.up.On? then Sent else Unpublished
      ensures answer.Refused? ==> stats == old(stats) && out == old(out) && hasBegun == old(hasBegun)
      ensures !answer.Refused? ==>
                && hasBegun.On? && stats == old(stats) + [OutPayload(|p|)]
                && out == old(out) + (if old(hasBegun).Off? then Through(Call(path), client.up.On?) else [])
                          + Through(Data(p), client.up.On?)
    {
      if closed.On? {
        return Refused;
      }
      BeginMaybe(path);
      PayloadIsLawful(State(), OutPayload(|p|));
      stats := stats + [OutPayload(|p|)];
      var ok := Publish(Data(p));
      answer := if ok then Sent else Unpublished;
    }

    // processData up to the blocking send.
    method ProcessData(p: Payload) returns (blocked: Option<Payload>)
      requires Valid()
      modifies this`stats
      ensures Valid() && State() == OnData(old(State()), p)
      ensures blocked == if recvOpen.On? then Some(p) else None
    {
      if recvOpen.Off? {
        return None;
      }
      PayloadIsLawful(State(), InPayload(|p|));
      stats := stats + [InPayload(|p|)];
      blocked := Some(p);
    }

    // processEnd: the error is for ReadMsg to record; either way the stream is done.
    method ProcessEnd(status: Option<Status>) returns (err: Option<Error>)
      requires Valid()
      modifies this, client`streams
      ensures Valid() && State() == OnEnd(old(State()), status)
      ensures err == if IsOk(status) then None else Some(StatusError(status.value))
      ensures client.streams == if old(closed).Off? then old(client.streams) - {reply} else old(client.streams)
    {
      if !IsOk(status) {
        err := Some(StatusError(status.value));
        endErr := err;
      } else {
        err := None;
        recvOpen := Off;
      }
      var _ := Done();
    }
  }

  /** What every method of a stream keeps, whatever the order of calls and whatever
      publication fails: the Call leads and goes out at most once; done() has undone
      everything or nothing; and the stats trace is Begin and, exactly after done(),
      one End. */
  lemma ValidStream(stream: ClientStream)
    requires stream.Valid()
    ensures forall i, j :: 0 <= i < j < |stream.out| && stream.out[j].Call? ==>
              !stream.out[i].Call? && !stream.out[i].Data?
    ensures stream.closed.On? <==> stream.subscribed.Off? && stream.msgChOpen.Off? && stream.heartbeatOpen.Off?
    ensures OrderlyTrace(stream.stats)
    ensures (exists k :: 0 <= k < |stream.stats| && stream.stats[k].StatEnd?) <==> stream.closed.On?
  {
    StatPhaseMeaning(stream.stats);
  }

  class Client {
    const up: Flag
    var live: Flag
    var streams: map<string, ClientStream>

    constructor (up: Flag)
      ensures this.up == up && live.On? && streams == map[]
    {
      this.up := up;
      live := On;
      streams := map[];
    }

    ghost predicate Valid()
      reads this, streams.Values
    {
      forall reply :: reply in streams ==>
        streams[reply].reply == reply && streams[reply].client == this && streams[reply].Valid()
    }

    method Remove(reply: string)
      modifies this`streams
      ensures streams == old(streams) - {reply}
    {
      streams := streams - {reply};
    }

    // streamOnSubject stores the stream under its reply, after it was started.
    method Register(stream: ClientStream)
      requires Valid() && stream.client == this && stream.Valid()
      modifies this`streams
      ensures Valid() && streams == old(streams)[stream.reply := stream]
    {
      streams := streams[stream.reply := stream];
    }

    // Close: done() on every stream of a snapshot, whatever order it is in; the first
    // error is returned.
    method Close() returns (err: Option<DoneError>)
      requires Valid()
      modifies this, streams.Values
      ensures live.Off? && Valid()
      ensures forall stream :: stream in old(streams.Values) ==>
                stream.State() == Torn(old(stream.State())) && stream.Valid()
      ensures forall reply :: reply in streams ==>
                reply in old(streams) && streams[reply] == old(streams)[reply] && old(streams[reply].closed).On?
      ensures err.None? <==> forall stream :: stream in old(streams.Values) ==> old(stream.Answer()).None?
      ensures err.Some? ==> exists stream :: stream in old(streams.Values) && old(stream.Answer()) == err
    {
      live := Off;
      err := DoneAll(streams.Values);
      assert forall reply :: reply in streams ==> streams[reply] in old(streams.Values);
    }

    method DoneAll(all: set<ClientStream>) returns (err: Option<DoneError>)
      requires forall stream :: stream in all ==> stream.client == this && stream.Valid()
      modifies this`streams, all
      ensures forall stream :: stream in all ==> Ended(stream)
      ensures forall r :: r in streams ==> r in old(streams) && streams[r] == old(streams)[r]
      ensures forall stream :: stream in all && old(stream.closed).Off? ==> stream.reply !in streams
      ensures err.None? <==> forall stream :: stream in all ==> old(stream.Answer()).None?
      ensures err.Some? ==> exists stream :: stream in all && old(stream.Answer()) == err
    {
      err := None;
      var left := all;
      while left != {}
        invariant left <= all
        invariant forall stream :: stream in left ==> unchanged(stream)
        invariant forall stream :: stream in all - left ==> Ended(stream)
        invariant forall r :: r in streams ==> r in old(streams) && streams[r] == old(streams)[r]
        invariant forall stream :: stream in all - left && old(stream.closed).Off? ==> stream.reply !in streams
        invariant err.None? <==> forall stream :: stream in all - left ==> old(stream.Answer()).None?
        invariant err.Some? ==> exists stream :: stream in all - left && old(stream.Answer()) == err
      {
        var stream :| stream in left;
        var failure := stream.Done();
        if err.None? {
          err := failure;
        }
        left := left - {stream};
      }
    }

    // The stream is as done() leaves it.
    static twostate predicate Ended(stream: ClientStream)
      reads stream
    {
      stream.State() == Torn(old(stream.State())) && stream.Valid()
    }
  }
}
