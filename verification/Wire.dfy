// The nrpc wire vocabulary (protos/nrpc/nrpc.proto) and the gRPC values it
// carries: metadata, statuses, errors and stats events.
module Wire {

  datatype Option<+T> = None | Some(value: T)

  // A flag kept in the state of a record or an object. What a condition says and a call
  // answers is a bool.
  datatype Flag = Off | On

  function Not(f: Flag): Flag { if f.On? then Off else On }

  newtype byte = b: int | 0 <= b < 256

  type Payload = seq<byte>

  // metadata.MD: every key holds a list of values.
  type MD = map<string, seq<string>>

  datatype Status = Status(code: nat, message: string)

  const CODE_OK: nat := 0
  const CODE_CANCELED: nat := 1
  const CODE_UNKNOWN: nat := 2
  const CODE_INVALID_ARGUMENT: nat := 3
  const CODE_DEADLINE_EXCEEDED: nat := 4
  const CODE_UNIMPLEMENTED: nat := 12
  const CODE_INTERNAL: nat := 13
  const CODE_UNAVAILABLE: nat := 14

  // A Go error value; `nil` is `None` of `Option<Error>`. A status error never
  // carries code OK: status.Error(OK, ..) is nil.
  datatype Error =
    | StatusError(status: Status)
    | PlainError(text: string)

  predicate WellFormedError(e: Option<Error>) {
    e.Some? && e.value.StatusError? ==> e.value.status.code != CODE_OK
  }

  // What the peer is told of an error: a status error's own code and message, or code 2
  // and the text of any other.
  predicate Carries(s: Status, e: Error) {
    match e
    case StatusError(t) => s.code == t.code && s.message == t.message
    case PlainError(text) => s.code == 2 && s.message == text
  }

  // status.Convert: nil is OK, a status error is itself, anything else Unknown.
  function Convert(e: Option<Error>): (s: Status)
    requires WellFormedError(e)
    ensures s.code == CODE_OK <==> e.None?
    ensures e.None? ==> s.code == 0 && s.message == ""
    ensures e.Some? ==> Carries(s, e.value)
  {
    match e
    case None => Status(CODE_OK, "")
    case Some(StatusError(s)) => s
    case Some(PlainError(text)) => Status(CODE_UNKNOWN, text)
  }

  // status.Convert(err).Proto(): nil, which has no status at all, for a nil error.
  function StatusProto(e: Option<Error>): (s: Option<Status>)
    requires WellFormedError(e)
    ensures IsOk(s) <==> e.None?
    ensures s.Some? ==> e.Some? && s.value == Convert(e)
  {
    if e.None? then None else Some(Convert(e))
  }

  // Requests travel from the client to the server of a stream. `Unknown` is a
  // frame that does not parse, or a unary request no unary handler claims.
  datatype Request =
    | Call(path: string)
    | Data(payload: Payload)
    | End(status: Option<Status>)
    | Ping(timestamp: int)
    | Unknown

  // Responses travel back on the reply inbox of the stream.
  datatype Response =
    | Begin(header: Option<MD>, nid: string)
    | Reply(payload: Payload)
    | Finish(status: Option<Status>, trailer: Option<MD>)
    | Pong(timestamp: int)
    | Garbled

  predicate IsOk(status: Option<Status>) {
    status.None? || status.value.code == CODE_OK
  }

  datatype StatEvent =
    | StatBegin
    | InPayload(length: nat)
    | OutPayload(length: nat)
    | StatEnd(error: Option<Error>)

  /** The values a key holds; a missing key holds none. */
  function Values(md: MD, key: string): seq<string> {
    if key in md then md[key] else []
  }

  // metadata.Join: per-key concatenation.
  function Join(a: MD, b: MD): (r: MD)
    ensures r.Keys == a.Keys + b.Keys
    ensures forall k {:trigger Values(r, k)} :: Values(r, k) == Values(a, k) + Values(b, k)
  {
    map k | k in a.Keys + b.Keys :: Values(a, k) + Values(b, k)
  }

  // utils.MakeMetadata: nil and empty metadata both travel as "no metadata".
  function MakeMetadata(md: Option<MD>): (r: Option<MD>)
    ensures r.Some? ==> md == r && r.value != map[]
    ensures r.None? <==> md.None? || md.value == map[]
  {
    if md.None? || |md.value| == 0 then None else md
  }

  // ---------------------------------------------------------------------
  // Stats traces
  // ---------------------------------------------------------------------

  // What a monitor has seen of a stats trace: nothing, Begin, Begin and End, or
  // a trace no stats handler should see.
  datatype StatPhase = Silent | Opened | Closed(error: Option<Error>) | Misordered

  function StatAdvance(p: StatPhase, e: StatEvent): StatPhase {
    match e
    case StatBegin => if p.Silent? then Opened else Misordered
    case InPayload(_) => if p.Silent? then Misordered else p
    case OutPayload(_) => if p.Silent? then Misordered else p
    case StatEnd(err) => if p.Opened? then Closed(err) else Misordered
  }

  function StatPhaseOf(t: seq<StatEvent>): StatPhase {
    if t == [] then Silent else StatAdvance(StatPhaseOf(t[..|t| - 1]), t[|t| - 1])
  }

  lemma StatAppend(t: seq<StatEvent>, e: StatEvent)
    ensures StatPhaseOf(t + [e]) == StatAdvance(StatPhaseOf(t), e)
  {
    assert (t + [e])[..|t|] == t;
  }

  // Begin comes first and only once; at most one End.
  ghost predicate OrderlyTrace(t: seq<StatEvent>) {
    && (forall i :: 0 <= i < |t| ==> (t[i].StatBegin? <==> i == 0))
    && (forall i, j :: 0 <= i < |t| && 0 <= j < |t| && t[i].StatEnd? && t[j].StatEnd? ==> i == j)
  }

  // The monitor accepts exactly the orderly traces, and remembers their End.
  lemma {:induction false} StatPhaseMeaning(t: seq<StatEvent>)
    ensures StatPhaseOf(t) != Misordered <==> OrderlyTrace(t)
    ensures StatPhaseOf(t) == Silent <==> t == []
    ensures StatPhaseOf(t) == Opened ==> forall i :: 0 <= i < |t| ==> !t[i].StatEnd?
    ensures StatPhaseOf(t).Closed? ==> exists i :: 0 <= i < |t| && t[i] == StatEnd(StatPhaseOf(t).error)
  {
    if t != [] {
      var front, last := t[..|t| - 1], t[|t| - 1];
      StatPhaseMeaning(front);
      assert forall i :: 0 <= i < |front| ==> t[i] == front[i];
      if OrderlyTrace(t) {
        assert forall i :: 0 <= i < |front| ==> (front[i].StatBegin? <==> i == 0);
        assert OrderlyTrace(front);
      }
      if StatPhaseOf(front).Closed? {
        var i :| 0 <= i < |front| && front[i] == StatEnd(StatPhaseOf(front).error);
        assert t[i] == StatEnd(StatPhaseOf(front).error);
      }
    }
  }

  // The lengths the stats handler was told of.
  function InLengths(stats: seq<StatEvent>): seq<nat> {
    if stats == [] then []
    else
      var last := stats[|stats| - 1];
      InLengths(stats[..|stats| - 1]) + (if last.InPayload? then [last.length] else [])
  }

  function OutLengths(stats: seq<StatEvent>): seq<nat> {
    if stats == [] then []
    else
      var last := stats[|stats| - 1];
      OutLengths(stats[..|stats| - 1]) + (if last.OutPayload? then [last.length] else [])
  }

  lemma LengthsAppend(stats: seq<StatEvent>, e: StatEvent)
    ensures InLengths(stats + [e]) == InLengths(stats) + (if e.InPayload? then [e.length] else [])
    ensures OutLengths(stats + [e]) == OutLengths(stats) + (if e.OutPayload? then [e.length] else [])
  {
    assert (stats + [e])[..|stats|] == stats;
  }

  function Lengths(ps: seq<Payload>): seq<nat> { seq(|ps|, i requires 0 <= i < |ps| => |ps[i]|) }

  lemma LengthsMore(ps: seq<Payload>, p: Payload)
    ensures Lengths(ps + [p]) == Lengths(ps) + [|p|]
  {}

  // ---------------------------------------------------------------------
  // Response streams: Begin Data* End once Pongs are erased
  // ---------------------------------------------------------------------

  datatype Phase = Fresh | Begun | Ended | Broken

  // What a monitor has seen of the responses on a reply inbox: their place in
  // the grammar Begin Data* End, how many End frames, whether an End with OK
  // status, and whether anything but Pongs followed one.
  datatype Digest = Digest(phase: Phase, finishes: nat, okFinish: Flag, overrun: Flag)

  const NOTHING_SEEN := Digest(Fresh, 0, Off, Off)

  function Advance(d: Digest, r: Response): Digest {
    match r
    case Pong(_) => d
    case Begin(_, _) => Digest(if d.phase.Fresh? then Begun else Broken, d.finishes, d.okFinish, Later(d))
    case Reply(_) => Digest(if d.phase.Begun? then Begun else Broken, d.finishes, d.okFinish, Later(d))
    case Finish(status, _) =>
      Digest(if d.phase.Begun? then Ended else Broken, d.finishes + 1,
             if IsOk(status) then On else d.okFinish, Later(d))
    case Garbled => Digest(Broken, d.finishes, d.okFinish, Later(d))
  }

  function Later(d: Digest): Flag { if d.okFinish.On? then On else d.overrun }

  function DigestOf(out: seq<Response>): Digest {
    if out == [] then NOTHING_SEEN
    else Advance(DigestOf(out[..|out| - 1]), out[|out| - 1])
  }

  lemma DigestAppend(out: seq<Response>, r: Response)
    ensures DigestOf(out + [r]) == Advance(DigestOf(out), r)
  {
    assert (out + [r])[..|out|] == out;
  }

  /** The publications with every Pong erased. */
  function ErasePongs(out: seq<Response>): seq<Response> {
    if out == [] then []
    else
      var rest := ErasePongs(out[..|out| - 1]);
      if out[|out| - 1].Pong? then rest else rest + [out[|out| - 1]]
  }

  lemma ErasePongsAppend(out: seq<Response>, r: Response)
    ensures ErasePongs(out + [r]) == ErasePongs(out) + (if r.Pong? then [] else [r])
  {
    assert (out + [r])[..|out|] == out;
  }

  // A sequence is a prefix of Begin Data* End.
  predicate Grammar(out: seq<Response>) {
    && (|out| > 0 ==> out[0].Begin?)
    && (forall i :: 0 < i < |out| ==> out[i].Reply? || (out[i].Finish? && i == |out| - 1))
  }

  // The monitor accepts exactly the prefixes of Begin Data* End.
  lemma {:induction false} DigestIsGrammar(out: seq<Response>)
    ensures DigestOf(out).phase != Broken <==> Grammar(ErasePongs(out))
    ensures DigestOf(out).phase == Fresh <==> ErasePongs(out) == []
    ensures DigestOf(out).phase == Ended ==>
              |ErasePongs(out)| >= 2 && ErasePongs(out)[|ErasePongs(out)| - 1].Finish?
    ensures DigestOf(out).phase == Begun ==>
              |ErasePongs(out)| >= 1 && !ErasePongs(out)[|ErasePongs(out)| - 1].Finish?
  {
    if out != [] {
      var front, last := out[..|out| - 1], out[|out| - 1];
      DigestIsGrammar(front);
      var f := ErasePongs(front);
      var e := ErasePongs(out);
      if !last.Pong? {
        assert e[|f|] == last;
        assert forall i :: 0 <= i < |f| ==> e[i] == f[i];
        if Grammar(e) {
          assert forall i :: 0 < i < |f| ==> f[i].Reply?;
        }
      }
    }
  }

  // Nothing but Pongs follows an End with OK status.
  predicate OkFinishIsLast(out: seq<Response>) {
    forall i, j :: 0 <= i < j < |out| && out[i].Finish? && IsOk(out[i].status) ==> out[j].Pong?
  }

  lemma {:induction false} DigestIsOrder(out: seq<Response>)
    ensures DigestOf(out).overrun == Off <==> OkFinishIsLast(out)
    ensures DigestOf(out).okFinish == On <==> exists i :: 0 <= i < |out| && out[i].Finish? && IsOk(out[i].status)
    ensures DigestOf(out).finishes <= 1 ==>
              forall i, j :: 0 <= i < j < |out| ==> !(out[i].Finish? && out[j].Finish?)
    ensures DigestOf(out).finishes == 0 ==> forall i :: 0 <= i < |out| ==> !out[i].Finish?
  {
    if out != [] {
      var front, last := out[..|out| - 1], out[|out| - 1];
      DigestIsOrder(front);
      assert forall i :: 0 <= i < |front| ==> out[i] == front[i];
      if exists i :: 0 <= i < |front| && front[i].Finish? && IsOk(front[i].status) {
        var i :| 0 <= i < |front| && front[i].Finish? && IsOk(front[i].status);
        assert out[i].Finish? && IsOk(out[i].status);
      }
      if OkFinishIsLast(out) {
        assert OkFinishIsLast(front);
      }
    }
  }

  // The payloads of a response stream.
  function Payloads(out: seq<Response>): seq<Payload> {
    if out == [] then []
    else
      var rest := Payloads(out[..|out| - 1]);
      if out[|out| - 1].Reply? then rest + [out[|out| - 1].payload] else rest
  }

  lemma PayloadsAppend(out: seq<Response>, r: Response)
    ensures Payloads(out + [r]) == Payloads(out) + (if r.Reply? then [r.payload] else [])
  {
    assert (out + [r])[..|out|] == out;
  }

  lemma {:induction false} PayloadsConcat(a: seq<Response>, b: seq<Response>)
    ensures Payloads(a + b) == Payloads(a) + Payloads(b)
  {
    if b == [] {
      assert a + b == a;
    } else {
      var front, last := b[..|b| - 1], b[|b| - 1];
      PayloadsConcat(a, front);
      assert a + b == (a + front) + [last];
      PayloadsAppend(a + front, last);
    }
  }

  // The payloads published before the first End with OK status.
  function PayloadsBeforeEnd(out: seq<Response>): seq<Payload> {
    if out == [] then []
    else
      var front, last := out[..|out| - 1], out[|out| - 1];
      if last.Reply? && Completed(front).Off? then PayloadsBeforeEnd(front) + [last.payload]
      else PayloadsBeforeEnd(front)
  }

  function Completed(out: seq<Response>): Flag {
    if out == [] then Off
    else if out[|out| - 1].Finish? && IsOk(out[|out| - 1].status) then On
    else Completed(out[..|out| - 1])
  }

  lemma CompletedAppend(out: seq<Response>, r: Response)
    ensures Completed(out + [r]) == if r.Finish? && IsOk(r.status) then On else Completed(out)
    ensures PayloadsBeforeEnd(out + [r]) ==
            PayloadsBeforeEnd(out) + (if r.Reply? && Completed(out).Off? then [r.payload] else [])
  {
    assert (out + [r])[..|out|] == out;
  }

  // When nothing but Pongs follows an OK End, no payload does.
  lemma {:induction false} OrderedMeansAllBefore(out: seq<Response>)
    requires OkFinishIsLast(out)
    ensures PayloadsBeforeEnd(out) == Payloads(out)
    ensures Completed(out).On? ==> exists i :: 0 <= i < |out| && out[i].Finish? && IsOk(out[i].status)
  {
    if out != [] {
      var front, last := out[..|out| - 1], out[|out| - 1];
      assert forall i :: 0 <= i < |front| ==> front[i] == out[i];
      OrderedMeansAllBefore(front);
      if Completed(front).On? {
        var i :| 0 <= i < |front| && front[i].Finish? && IsOk(front[i].status);
        assert out[i].Finish? && IsOk(out[i].status);
      }
      if last.Finish? && IsOk(last.status) {
        assert out[|out| - 1].Finish?;
      }
    }
  }

  // The payloads of a request stream.
  function Sent(reqs: seq<Request>): seq<Payload> {
    if reqs == [] then []
    else
      var rest := Sent(reqs[..|reqs| - 1]);
      if reqs[|reqs| - 1].Data? then rest + [reqs[|reqs| - 1].payload] else rest
  }

  lemma SentAppend(reqs: seq<Request>, r: Request)
    ensures Sent(reqs + [r]) == Sent(reqs) + (if r.Data? then [r.payload] else [])
  {
    assert (reqs + [r])[..|reqs|] == reqs;
  }

  lemma {:induction false} SentConcat(a: seq<Request>, b: seq<Request>)
    ensures Sent(a + b) == Sent(a) + Sent(b)
  {
    if b == [] {
      assert a + b == a;
    } else {
      var front, last := b[..|b| - 1], b[|b| - 1];
      SentConcat(a, front);
      assert a + b == (a + front) + [last];
      SentAppend(a + front, last);
    }
  }

  // The payloads sent before the first half-close (an End with OK status).
  function SentBeforeEnd(reqs: seq<Request>): seq<Payload> {
    if reqs == [] then []
    else
      var front, last := reqs[..|reqs| - 1], reqs[|reqs| - 1];
      if last.Data? && HalfClosed(front).Off? then SentBeforeEnd(front) + [last.payload]
      else SentBeforeEnd(front)
  }

  function HalfClosed(reqs: seq<Request>): Flag {
    if reqs == [] then Off
    else if reqs[|reqs| - 1].End? && IsOk(reqs[|reqs| - 1].status) then On
    else HalfClosed(reqs[..|reqs| - 1])
  }

  lemma HalfClosedAppend(rs: seq<Request>, r: Request)
    ensures HalfClosed(rs + [r]) == if r.End? && IsOk(r.status) then On else HalfClosed(rs)
    ensures SentBeforeEnd(rs + [r]) ==
            SentBeforeEnd(rs) + (if r.Data? && HalfClosed(rs).Off? then [r.payload] else [])
  {
    assert (rs + [r])[..|rs|] == rs;
  }

  // -----------------------------------------------------------------------
  // Heartbeats
  // -----------------------------------------------------------------------

  // The timestamps of Pongs, and of Pings.
  function Pongs(out: seq<Response>): seq<int> {
    if out == [] then []
    else Pongs(out[..|out| - 1]) + (if out[|out| - 1].Pong? then [out[|out| - 1].timestamp] else [])
  }

  function Pings(reqs: seq<Request>): seq<int> {
    if reqs == [] then []
    else Pings(reqs[..|reqs| - 1]) + (if reqs[|reqs| - 1].Ping? then [reqs[|reqs| - 1].timestamp] else [])
  }

  lemma PongsAppend(out: seq<Response>, r: Response)
    ensures Pongs(out + [r]) == Pongs(out) + (if r.Pong? then [r.timestamp] else [])
  {
    assert (out + [r])[..|out|] == out;
  }

  lemma PingsAppend(reqs: seq<Request>, r: Request)
    ensures Pings(reqs + [r]) == Pings(reqs) + (if r.Ping? then [r.timestamp] else [])
  {
    assert (reqs + [r])[..|reqs|] == reqs;
  }

  // -----------------------------------------------------------------------
  // Subsequences
  // -----------------------------------------------------------------------

  // a is obtained from b by deleting elements.
  predicate Subsequence<T(==)>(a: seq<T>, b: seq<T>)
    decreases |b|
  {
    if a == [] then true
    else if b == [] then false
    else
      || (a[|a| - 1] == b[|b| - 1] && Subsequence(a[..|a| - 1], b[..|b| - 1]))
      || Subsequence(a, b[..|b| - 1])
  }
}
