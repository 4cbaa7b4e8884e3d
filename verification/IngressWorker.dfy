// streamWorker.run of the sidecar (pkg/sidecar/ingress.go): the select loop over
// the caller's frames and the pump that relays the upstream's messages, two
// goroutines that publish on the same reply.
module IngressWorkers {
  import opened Wire

  const FRAMES_CAPACITY: nat := 64

  // How upstream.RecvMsg fails for good: io.EOF, or a status.
  datatype UpstreamEnd = UpstreamEof | UpstreamError(error: Error)

  // normalizeStreamErr: io.EOF is success.
  function Normalize(e: UpstreamEnd): Option<Error> {
    if e.UpstreamEof? then None else Some(e.error)
  }

  datatype Pump = Receiving | Relaying(payload: Payload) | PumpDone

  // The main loop: at its select; answering a Ping; waiting for the upstream to
  // drain after the caller's End; about to publish End; returned.
  datatype Main =
    | Selecting
    | WritingPong(timestamp: int)
    | Draining
    | WritingEnd(outcome: UpstreamEnd)
    | Returned

  // `upDone` is the one-element channel the pump posts its outcome on. Histories:
  // taken  frames the loop took; relayed  messages the pump received, `outcome`
  // how the upstream ended; forwarded, halfClosed  what the upstream was sent;
  // out  what was published on the reply, `lost` if a publication failed.
  datatype Worker = Worker(
    cancelled: Flag,
    frames: seq<Request>,
    pump: Pump,
    main: Main,
    upDone: Option<UpstreamEnd>,
    taken: seq<Request>,
    relayed: seq<Payload>,
    outcome: Option<UpstreamEnd>,
    forwarded: seq<Payload>,
    halfClosed: nat,
    out: seq<Response>,
    lost: Flag)

  // ensureStreamWorker has just published Begin, or failed to, and started run().
  function Init(nid: string, ok: Flag): Worker {
    Publish(Worker(Off, [], Receiving, Selecting, None, [], [], None, [], 0, [], Off), Begin(None, nid), ok)
  }

  datatype Event =
    | Frame(request: Request)
    | Cancel
    | Upstream(message: Payload)
    | UpstreamEnds(end: UpstreamEnd)
    | PumpPublish(ok: Flag)
    | TakeFrame
    | TakeOutcome
    | ReturnCancelled
    | MainPublish(ok: Flag)

  function Publish(w: Worker, r: Response, ok: Flag): Worker {
    if ok.On? then w.(out := w.out + [r]) else w.(lost := On)
  }

  function EndFrame(e: UpstreamEnd): Response
    requires WellFormedError(Normalize(e))
  {
    Finish(Some(Convert(Normalize(e))), None)
  }

  // The loop on the frame it has just taken.
  function OnFrame(w: Worker, r: Request): Worker {
    match r
    case Data(p) => w.(forwarded := w.forwarded + [p])
    case End(_) => w.(halfClosed := w.halfClosed + 1, main := Draining)
    case Ping(ts) => w.(main := WritingPong(ts))
    case Call(_) => w
    case Unknown => w
  }

  function Step(w: Worker, e: Event): Worker {
    match e
    case Frame(r) => if |w.frames| < FRAMES_CAPACITY then w.(frames := w.frames + [r]) else w
    case Cancel => w.(cancelled := On)
    case Upstream(p) =>
      if w.pump.Receiving? then w.(pump := Relaying(p), relayed := w.relayed + [p]) else w
    case UpstreamEnds(end) =>
      if w.pump.Receiving? && WellFormedError(Normalize(end)) then
        w.(pump := PumpDone, upDone := Some(end), outcome := Some(end))
      else w
    case PumpPublish(ok) =>
      if w.pump.Relaying? then Publish(w, Reply(w.pump.payload), ok).(pump := Receiving) else w
    case TakeFrame =>
      if w.main.Selecting? && w.frames != [] then
        OnFrame(w.(frames := w.frames[1..], taken := w.taken + [w.frames[0]]), w.frames[0])
      else w
    case TakeOutcome =>
      if (w.main.Selecting? || w.main.Draining?) && w.upDone.Some? then
        w.(main := WritingEnd(w.upDone.value), upDone := None)
      else w
    case ReturnCancelled => if w.main.Selecting? && w.cancelled.On? then w.(main := Returned) else w
    case MainPublish(ok) =>
      (match w.main
       case WritingPong(ts) => Publish(w, Pong(ts), ok).(main := Selecting)
       case WritingEnd(outcome) =>
         if WellFormedError(Normalize(outcome)) then Publish(w, EndFrame(outcome), ok).(main := Returned) else w
       case _ => w)
  }

  function Run(w: Worker, events: seq<Event>): Worker {
    if events == [] then w else Step(Run(w, events[..|events| - 1]), events[|events| - 1])
  }

  function Pending(p: Pump): seq<Payload> { if p.Relaying? then [p.payload] else [] }

  // What the status of the worker's End says about the upstream: OK for io.EOF, its
  // status, or Unknown and the text of any other error.
  predicate Reads(status: Option<Status>, end: UpstreamEnd) {
    match end
    case UpstreamEof => status.Some? && status.value.code == 0
    case UpstreamError(StatusError(s)) => s.code != 0 && status == Some(Status(s.code, s.message))
    case UpstreamError(PlainError(text)) => status == Some(Status(2, text))
  }

  ghost predicate Inv(w: Worker) { OutputInv(w, DigestOf(w.out)) && InputInv(w) }

  ghost predicate OutputInv(w: Worker, d: Digest) {
    // the pump relays in order, and posts its outcome when everything is relayed
    && (w.lost.Off? ==> Payloads(w.out) + Pending(w.pump) == w.relayed)
    && (w.pump.PumpDone? <==> w.outcome.Some?)
    && (w.upDone.Some? ==> w.outcome == w.upDone)
    && (w.outcome.Some? ==> WellFormedError(Normalize(w.outcome.value)))
    // the loop publishes End only with the pump's outcome in hand, and then returns
    && (w.main.WritingEnd? ==> w.outcome == Some(w.main.outcome) && w.upDone.None?)
    && (w.lost.Off? ==> d.phase == (if d.finishes > 0 then Ended else Begun))
    && d.finishes <= 1
    && (d.finishes > 0 ==> w.main.Returned? && w.outcome.Some? && w.out != [] && w.out[|w.out| - 1].Finish?)
    && (d.finishes > 0 ==> Reads(w.out[|w.out| - 1].status, w.outcome.value))
    && (w.main.Returned? && w.lost.Off? && w.cancelled.Off? ==> d.finishes > 0)
    && (d.okFinish.On? ==> d.finishes > 0 && w.outcome == Some(UpstreamEof))
    && d.overrun.Off?
  }

  ghost predicate InputInv(w: Worker) {
    // the caller's payloads go upstream in order, and the half-close after them
    && w.forwarded == Sent(w.taken)
    && w.halfClosed == (if SawEnd(w.taken) then 1 else 0)
    && (w.main.Selecting? || w.main.WritingPong? ==> !SawEnd(w.taken))
    && OnlyLastEnds(w.taken)
  }

  ghost predicate OnlyLastEnds(rs: seq<Request>) { forall i :: 0 <= i < |rs| - 1 ==> !rs[i].End? }

  predicate SawEnd(rs: seq<Request>) { rs != [] && rs[|rs| - 1].End? }

  lemma InitInv(nid: string, ok: Flag)
    ensures Inv(Init(nid, ok))
  {
    DigestAppend([], Begin(None, nid));
    PayloadsAppend([], Begin(None, nid));
    assert [] + [Response.Begin(None, nid)] == [Response.Begin(None, nid)];
  }

  // What monitors make of the worker's output when r goes out, or not.
  function Seen(d: Digest, r: Response, ok: Flag): Digest { if ok.On? then Advance(d, r) else d }

  lemma PumpKeepsOutput(w: Worker, ok: Flag, d: Digest)
    requires OutputInv(w, d) && w.pump.Relaying?
    ensures OutputInv(Step(w, PumpPublish(ok)), Seen(d, Reply(w.pump.payload), ok))
  {
    PayloadsAppend(w.out, Reply(w.pump.payload));
  }

  lemma PongKeepsOutput(w: Worker, ok: Flag, d: Digest)
    requires OutputInv(w, d) && w.main.WritingPong?
    ensures OutputInv(Step(w, MainPublish(ok)), Seen(d, Pong(w.main.timestamp), ok))
  {
    PayloadsAppend(w.out, Pong(w.main.timestamp));
  }

  lemma EndKeepsOutput(w: Worker, ok: Flag, d: Digest)
    requires OutputInv(w, d) && w.main.WritingEnd? && WellFormedError(Normalize(w.main.outcome))
    ensures OutputInv(Step(w, MainPublish(ok)), Seen(d, EndFrame(w.main.outcome), ok))
  {
    PayloadsAppend(w.out, EndFrame(w.main.outcome));
  }

  // The caller's side is not touched by a publication.
  lemma PublishKeepsInput(w: Worker, e: Event)
    requires InputInv(w) && (e.PumpPublish? || e.MainPublish?)
    ensures InputInv(Step(w, e))
  {
    if e.MainPublish? && w.main.WritingPong? {} else {}
  }

  lemma PumpKeeps(w: Worker, ok: Flag)
    requires Inv(w) && w.pump.Relaying?
    ensures Inv(Step(w, PumpPublish(ok)))
  {
    DigestAppend(w.out, Reply(w.pump.payload));
    PumpKeepsOutput(w, ok, DigestOf(w.out));
    PublishKeepsInput(w, PumpPublish(ok));
  }

  lemma MainKeeps(w: Worker, ok: Flag)
    requires Inv(w) && (w.main.WritingPong? || w.main.WritingEnd?)
    ensures Inv(Step(w, MainPublish(ok)))
  {
    PublishKeepsInput(w, MainPublish(ok));
    if w.main.WritingPong? {
      DigestAppend(w.out, Pong(w.main.timestamp));
      PongKeepsOutput(w, ok, DigestOf(w.out));
    } else {
      DigestAppend(w.out, EndFrame(w.main.outcome));
      EndKeepsOutput(w, ok, DigestOf(w.out));
    }
  }

  lemma TakeKeepsOutput(w: Worker, d: Digest)
    requires OutputInv(w, d) && w.main.Selecting? && w.frames != []
    ensures OutputInv(Step(w, TakeFrame), d) && Step(w, TakeFrame).out == w.out
  {
    match w.frames[0]
    case Data(p) =>
    case End(_) =>
    case Ping(_) =>
    case _ =>
  }

  lemma TakeKeepsInput(w: Worker)
    requires InputInv(w) && w.main.Selecting? && w.frames != []
    ensures InputInv(Step(w, TakeFrame))
  {
    SentAppend(w.taken, w.frames[0]);
    assert forall i :: 0 <= i < |w.taken| ==> (w.taken + [w.frames[0]])[i] == w.taken[i];
    match w.frames[0]
    case Data(p) =>
    case End(_) =>
    case Ping(_) =>
    case _ =>
  }

  lemma TakeKeeps(w: Worker)
    requires Inv(w) && w.main.Selecting? && w.frames != []
    ensures Inv(Step(w, TakeFrame))
  {
    TakeKeepsOutput(w, DigestOf(w.out));
    TakeKeepsInput(w);
  }

  lemma OtherKeeps(w: Worker, e: Event)
    requires Inv(w) && !e.PumpPublish? && !e.MainPublish? && !e.TakeFrame?
    ensures Inv(Step(w, e))
  {
    match e
    case Frame(_) =>
    case Upstream(_) =>
    case UpstreamEnds(_) =>
    case TakeOutcome =>
    case _ =>
  }

  lemma {:induction false} RunKeeps(nid: string, ok: Flag, events: seq<Event>)
    ensures Inv(Run(Init(nid, ok), events))
  {
    if events == [] {
      InitInv(nid, ok);
    } else {
      var front, e := events[..|events| - 1], events[|events| - 1];
      RunKeeps(nid, ok, front);
      var w := Run(Init(nid, ok), front);
      if e.PumpPublish? {
        if w.pump.Relaying? { PumpKeeps(w, e.ok); }
      } else if e.MainPublish? {
        if w.main.WritingPong? || w.main.WritingEnd? { MainKeeps(w, e.ok); }
      } else if e.TakeFrame? {
        if w.main.Selecting? && w.frames != [] { TakeKeeps(w); }
      } else {
        OtherKeeps(w, e);
      }
    }
  }

  // What happened to a worker, read off its events: the frames handed to it, the
  // upstream's messages, how the upstream ended, and whether it was cancelled.
  datatype Story = Story(frames: seq<Request>, messages: seq<Payload>, end: Option<UpstreamEnd>, cancelled: Flag)

  function Told(t: Story, w: Worker, e: Event): Story {
    match e
    case Frame(r) => if |w.frames| < FRAMES_CAPACITY then t.(frames := t.frames + [r]) else t
    case Upstream(p) => if w.pump.Receiving? then t.(messages := t.messages + [p]) else t
    case UpstreamEnds(end) =>
      if w.pump.Receiving? && WellFormedError(if end.UpstreamError? then Some(end.error) else None)
      then t.(end := Some(end)) else t
    case Cancel => t.(cancelled := On)
    case _ => t
  }

  function StoryOf(nid: string, ok: Flag, events: seq<Event>): Story {
    if events == [] then Story([], [], None, Off)
    else
      var front := events[..|events| - 1];
      Told(StoryOf(nid, ok, front), Run(Init(nid, ok), front), events[|events| - 1])
  }

  // Every publication succeeds.
  ghost predicate AllPublished(events: seq<Event>) {
    forall k :: 0 <= k < |events| ==> events[k] != PumpPublish(Off) && events[k] != MainPublish(Off)
  }

  predicate Tells(t: Story, w: Worker) {
    w.relayed == t.messages && w.outcome == t.end && w.taken + w.frames == t.frames && w.cancelled == t.cancelled
  }

  lemma StepTells(w: Worker, e: Event, t: Story)
    requires Tells(t, w)
    ensures Tells(Told(t, w, e), Step(w, e))
    ensures w.lost.Off? && e != PumpPublish(Off) && e != MainPublish(Off) ==> Step(w, e).lost.Off?
  {
    match e
    case TakeFrame =>
      if w.frames != [] {
        assert (w.taken + [w.frames[0]]) + w.frames[1..] == w.taken + w.frames;
        match w.frames[0]
        case Data(_) =>
        case End(_) =>
        case Ping(_) =>
        case _ =>
      }
    case Frame(r) => assert w.taken + (w.frames + [r]) == (w.taken + w.frames) + [r];
    case MainPublish(_) =>
    case _ =>
  }

  lemma {:induction false} StoryHolds(nid: string, ok: Flag, events: seq<Event>)
    ensures Tells(StoryOf(nid, ok, events), Run(Init(nid, ok), events))
    ensures ok.On? && AllPublished(events) ==> Run(Init(nid, ok), events).lost.Off?
  {
    if events != [] {
      var front, last := events[..|events| - 1], events[|events| - 1];
      StoryHolds(nid, ok, front);
      StepTells(Run(Init(nid, ok), front), last, StoryOf(nid, ok, front));
      assert forall k :: 0 <= k < |front| ==> front[k] == events[k];
    }
  }

  /** What a worker publishes on its reply, in every interleaving of the caller's
      frames, the upstream's messages and teardown: while publications succeed, a
      prefix of Begin Data* End, Pongs aside, whose payloads are the upstream's
      messages in order, at most one of them still to be published. */
  lemma WorkerOutput(nid: string, ok: Flag, events: seq<Event>)
    ensures var w, t := Run(Init(nid, ok), events), StoryOf(nid, ok, events);
            && (ok.On? && AllPublished(events) ==> w.lost.Off?)
            && (w.lost.Off? ==>
                  && Grammar(ErasePongs(w.out))
                  && Payloads(w.out) + Pending(w.pump) == t.messages)
  {
    RunKeeps(nid, ok, events);
    StoryHolds(nid, ok, events);
    DigestIsGrammar(Run(Init(nid, ok), events).out);
  }

  /** Whatever is lost, at most one End is published and it is the last
      publication, Pongs included; its status is OK exactly when the upstream ended
      with io.EOF, and otherwise the upstream's; and, while publications succeed, every
      message of the upstream was published before it. */
  lemma EndIsLast(nid: string, ok: Flag, events: seq<Event>, k: nat)
    requires k < |Run(Init(nid, ok), events).out| && Run(Init(nid, ok), events).out[k].Finish?
    ensures var w, t := Run(Init(nid, ok), events), StoryOf(nid, ok, events);
            && k == |w.out| - 1
            && t.end.Some? && Reads(w.out[k].status, t.end.value)
            && (IsOk(w.out[k].status) <==> t.end == Some(UpstreamEof))
            && (w.lost.Off? ==> Payloads(w.out) == t.messages)
  {
    var w := Run(Init(nid, ok), events);
    RunKeeps(nid, ok, events);
    StoryHolds(nid, ok, events);
    DigestIsOrder(w.out);
  }

  /** And it is owed: a worker that returns without having been cancelled has published
      its End, if publications succeed. */
  lemma EndIsOwed(nid: string, ok: Flag, events: seq<Event>)
    requires var w := Run(Init(nid, ok), events); w.main.Returned? && w.lost.Off?
    requires StoryOf(nid, ok, events).cancelled.Off?
    ensures var w, t := Run(Init(nid, ok), events), StoryOf(nid, ok, events);
            && w.out != [] && w.out[|w.out| - 1].Finish?
            && t.end.Some? && Reads(w.out[|w.out| - 1].status, t.end.value)
  {
    RunKeeps(nid, ok, events);
    StoryHolds(nid, ok, events);
  }

  /** What the upstream is sent: the payloads of the frames handed to the worker, in
      order and as far as the loop has taken them, and one half-close exactly when the
      caller's End was taken, after which no frame is taken any more. */
  lemma WorkerInput(nid: string, ok: Flag, events: seq<Event>)
    ensures var w, t := Run(Init(nid, ok), events), StoryOf(nid, ok, events);
            && w.taken + w.frames == t.frames
            && w.forwarded + Sent(w.frames) == Sent(t.frames)
            && w.halfClosed <= 1 && (w.halfClosed == 1 <==> SawEnd(w.taken))
            && OnlyLastEnds(w.taken)
  {
    RunKeeps(nid, ok, events);
    StoryHolds(nid, ok, events);
    SentConcat(Run(Init(nid, ok), events).taken, Run(Init(nid, ok), events).frames);
  }

  // The loop owes an answer to the Ping in hand, and to the upstream's end.
  predicate InHand(m: Main, pongs: seq<int>, pings: seq<int>) {
    pings == if m.WritingPong? then pongs + [m.timestamp] else pongs
  }

  ghost predicate Owes(w: Worker) {
    && (w.outcome.Some? ==> w.upDone.Some? || w.main.WritingEnd? || w.main.Returned?)
    && (w.lost.Off? ==> InHand(w.main, Pongs(w.out), Pings(w.taken)))
  }

  lemma TakeOwes(w: Worker)
    requires Owes(w) && w.main.Selecting? && w.frames != []
    ensures Owes(Step(w, TakeFrame))
  {
    PingsAppend(w.taken, w.frames[0]);
    assert Pings(w.taken) + [] == Pings(w.taken);
    match w.frames[0]
    case Data(_) =>
    case End(_) =>
    case Ping(_) =>
    case _ =>
  }

  lemma PublishOwes(w: Worker, r: Response, ok: Flag)
    ensures var w' := Publish(w, r, ok);
            w'.lost.Off? ==> w.lost.Off? && Pongs(w'.out) == Pongs(w.out) + (if r.Pong? then [r.timestamp] else [])
  {
    PongsAppend(w.out, r);
  }

  lemma StepOwes(w: Worker, e: Event)
    requires Owes(w)
    ensures Owes(Step(w, e))
  {
    match e
    case TakeFrame => if w.main.Selecting? && w.frames != [] { TakeOwes(w); }
    case PumpPublish(ok) => if w.pump.Relaying? { PublishOwes(w, Reply(w.pump.payload), ok); }
    case MainPublish(ok) =>
      if w.main.WritingPong? {
        PublishOwes(w, Pong(w.main.timestamp), ok);
      } else if w.main.WritingEnd? && WellFormedError(Normalize(w.main.outcome)) {
        PublishOwes(w, EndFrame(w.main.outcome), ok);
      }
    case _ =>
  }

  lemma {:induction false} OwesAlways(nid: string, ok: Flag, events: seq<Event>)
    ensures Owes(Run(Init(nid, ok), events))
  {
    if events == [] {
      PongsAppend([], Begin(None, nid));
      assert [] + [Response.Begin(None, nid)] == [Response.Begin(None, nid)];
    } else {
      OwesAlways(nid, ok, events[..|events| - 1]);
      StepOwes(Run(Init(nid, ok), events[..|events| - 1]), events[|events| - 1]);
    }
  }

  /** Pings are answered by the worker itself, while publications succeed: one Pong each,
      with its timestamp and in order, but for the one it has in hand. */
  lemma PongsAnswerPings(nid: string, ok: Flag, events: seq<Event>)
    requires Run(Init(nid, ok), events).lost.Off?
    ensures var w := Run(Init(nid, ok), events);
            if w.main.WritingPong? then Pings(w.taken) == Pongs(w.out) + [w.main.timestamp]
            else Pings(w.taken) == Pongs(w.out)
  {
    OwesAlways(nid, ok, events);
  }

  /** A worker never hangs: until it has returned it has a frame to publish; or, once the
      upstream has ended, that outcome to take; or, at its select, a frame to take if
      there is one, and the way out if it was cancelled. */
  lemma NeverStuck(nid: string, ok: Flag, events: seq<Event>)
    ensures Moves(Run(Init(nid, ok), events), StoryOf(nid, ok, events))
  {
    RunKeeps(nid, ok, events);
    StoryHolds(nid, ok, events);
    OwesAlways(nid, ok, events);
    MovesOn(Run(Init(nid, ok), events), StoryOf(nid, ok, events));
  }

  predicate Moves(w: Worker, t: Story) {
    match w.main
    case Selecting =>
      && (t.end.Some? ==> Step(w, TakeOutcome).main == WritingEnd(t.end.value))
      && (w.frames != [] ==> Step(w, TakeFrame).frames == w.frames[1..])
      && (t.cancelled.On? ==> Step(w, ReturnCancelled).main.Returned?)
    case Draining => t.end.Some? ==> Step(w, TakeOutcome).main == WritingEnd(t.end.value)
    case WritingPong(_) => Step(w, MainPublish(On)).main.Selecting?
    case WritingEnd(_) => Step(w, MainPublish(On)).main.Returned?
    case Returned => true
  }

  lemma MovesOn(w: Worker, t: Story)
    requires OutputInv(w, DigestOf(w.out)) && Tells(t, w) && Owes(w)
    ensures Moves(w, t)
  {
    match w.main
    case Selecting => if w.frames != [] { TakesOne(w); }
    case _ =>
  }

  lemma TakesOne(w: Worker)
    requires w.main.Selecting? && w.frames != []
    ensures Step(w, TakeFrame).frames == w.frames[1..]
  {
    match w.frames[0]
    case Data(_) =>
    case _ =>
  }

  // ---------------------------------------------------------------------
  // The reply inbox, from the first frame on
  // ---------------------------------------------------------------------

  // What ensureStreamWorker makes of the first frame of a stream: a frame that is not a
  // Call, or names no method, is dropped; the upstream may refuse the stream; otherwise
  // a worker runs.
  datatype Opening = Dropped | Refused(error: Error) | Serving

  function Open(first: Request, refusal: Option<Error>): Opening {
    match first
    case Call(path) => if path == "" then Dropped else if refusal.Some? then Refused(refusal.value) else Serving
    case _ => Dropped
  }

  // What is published on the reply when all publications succeed: a refusal is answered
  // with an End of its own.
  function ReplyInbox(opening: Opening, nid: string, events: seq<Event>): seq<Response>
    requires opening.Refused? ==> WellFormedError(Some(opening.error))
  {
    match opening
    case Dropped => []
    case Refused(error) => [Finish(Some(Convert(Some(error))), None)]
    case Serving => Run(Init(nid, On), events).out
  }

  lemma {:induction false} BeginStays(nid: string, events: seq<Event>)
    ensures var w := Run(Init(nid, On), events); w.out != [] && w.out[0] == Begin(None, nid)
  {
    if events != [] { BeginStays(nid, events[..|events| - 1]); }
  }

  lemma {:induction false} BeginErased(out: seq<Response>)
    requires out != [] && out[0].Begin?
    ensures ErasePongs(out) != [] && ErasePongs(out)[0] == out[0]
  {
    if |out| == 1 {
      assert out[..0] == [] && out == [out[0]];
    } else {
      BeginErased(out[..|out| - 1]);
    }
  }

  /** The grammar of the reply inbox from the first frame on, Pongs aside: nothing
      exactly when the first frame is no Call with a method; one End without a Begin
      exactly when the upstream refuses the stream; otherwise a prefix of Begin Data*
      End with its Begin. */
  lemma ReplyGrammar(first: Request, refusal: Option<Error>, nid: string, events: seq<Event>)
    requires WellFormedError(refusal)
    requires Open(first, refusal).Serving? ==> Run(Init(nid, On), events).lost.Off?
    ensures var opening := Open(first, refusal);
            var e := ErasePongs(ReplyInbox(opening, nid, events));
            && (opening.Dropped? <==> !first.Call? || first.path == "")
            && (e == [] <==> opening.Dropped?)
            && (|e| == 1 && e[0].Finish? && !IsOk(e[0].status) <==> opening.Refused?)
            && (opening.Refused? <==> first.Call? && first.path != "" && refusal.Some?)
            && (opening.Refused? ==> Reads(e[0].status, UpstreamError(refusal.value)))
            && (!opening.Refused? <==> Grammar(e))
            && (opening.Serving? ==> e[0] == Begin(None, nid))
  {
    var opening := Open(first, refusal);
    match opening
    case Dropped =>
    case Refused(error) =>
      var end := Finish(Some(Convert(refusal)), None);
      ErasePongsAppend([], end);
      assert [] + [end] == [end];
    case Serving =>
      WorkerOutput(nid, On, events);
      BeginStays(nid, events);
      BeginErased(Run(Init(nid, On), events).out);
  }
}
