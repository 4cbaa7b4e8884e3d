// The metadata of a stream in whole runs: what Begin and End carry of the headers and
// trailers the handler has set (pkg/rpc/server.go).
module SessionMetadata {
  import opened Wire
  import opened ServerStreams
  import opened ServerAnswers
  import opened SessionAnswers
  import H = Headers
  import S = ServerSystem
  import SN = Sessions

  // The values the handler has set for one key: headers while Begin was not out yet, and
  // trailers; and whether it has called SendHeader.
  datatype Metas = Metas(header: seq<string>, trailer: seq<string>, begun: Flag)

  const NOTHING_SET := Metas([], [], Off)

  // What a step of the handler of a stream in state inc adds.
  function SetBy(m: Metas, inc: Inc, e: Local, key: string): Metas {
    if !inc.handler.Idle? then m
    else
      match e
      case CallSetHeader(md) => if inc.s.hasBegun.Off? then m.(header := m.header + H.ValuesOf(md, key)) else m
      case CallSendHeader(md, _) =>
        if inc.s.hasBegun.Off? then m.(header := m.header + H.ValuesOf(md, key), begun := On) else m.(begun := On)
      case CallSetTrailer(md) => m.(trailer := m.trailer + H.ValuesOf(md, key))
      case _ => m
  }

  function SetIn(m: Metas, y: S.System, e: S.Event, i: nat, key: string): Metas {
    if e.At? && e.target == i && i < |y.incs| then SetBy(m, y.incs[i], e.local, key) else m
  }

  /** What the handler of server stream i has set in a run, read off its events. */
  function MetasOf(path: string, registered: Flag, nid: string, events: seq<SN.Event>, i: nat, key: string): Metas {
    if events == [] then NOTHING_SET
    else
      var front, last := events[..|events| - 1], events[|events| - 1];
      var m := MetasOf(path, registered, nid, front, i, key);
      if last.AtServer? then SetIn(m, SN.After(path, registered, nid, front).server, last.serverEvent, i, key) else m
  }

  // ---------------------------------------------------------------------
  // One stream
  // ---------------------------------------------------------------------

  // What a published response carries. `final` tells that the handler sets no more
  // trailers.
  predicate CarriesSet(r: Response, nid: string, key: string, m: Metas, final: Flag) {
    match r
    case Begin(header, n) => n == nid && H.ValuesOf(header, key) == m.header
    case Finish(_, trailer) =>
      H.ValuesOf(trailer, key) <= m.trailer && (final.On? ==> H.ValuesOf(trailer, key) == m.trailer)
    case _ => true
  }

  ghost predicate AllCarry(out: seq<Response>, nid: string, key: string, m: Metas, final: Flag) {
    forall k :: 0 <= k < |out| ==> CarriesSet(out[k], nid, key, m, final)
  }

  ghost predicate NoneBegin(out: seq<Response>) { forall k :: 0 <= k < |out| ==> !out[k].Begin? }

  ghost predicate NoneFinish(out: seq<Response>) { forall k :: 0 <= k < |out| ==> !out[k].Finish? }

  // The handler was never there, or has returned.
  function Final(registered: Flag, d: Deeds): Flag { if registered.Off? || d.exit.Some? then On else Off }

  ghost predicate MetaInv(inc: Inc, registered: Flag, nid: string, key: string, m: Metas, d: Deeds) {
    && H.ValuesOf(inc.s.header, key) == m.header
    && H.ValuesOf(inc.s.trailer, key) == m.trailer
    && AllCarry(inc.out, nid, key, m, Final(registered, d))
    && (inc.s.hasBegun.Off? ==> NoneBegin(inc.out))
    && (m.begun.On? ==> inc.s.hasBegun.On?)
  }

  lemma JoinValues(a: Option<MD>, b: Option<MD>, key: string)
    ensures H.ValuesOf(JoinOption(a, b), key) == H.ValuesOf(a, key) + H.ValuesOf(b, key)
  {
    if a.Some? && b.Some? { assert Values(Join(a.value, b.value), key) == Values(a.value, key) + Values(b.value, key); }
  }

  // What a local step does to the metadata of the stream.
  lemma LocalSets(inc: Inc, registered: Flag, nid: string, e: Local)
    ensures var inc' := LocalStep(inc, registered, nid, e);
            && inc'.s.header == (if inc.handler.Idle? && inc.s.hasBegun.Off? && (e.CallSetHeader? || e.CallSendHeader?)
                                 then JoinOption(inc.s.header, e.md) else inc.s.header)
            && inc'.s.trailer == (if inc.handler.Idle? && e.CallSetTrailer? then JoinOption(inc.s.trailer, e.md)
                                  else inc.s.trailer)
            && (inc.s.hasBegun.On? || (inc.handler.Idle? && e.CallSendHeader?) ==> inc'.s.hasBegun.On?)
  {
    match e
    case WorkerTake(ok) => if inc.worker.Idle? && inc.s.inbox != [] { TakeSets(inc, registered, ok); }
    case WorkerStep(ok) => ThreadSets(inc, nid, inc.worker, ok);
    case HandlerStep(ok) => ThreadSets(inc, nid, inc.handler, ok);
    case CallSetHeader(_) =>
    case CallSendHeader(_, _) =>
    case _ =>
  }

  lemma ThreadSets(inc: Inc, nid: string, t: Thread, ok: Flag)
    ensures var s' := StepThread(inc, nid, t, ok).0.s;
            s'.header == inc.s.header && s'.trailer == inc.s.trailer && (inc.s.hasBegun.On? ==> s'.hasBegun.On?)
  {
    match t
    case WriteBegin(_, _) =>
    case _ =>
  }

  lemma TakeSets(inc: Inc, registered: Flag, ok: Flag)
    requires inc.s.inbox != []
    ensures var s' := ProcessFrame(Take(inc), registered, inc.s.inbox[0].body, ok).s;
            s'.header == inc.s.header && s'.trailer == inc.s.trailer && s'.hasBegun == inc.s.hasBegun
  {
    match inc.s.inbox[0].body
    case Call(_) =>
    case Data(_) =>
    case End(_) =>
    case Ping(_) =>
    case Unknown =>
  }

  // What a step publishes carries what is set.
  lemma SaysTheSet(inc: Inc, registered: Flag, nid: string, e: Local, key: string)
    ensures var says, s' := LocalSays(inc, nid, e).0, LocalStep(inc, registered, nid, e).s;
            says.Some? ==>
              && (says.value.Begin? ==> says.value.nid == nid && inc.s.hasBegun.Off? && s'.hasBegun.On?
                                        && H.ValuesOf(says.value.header, key) == H.ValuesOf(s'.header, key))
              && (says.value.Finish? ==> H.ValuesOf(says.value.trailer, key) == H.ValuesOf(inc.s.trailer, key))
  {
    match e
    case WorkerStep(_) => if InClose(inc.worker) { ThreadSaysSet(inc, nid, inc.worker, e.ok, key); }
    case HandlerStep(_) =>
      if InSend(inc.handler) || InClose(inc.handler) { ThreadSaysSet(inc, nid, inc.handler, e.ok, key); }
    case CallSendHeader(md, _) => H.MakeMetadataValues(SetHeader(inc.s, md).0.header, key);
    case _ =>
  }

  lemma ThreadSaysSet(inc: Inc, nid: string, t: Thread, ok: Flag, key: string)
    ensures var says, s' := ThreadSays(inc, nid, t), StepThread(inc, nid, t, ok).0.s;
            says.Some? ==>
              && (says.value.Begin? ==> says.value.nid == nid && inc.s.hasBegun.Off? && s'.hasBegun.On?
                                        && H.ValuesOf(says.value.header, key) == H.ValuesOf(s'.header, key))
              && (says.value.Finish? ==> H.ValuesOf(says.value.trailer, key) == H.ValuesOf(inc.s.trailer, key))
  {
    H.MakeMetadataValues(inc.s.header, key);
    H.MakeMetadataValues(inc.s.trailer, key);
    match t
    case WriteBegin(_, _) =>
    case _ =>
  }

  // A handler that returns on a live stream has not ended it before.
  lemma IdleHasNotEnded(inc: Inc, registered: Flag)
    requires IncInv(inc, registered) && inc.handler.Idle? && inc.s.live.On?
    ensures registered.On? && NoneFinish(inc.out)
  {
    assert SeenOf(inc).wire == DigestOf(inc.out);
    DigestIsOrder(inc.out);
    assert ThreadInv(inc, registered, SeenOf(inc));
    assert CloseInv(inc, registered) && WireInv(inc, registered, SeenOf(inc));
  }

  // More is set, or nothing more will be.
  lemma CarryOn(out: seq<Response>, nid: string, key: string, m: Metas, final: Flag, m': Metas, final': Flag)
    requires AllCarry(out, nid, key, m, final) && m.trailer <= m'.trailer
    requires m'.header != m.header ==> NoneBegin(out)
    requires final'.On? ==> NoneFinish(out) || (final.On? && m'.trailer == m.trailer)
    ensures AllCarry(out, nid, key, m', final')
  {
    forall k | 0 <= k < |out| ensures CarriesSet(out[k], nid, key, m', final') {
      assert CarriesSet(out[k], nid, key, m, final);
    }
  }

  // A step's event and what is set after it.
  lemma SetSteps(inc: Inc, registered: Flag, nid: string, e: Local, key: string, m: Metas)
    requires H.ValuesOf(inc.s.header, key) == m.header && H.ValuesOf(inc.s.trailer, key) == m.trailer
    ensures var s', m' := LocalStep(inc, registered, nid, e).s, SetBy(m, inc, e, key);
            H.ValuesOf(s'.header, key) == m'.header && H.ValuesOf(s'.trailer, key) == m'.trailer
  {
    LocalSets(inc, registered, nid, e);
    if e.CallSetHeader? || e.CallSendHeader? { JoinValues(inc.s.header, e.md, key); }
    if e.CallSetTrailer? { JoinValues(inc.s.trailer, e.md, key); }
  }

  lemma FinalSteps(inc: Inc, registered: Flag, e: Local, d: Deeds, m: Metas, key: string)
    requires IncInv(inc, registered) && ExitInv(inc, registered, d)
    ensures Final(registered, Did(d, inc, e)).On? ==>
              NoneFinish(inc.out) || (Final(registered, d).On? && SetBy(m, inc, e, key).trailer == m.trailer)
  {
    assert ThreadInv(inc, registered, SeenOf(inc));
    if Final(registered, d).Off? && Final(registered, Did(d, inc, e)).On? { IdleHasNotEnded(inc, registered); }
  }

  lemma LocalMetas(inc: Inc, registered: Flag, nid: string, e: Local, key: string, m: Metas, d: Deeds)
    requires IncInv(inc, registered) && ExitInv(inc, registered, d) && MetaInv(inc, registered, nid, key, m, d)
    ensures MetaInv(LocalStep(inc, registered, nid, e), registered, nid, key, SetBy(m, inc, e, key), Did(d, inc, e))
  {
    var m', final' := SetBy(m, inc, e, key), Final(registered, Did(d, inc, e));
    SetSteps(inc, registered, nid, e, key, m);
    LocalSets(inc, registered, nid, e);
    LocalOut(inc, registered, nid, e);
    SaysTheSet(inc, registered, nid, e, key);
    FinalSteps(inc, registered, e, d, m, key);
    CarryOn(inc.out, nid, key, m, Final(registered, d), m', final');
    SaysMore(inc, registered, nid, e, key, m, m', final');
    assert m'.begun.On? ==> m.begun.On? || (inc.handler.Idle? && e.CallSendHeader?);
  }

  lemma SaysMore(inc: Inc, registered: Flag, nid: string, e: Local, key: string, m: Metas, m': Metas, final': Flag)
    requires AllCarry(inc.out, nid, key, m', final') && (inc.s.hasBegun.Off? ==> NoneBegin(inc.out))
    requires m' == SetBy(m, inc, e, key)
    requires H.ValuesOf(inc.s.trailer, key) == m.trailer
    requires H.ValuesOf(LocalStep(inc, registered, nid, e).s.header, key) == m'.header
    ensures var inc' := LocalStep(inc, registered, nid, e);
            AllCarry(inc'.out, nid, key, m', final') && (inc'.s.hasBegun.Off? ==> NoneBegin(inc'.out))
  {
    LocalSets(inc, registered, nid, e);
    LocalOut(inc, registered, nid, e);
    SaysTheSet(inc, registered, nid, e, key);
    var says := LocalSays(inc, nid, e).0;
    assert says.Some? && says.value.Finish? ==> m'.trailer == m.trailer;
    assert says.Some? ==> CarriesSet(says.value, nid, key, m', final');
  }

  // ---------------------------------------------------------------------
  // Every step
  // ---------------------------------------------------------------------

  lemma MetasKept(inc: Inc, inc': Inc, registered: Flag, nid: string, key: string, m: Metas, d: Deeds)
    requires MetaInv(inc, registered, nid, key, m, d)
    requires inc'.out == inc.out && inc'.s.header == inc.s.header && inc'.s.trailer == inc.s.trailer
    requires inc'.s.hasBegun == inc.s.hasBegun
    ensures MetaInv(inc', registered, nid, key, m, d)
  {}

  lemma StopMetas(y: S.System, i: nat, key: string, m: Metas, d: Deeds)
    requires i < |y.incs| && MetaInv(y.incs[i], y.registered, y.nid, key, m, d)
    ensures i < |S.StepStop(y).incs| && MetaInv(S.StepStop(y).incs[i], y.registered, y.nid, key, m, d)
  {
    match y.stop
    case Finalizing(FinOnce(err, _), j) =>
      MetasKept(y.incs[i], FinalizeInc(y.incs[i], err), y.registered, y.nid, key, m, d);
    case Finalizing(FinCancel(_), j) => MetasKept(y.incs[i], CancelInc(y.incs[i]), y.registered, y.nid, key, m, d);
    case Finalizing(FinRemove(_), j) =>
      MetasKept(y.incs[i], y.incs[i].(removed := On), y.registered, y.nid, key, m, d);
    case CancellingServer => MetasKept(y.incs[i], CancelInc(y.incs[i]), y.registered, y.nid, key, m, d);
    case _ =>
  }

  lemma AtMetas(y: S.System, j: nat, e: Local, i: nat, key: string, m: Metas, d: Deeds)
    requires S.IncsInv(y) && i < |y.incs| && j < |y.incs| && ExitInv(y.incs[i], y.registered, d)
    requires MetaInv(y.incs[i], y.registered, y.nid, key, m, d)
    ensures MetaInv(S.StepAt(y, j, e).incs[i], y.registered, y.nid, key, SetIn(m, y, S.At(j, e), i, key),
                    DidIn(d, y, S.At(j, e), i))
  {
    if i == j {
      assert IncInv(y.incs[i], y.registered);
      LocalMetas(y.incs[i], y.registered, y.nid, e, key, m, d);
    }
  }

  lemma OldMetas(y: S.System, e: S.Event, i: nat, key: string, m: Metas, d: Deeds)
    requires S.IncsInv(y) && i < |y.incs| && ExitInv(y.incs[i], y.registered, d)
    requires MetaInv(y.incs[i], y.registered, y.nid, key, m, d)
    ensures i < |S.Step(y, e).incs|
    ensures MetaInv(S.Step(y, e).incs[i], y.registered, y.nid, key, SetIn(m, y, e, i, key), DidIn(d, y, e, i))
  {
    match e
    case Enqueue =>
      if y.dispatcher.Some? {
        MetasKept(y.incs[i], S.Accept(y.incs[i], y.dispatcher.value.frame), y.registered, y.nid, key, m, d);
      }
    case At(j, local) => if j < |y.incs| { AtMetas(y, j, local, i, key, m, d); }
    case StopStep => StopMetas(y, i, key, m, d);
    case _ =>
  }

  lemma NidKept(y: S.System, e: S.Event)
    ensures S.Step(y, e).nid == y.nid && S.Step(y, e).registered == y.registered
  {
    match e
    case StopStep =>
    case _ =>
  }

  ghost predicate MetasHold(y: S.System, registered: Flag, nid: string, i: nat, key: string, m: Metas, d: Deeds) {
    && y.nid == nid && y.registered == registered
    && if i < |y.incs| then MetaInv(y.incs[i], registered, nid, key, m, d) else m == NOTHING_SET
  }

  lemma FirstMetas(y: S.System, e: S.Event, i: nat, key: string, d: Deeds)
    requires |y.incs| <= i < |S.Step(y, e).incs|
    ensures MetaInv(S.Step(y, e).incs[i], y.registered, y.nid, key, NOTHING_SET, d)
  {}

  lemma ServerMetas(y: S.System, e: S.Event, registered: Flag, nid: string, i: nat, key: string, m: Metas, d: Deeds)
    requires S.IncsInv(y) && (i < |y.incs| ==> ExitInv(y.incs[i], registered, d))
    requires MetasHold(y, registered, nid, i, key, m, d)
    ensures MetasHold(S.Step(y, e), registered, nid, i, key, SetIn(m, y, e, i, key), DidIn(d, y, e, i))
  {
    NidKept(y, e);
    if i < |y.incs| {
      OldMetas(y, e, i, key, m, d);
    } else if i < |S.Step(y, e).incs| {
      FirstMetas(y, e, i, key, DidIn(d, y, e, i));
    }
  }

  // What a step of the session adds to what is set.
  function SetNext(m: Metas, s: SN.Session, e: SN.Event, i: nat, key: string): Metas {
    if e.AtServer? then SetIn(m, s.server, e.serverEvent, i, key) else m
  }

  lemma StepMetas(s: SN.Session, e: SN.Event, registered: Flag, nid: string, i: nat, key: string, m: Metas, d: Deeds)
    requires S.IncsInv(s.server) && (i < |s.server.incs| ==> ExitInv(s.server.incs[i], registered, d))
    requires MetasHold(s.server, registered, nid, i, key, m, d)
    ensures MetasHold(SN.Step(s, e).server, registered, nid, i, key, SetNext(m, s, e, i, key), DidNext(d, s, e, i))
  {
    match e
    case AtClient(ce) =>
    case AtServer(se) => if !se.Send? { ServerMetas(s.server, se, registered, nid, i, key, m, d); }
    case Deliver =>
  }

  // What the proofs about deeds say of the stream.
  lemma ExitFacts(path: string, registered: Flag, nid: string, events: seq<SN.Event>, i: nat)
    returns (s: SN.Session, d: Deeds)
    ensures s == SN.After(path, registered, nid, events) && d == DeedsOf(path, registered, nid, events, i)
    ensures S.IncsInv(s.server) && (i < |s.server.incs| ==> ExitInv(s.server.incs[i], registered, d))
  {
    s, d := SN.After(path, registered, nid, events), DeedsOf(path, registered, nid, events, i);
    SN.AfterKeeps(path, registered, nid, events);
    Answered(path, registered, nid, events, i);
  }

  lemma {:induction false} MetasAfter(path: string, registered: Flag, nid: string, events: seq<SN.Event>, i: nat,
                                      key: string)
    ensures MetasHold(SN.After(path, registered, nid, events).server, registered, nid, i, key,
                      MetasOf(path, registered, nid, events, i, key), DeedsOf(path, registered, nid, events, i))
  {
    if events != [] {
      var front, last := events[..|events| - 1], events[|events| - 1];
      MetasAfter(path, registered, nid, front, i, key);
      var s, d := ExitFacts(path, registered, nid, front, i);
      StepMetas(s, last, registered, nid, i, key, MetasOf(path, registered, nid, front, i, key), d);
    }
  }

  /** In every run, Begin carries the server's nid and, key by key, the headers the
      handler set before it, one call after the other; End carries the trailers it has
      set, all of them once it has returned. */
  lemma MetadataIsTheHandlers(path: string, registered: Flag, nid: string, events: seq<SN.Event>, i: nat, k: nat,
                              key: string)
    requires var y := SN.After(path, registered, nid, events).server; i < |y.incs| && k < |y.incs[i].out|
    ensures var r := SN.After(path, registered, nid, events).server.incs[i].out[k];
            var m := MetasOf(path, registered, nid, events, i, key);
            && (r.Begin? ==> r.nid == nid && H.ValuesOf(r.header, key) == m.header)
            && (r.Finish? ==>
                  && H.ValuesOf(r.trailer, key) <= m.trailer
                  && (registered.Off? || DeedsOf(path, registered, nid, events, i).exit.Some? ==>
                        H.ValuesOf(r.trailer, key) == m.trailer))
  {
    MetasAfter(path, registered, nid, events, i, key);
    var r := SN.After(path, registered, nid, events).server.incs[i].out[k];
    assert CarriesSet(r, nid, key, MetasOf(path, registered, nid, events, i, key),
                      Final(registered, DeedsOf(path, registered, nid, events, i)));
  }

  /** SendHeader puts Begin on the wire: once the handler has called it, and with every
      publication succeeding, the first response, Pongs aside, is a Begin. */
  lemma BeginIsOwed(path: string, registered: Flag, nid: string, events: seq<SN.Event>, i: nat)
    requires var y := SN.After(path, registered, nid, events).server; i < |y.incs| && y.incs[i].failed.Off?
    requires MetasOf(path, registered, nid, events, i, "").begun.On?
    ensures var e := ErasePongs(SN.After(path, registered, nid, events).server.incs[i].out); e != [] && e[0].Begin?
  {
    MetasAfter(path, registered, nid, events, i, "");
    SN.AfterKeeps(path, registered, nid, events);
    HasBegunShows(SN.After(path, registered, nid, events).server.incs[i], registered);
  }

  lemma HasBegunShows(inc: Inc, registered: Flag)
    requires IncInv(inc, registered) && inc.s.hasBegun.On? && inc.failed.Off?
    ensures ErasePongs(inc.out) != [] && ErasePongs(inc.out)[0].Begin?
  {
    assert SeenOf(inc).wire == DigestOf(inc.out);
    assert WireInv(inc, registered, SeenOf(inc));
    DigestIsGrammar(inc.out);
  }
}
