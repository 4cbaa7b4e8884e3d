// Header metadata of a stream: SetHeader, SendHeader, SendMsg and close of the
// server (pkg/rpc/server.go), Begin on the wire, and what the client accumulates
// (pkg/rpc/client.go).
module Headers {
  import opened Wire
  import opened ServerStreams

  // What a handler and the end of its stream do about headers.
  datatype Op =
    | DoSetHeader(md: Option<MD>)
    | DoSendHeader(md: Option<MD>)
    | DoSendMsg(payload: Payload)
    | DoClose

  // The stream, the Begin frames it published and the answers to the header calls.
  datatype Headed = Headed(s: Stream, begins: seq<Response>, answers: seq<Flag>)

  function Fresh(): Headed { Headed(NewStream(On), [], []) }

  function DoBegin(h: Headed, nid: string): Headed {
    var (s, begin) := BeginMaybe(h.s, nid);
    h.(s := s, begins := h.begins + (if begin.Some? then [begin.value] else []))
  }

  function Do(h: Headed, op: Op, nid: string): Headed {
    match op
    case DoSetHeader(md) =>
      var (s, ok) := SetHeader(h.s, md);
      h.(s := s, answers := h.answers + [ok])
    case DoSendHeader(md) =>
      var (s, ok) := SetHeader(h.s, md);
      var told := h.(s := s, answers := h.answers + [ok]);
      if ok.On? then DoBegin(told, nid) else told
    case DoSendMsg(_) => DoBegin(h, nid)
    case DoClose => DoBegin(h, nid)
  }

  function DoAll(h: Headed, ops: seq<Op>, nid: string): Headed
    decreases |ops|
  {
    if ops == [] then h else DoAll(Do(h, ops[0], nid), ops[1..], nid)
  }

  // The headers that count: those set before the first call that sends Begin, and
  // that call's own.
  function Counted(ops: seq<Op>): seq<Option<MD>> {
    if ops == [] then []
    else
      match ops[0]
      case DoSetHeader(md) => [md] + Counted(ops[1..])
      case DoSendHeader(md) => [md]
      case _ => []
  }

  // Some call sends Begin.
  predicate Begins(ops: seq<Op>) { exists i :: 0 <= i < |ops| && !ops[i].DoSetHeader? }

  // Whether each header call precedes Begin.
  function Answers(ops: seq<Op>, begun: Flag): seq<Flag> {
    if ops == [] then []
    else
      match ops[0]
      case DoSetHeader(_) => [Not(begun)] + Answers(ops[1..], begun)
      case DoSendHeader(_) => [Not(begun)] + Answers(ops[1..], On)
      case _ => Answers(ops[1..], On)
  }

  function ValuesIn(mds: seq<Option<MD>>, key: string): seq<string> {
    if mds == [] then []
    else (if mds[0].Some? then Values(mds[0].value, key) else []) + ValuesIn(mds[1..], key)
  }

  function ValuesOf(md: Option<MD>, key: string): seq<string> {
    if md.Some? then Values(md.value, key) else []
  }

  // The header of the Begin frame a run publishes, per key.
  function BeginValues(h: Headed, key: string): seq<string> {
    if h.begins != [] && h.begins[0].Begin? then ValuesOf(h.begins[0].header, key) else []
  }

  lemma MakeMetadataValues(md: Option<MD>, key: string)
    ensures ValuesOf(MakeMetadata(md), key) == ValuesOf(md, key)
  {}

  // Once Begin is out nothing about headers changes.
  lemma {:induction false} Frozen(h: Headed, ops: seq<Op>, nid: string)
    requires h.s.hasBegun.On?
    ensures DoAll(h, ops, nid) == h.(answers := h.answers + Answers(ops, On))
    decreases |ops|
  {
    if ops == [] {
      assert h.answers + [] == h.answers;
    } else {
      var next := Do(h, ops[0], nid);
      assert h.begins + [] == h.begins;
      Frozen(next, ops[1..], nid);
      if ops[0].DoSetHeader? || ops[0].DoSendHeader? {
        assert h.answers + [Off] + Answers(ops[1..], On) == h.answers + ([Off] + Answers(ops[1..], On));
      }
    }
  }

  predicate BeginOf(h: Headed, nid: string) {
    |h.begins| == 1 && h.begins[0].Begin? && h.begins[0].nid == nid
  }

  // r is h after the calls.
  predicate Froze(h: Headed, ops: seq<Op>, nid: string, key: string, r: Headed) {
    && r.answers == h.answers + Answers(ops, Off)
    && if Begins(ops) then
         BeginOf(r, nid) && BeginValues(r, key) == ValuesOf(h.s.header, key) + ValuesIn(Counted(ops), key)
       else
         r.begins == []
  }

  lemma {:induction false} Freezing(h: Headed, ops: seq<Op>, nid: string, key: string)
    requires h.s.hasBegun.Off? && h.begins == []
    ensures Froze(h, ops, nid, key, DoAll(h, ops, nid))
    decreases |ops|
  {
    if ops == [] {
      assert h.answers + [] == h.answers;
    } else {
      BeginsSplit(ops);
      FirstOp(h, ops[0], nid, key);
      if ops[0].DoSetHeader? {
        var next := Do(h, ops[0], nid);
        Freezing(next, ops[1..], nid, key);
        FreezingSet(h, next, ops, nid, key, DoAll(next, ops[1..], nid));
      } else {
        FreezingBegin(h, ops, nid, key);
      }
    }
  }

  lemma FreezingSet(h: Headed, next: Headed, ops: seq<Op>, nid: string, key: string, r: Headed)
    requires ops != [] && ops[0].DoSetHeader? && Froze(next, ops[1..], nid, key, r)
    requires next.answers == h.answers + [On]
    requires ValuesOf(next.s.header, key) == ValuesOf(h.s.header, key) + ValuesOf(ops[0].md, key)
    ensures Froze(h, ops, nid, key, r)
  {
    BeginsSplit(ops);
    SetCounts(ops, key);
    Associative(h.answers, [On], Answers(ops[1..], Off));
    Associative(ValuesOf(h.s.header, key), ValuesOf(ops[0].md, key), ValuesIn(Counted(ops[1..]), key));
  }

  lemma SetCounts(ops: seq<Op>, key: string)
    requires ops != [] && ops[0].DoSetHeader?
    ensures Answers(ops, Off) == [On] + Answers(ops[1..], Off)
    ensures ValuesIn(Counted(ops), key) == ValuesOf(ops[0].md, key) + ValuesIn(Counted(ops[1..]), key)
  {
    assert Counted(ops)[1..] == Counted(ops[1..]);
  }

  lemma Associative<T>(a: seq<T>, b: seq<T>, c: seq<T>)
    ensures (a + b) + c == a + (b + c)
  {}

  lemma FreezingBegin(h: Headed, ops: seq<Op>, nid: string, key: string)
    requires h.s.hasBegun.Off? && h.begins == [] && ops != [] && !ops[0].DoSetHeader?
    ensures var r := DoAll(h, ops, nid);
            && r.answers == h.answers + Answers(ops, Off)
            && BeginOf(r, nid)
            && BeginValues(r, key) == ValuesOf(h.s.header, key) + ValuesIn(Counted(ops), key)
  {
    FirstOp(h, ops[0], nid, key);
    Frozen(Do(h, ops[0], nid), ops[1..], nid);
    assert Counted(ops) == Counted([ops[0]]);
    Associative(h.answers, if ops[0].DoSendHeader? then [On] else [], Answers(ops[1..], On));
    assert [] + Answers(ops[1..], On) == Answers(ops[1..], On);
  }

  lemma BeginsSplit(ops: seq<Op>)
    requires ops != []
    ensures Begins(ops) <==> !ops[0].DoSetHeader? || Begins(ops[1..])
  {
    if Begins(ops) && ops[0].DoSetHeader? {
      var i :| 0 <= i < |ops| && !ops[i].DoSetHeader?;
      assert ops[1..][i - 1] == ops[i];
    }
    if Begins(ops[1..]) {
      var i :| 0 <= i < |ops[1..]| && !ops[1..][i].DoSetHeader?;
      assert ops[i + 1] == ops[1..][i];
    }
  }

  // The first call.
  lemma FirstOp(h: Headed, op: Op, nid: string, key: string)
    requires h.s.hasBegun.Off? && h.begins == []
    ensures var next := Do(h, op, nid);
            && next.answers == h.answers + (if op.DoSetHeader? || op.DoSendHeader? then [On] else [])
            && (op.DoSetHeader? ==>
                  next.s.hasBegun.Off? && next.begins == []
                  && ValuesOf(next.s.header, key) == ValuesOf(h.s.header, key) + ValuesOf(op.md, key))
            && (!op.DoSetHeader? ==>
                  && next.s.hasBegun.On? && |next.begins| == 1 && next.begins[0].Begin? && next.begins[0].nid == nid
                  && BeginValues(next, key) == ValuesOf(h.s.header, key) + ValuesIn(Counted([op]), key))
  {
    if op.DoSetHeader? || op.DoSendHeader? {
      var s := SetHeader(h.s, op.md).0;
      assert ValuesOf(s.header, key) == ValuesOf(h.s.header, key) + ValuesOf(op.md, key);
      MakeMetadataValues(s.header, key);
      assert [op.md][1..] == [];
      assert ValuesIn([op.md], key) == ValuesOf(op.md, key);
    } else {
      MakeMetadataValues(h.s.header, key);
      assert h.answers + [] == h.answers;
    }
  }

  /** For any sequence of SetHeader, SendHeader and SendMsg calls and the close of a
      stream: one Begin is published as soon as a call sends it; its header is, key
      by key, the concatenation of the headers set up to then; those calls succeed,
      every later one fails and changes nothing. */
  lemma HeaderFreezing(ops: seq<Op>, nid: string, key: string)
    ensures var r := DoAll(Fresh(), ops, nid);
            && r.answers == Answers(ops, Off)
            && (if Begins(ops) then BeginOf(r, nid) else r.begins == [])
            && BeginValues(r, key) == (if Begins(ops) then ValuesIn(Counted(ops), key) else [])
  {
    Freezing(Fresh(), ops, nid, key);
    assert [] + Answers(ops, Off) == Answers(ops, Off);
  }

  // ---------------------------------------------------------------------
  // The client
  // ---------------------------------------------------------------------

  // metadata.MD.Append of every key.
  method AppendAll(target: MD, source: MD) returns (md: MD)
    ensures forall k {:trigger Values(md, k)} :: Values(md, k) == Values(target, k) + Values(source, k)
  {
    md := target;
    var left := source;
    while left != map[]
      invariant left.Keys <= source.Keys && forall k :: k in left ==> left[k] == source[k]
      invariant forall k {:trigger Values(md, k)} ::
                  Values(md, k) == if k in left then Values(target, k) else Values(target, k) + Values(source, k)
      decreases |left|
    {
      var k :| k in left;
      assert Values(source, k) == left[k] && Values(md, k) == Values(target, k);
      ghost var before := md;
      if |left[k]| > 0 {
        md := md[k := Values(md, k) + left[k]];
      } else {
        assert Values(target, k) + [] == Values(target, k);
      }
      assert forall j :: j != k ==> Values(md, j) == Values(before, j);
      left := left - {k};
    }
  }

  // Where a client stream puts metadata: nowhere; a pointer to a nil map, as a call
  // option that was given the address of an unset variable makes it; a pointer to a
  // map.
  datatype Target = Unset | NilMap | Holding(md: MD)

  function TargetValues(t: Target, key: string): seq<string> {
    if t.Holding? then Values(t.md, key) else []
  }

  // Some key holds a value.
  ghost predicate HasValues(md: Option<MD>) { exists k :: ValuesOf(md, k) != [] }

  // MD.Append assigns into the map, unless there is no value to append.
  ghost predicate Panics(t: Target, md: Option<MD>) { t.NilMap? && HasValues(md) }

  // All of md's values were appended.
  ghost predicate Kept(before: Target, md: Option<MD>, after: Target) {
    forall k :: TargetValues(after, k) == TargetValues(before, k) + ValuesOf(md, k)
  }

  // What processEnd leaves of a trailer.
  ghost predicate EndLeaves(before: Target, end: Option<MD>, after: Target) {
    if Panics(before, end) then after == before
    else
      forall k ::
        TargetValues(after, k) == TargetValues(before, k) + (if before.Unset? then [] else ValuesOf(end, k))
  }

  // What processBegin leaves of a header.
  ghost predicate BeginLeaves(before: Target, begin: Option<MD>, after: Target) {
    if Panics(before, begin) then after == before else Kept(before, begin, after)
  }

  class Metadata {
    var header: Target
    var trailer: Target

    constructor (header: Target, trailer: Target)
      ensures this.header == header && this.trailer == trailer
    {
      this.header, this.trailer := header, trailer;
    }

    // Append of every key, and whether it panics.
    static method Append(target: Target, md: MD) returns (more: Target, panicked: bool)
      requires !target.Unset?
      ensures panicked <==> Panics(target, Some(md))
      ensures BeginLeaves(target, Some(md), more) && !more.Unset?
    {
      if target.Holding? {
        var all := AppendAll(target.md, md);
        return Holding(all), false;
      }
      more, panicked := target, false;
      var left := md;
      while left != map[]
        invariant left.Keys <= md.Keys && forall k :: k in left ==> left[k] == md[k]
        invariant !panicked && more == target
        invariant forall k :: k in md && k !in left ==> md[k] == []
        decreases |left|
      {
        var k :| k in left;
        if left[k] != [] {
          assert ValuesOf(Some(md), k) != [];
          return target, true;
        }
        left := left - {k};
      }
      assert forall k :: ValuesOf(Some(md), k) == [];
    }

    // processBegin, as far as the header goes: the stream makes a map of its own when it
    // has no target, and appends to what is there.
    method ProcessBegin(begin: Option<MD>) returns (panicked: bool)
      modifies this`header
      ensures panicked <==> Panics(old(header), begin)
      ensures BeginLeaves(old(header), begin, header)
    {
      panicked := false;
      if begin.Some? {
        var target := if header.Unset? then Holding(map[]) else header;
        assert target.NilMap? <==> header.NilMap?;
        header, panicked := Append(target, begin.value);
      }
    }

    // processEnd, as far as the trailer goes: without a target it is not kept.
    method ProcessEnd(end: Option<MD>) returns (panicked: bool)
      modifies this`trailer
      ensures panicked <==> Panics(old(trailer), end)
      ensures EndLeaves(old(trailer), end, trailer)
    {
      panicked := false;
      if end.Some? && !trailer.Unset? {
        trailer, panicked := Append(trailer, end.value);
      }
    }
  }

  /** The trailer reaches its target exactly when there is one and its map is not nil,
      or when it carries no value. */
  lemma TrailerKeptExactly(before: Target, end: Option<MD>, after: Target)
    requires EndLeaves(before, end, after)
    ensures Kept(before, end, after) <==> before.Holding? || !HasValues(end)
  {
    if HasValues(end) && !before.Holding? {
      var k :| ValuesOf(end, k) != [];
      assert TargetValues(after, k) != TargetValues(before, k) + ValuesOf(end, k);
    }
  }

  /** The header reaches the caller exactly when its target is not a pointer to a nil
      map, or when it carries no value. */
  lemma HeaderKeptExactly(before: Target, begin: Option<MD>, after: Target)
    requires BeginLeaves(before, begin, after)
    ensures Kept(before, begin, after) <==> !before.NilMap? || !HasValues(begin)
  {
    if Panics(before, begin) {
      var k :| ValuesOf(begin, k) != [];
      assert TargetValues(after, k) != TargetValues(before, k) + ValuesOf(begin, k);
    }
  }

  /** grpc.Header(&h) and grpc.Trailer(&t) of unset variables: the first value of either
      makes ReadMsg panic. */
  method UnsetVariablesPanic(key: string, value: string) returns (onHeader: bool, onTrailer: bool)
    ensures onHeader && onTrailer
  {
    var stream := new Metadata(NilMap, NilMap);
    assert ValuesOf(Some(map[key := [value]]), key) == [value];
    onHeader := stream.ProcessBegin(Some(map[key := [value]]));
    onTrailer := stream.ProcessEnd(Some(map[key := [value]]));
  }

  /** A client that starts without a target for the header and processes the published
      Begin ends up with exactly the counted headers. */
  method ReceiveHeader(ops: seq<Op>, nid: string) returns (received: Metadata)
    ensures fresh(received)
    ensures forall k {:trigger TargetValues(received.header, k)} ::
              TargetValues(received.header, k) == if Begins(ops) then ValuesIn(Counted(ops), k) else []
  {
    received := new Metadata(Unset, Unset);
    var r := DoAll(Fresh(), ops, nid);
    if |r.begins| > 0 && r.begins[0].Begin? {
      var _ := received.ProcessBegin(r.begins[0].header);
    }
    forall k ensures TargetValues(received.header, k) == if Begins(ops) then ValuesIn(Counted(ops), k) else [] {
      HeaderFreezing(ops, nid, k);
      assert TargetValues(received.header, k) == [] + BeginValues(r, k);
    }
  }
}
