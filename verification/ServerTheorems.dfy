// What the server promises about one stream, over every run of ServerSystem.
module ServerTheorems {
  import opened Wire
  import opened ServerStreams
  import opened ServerSystem

  // ---------------------------------------------------------------------
  // Client-to-handler delivery
  // ---------------------------------------------------------------------

  lemma ContiguousIsSlice(fs: seq<Frame>, lo: nat, hi: nat, sent: seq<Request>)
    requires FramesIn(fs, lo, hi, sent) && Contiguous(fs, lo) && lo <= |sent|
    ensures lo + |fs| <= |sent| && Bodies(fs) == sent[lo..lo + |fs|]
  {
    if fs != [] { assert fs[|fs| - 1].no < hi; }
  }

  // The frames incarnation i has accepted, when it is live, are one stretch of
  // what the client sent.
  lemma LiveStretch(y: System, i: nat)
    requires Inv(y) && i < |y.incs| && y.incs[i].s.live.On?
    ensures var inc := y.incs[i];
            && inc.first + |inc.enq| <= |y.sent|
            && Bodies(inc.enq) == y.sent[inc.first..inc.first + |inc.enq|]
            && Bodies(inc.enq) == Bodies(inc.done) + Bodies(inc.s.inbox)
            && (Current(y, i) ==> inc.first + |inc.enq| == Dispatched(y))
  {
    var inc := y.incs[i];
    assert StretchInv(y, i);
    Pipelined(y, i);
    ContiguousIsSlice(inc.enq, inc.first, Horizon(y, i), y.sent);
  }

  // What the handler got, the buffer and the blocked worker hold is what the
  // worker took off the inbox before the half-close.
  lemma Pipelined(y: System, i: nat)
    requires IncsInv(y) && i < |y.incs|
    ensures var inc := y.incs[i];
            && Bodies(inc.enq) == Bodies(inc.done) + Bodies(inc.s.inbox)
            && inc.got + inc.s.recv + Held(inc.worker) == SentBeforeEnd(Bodies(inc.done))
            && (inc.sawEof.On? ==> HalfClosed(Bodies(inc.done)).On? && inc.got == SentBeforeEnd(Bodies(inc.done)))
  {
    var inc := y.incs[i];
    assert IncInv(inc, y.registered);
    BodiesConcat(inc.done, inc.s.inbox);
  }

  // What is between the dispatcher and the handler, oldest first: received,
  // buffered, held by the worker, and still in the inbox.
  function Inside(inc: Inc): seq<Payload> {
    inc.got + inc.s.recv + Held(inc.worker) + Sent(Bodies(inc.s.inbox))
  }

  // What the dispatcher holds and what NATS still holds.
  function Outside(y: System): seq<Payload>
    requires y.taken <= |y.sent|
  {
    (if y.dispatcher.Some? then Sent([y.dispatcher.value.frame.body]) else []) + Sent(y.sent[y.taken..])
  }

  lemma {:induction false} OpenMeansAllSent(rs: seq<Request>)
    requires HalfClosed(rs).Off?
    ensures SentBeforeEnd(rs) == Sent(rs)
  {
    if rs != [] { OpenMeansAllSent(rs[..|rs| - 1]); }
  }

  // The client sends no payload before its Call.
  ghost predicate DataFollowsCall(sent: seq<Request>) {
    forall i, j :: 0 <= i < j < |sent| && sent[j].Call? ==> !sent[i].Call? && !sent[i].Data?
  }

  lemma {:induction false} NothingSentBefore(rs: seq<Request>)
    requires forall i :: 0 <= i < |rs| ==> !rs[i].Data?
    ensures Sent(rs) == [] && SentBeforeEnd(rs) == []
  {
    if rs != [] { NothingSentBefore(rs[..|rs| - 1]); }
  }

  // The stream that took the Call was created before any payload was sent.
  lemma NothingBeforeCaller(y: System, i: nat)
    requires Inv(y) && i < |y.incs| && HasCall(y.incs[i]) && DataFollowsCall(y.sent)
    ensures y.incs[i].first <= |y.sent|
    ensures Sent(y.sent[..y.incs[i].first]) == [] && SentBeforeEnd(y.sent[..y.incs[i].first]) == []
  {
    var n := CallNumber(y, i);
    NothingSentBefore(y.sent[..y.incs[i].first]);
  }

  ghost predicate NoData(rs: seq<Request>, lo: int, hi: int) {
    forall k :: 0 <= lo <= k < hi && k < |rs| ==> !rs[k].Data?
  }

  // No payload was dispatched after the last frame stream i accepted.
  ghost predicate NothingDiverted(y: System, i: nat)
    requires i < |y.incs|
  {
    NoData(y.sent, y.incs[i].first + |y.incs[i].enq|, Dispatched(y))
  }

  /** Conservation, and exactly when it holds: for a live stream that took the
      Call and has not processed the half-close, what is inside the stream and
      outside it is what the client sent, in order, unless a payload was already
      dispatched to a newer stream of the same reply. */
  lemma ConservationExactly(y: System, i: nat)
    requires Inv(y) && i < |y.incs| && DataFollowsCall(y.sent) && HasCall(y.incs[i])
    requires y.incs[i].s.live.On? && HalfClosed(Bodies(y.incs[i].done)).Off?
    ensures Inside(y.incs[i]) + Outside(y) == Sent(y.sent) <==> NothingDiverted(y, i)
  {
    var inside, m, n := InsideIsStretch(y, i);
    var outside, d := OutsideIsRest(y);
    BeforeAndBeyond(y, i);
    AddsUp(inside, outside, y.sent, m, n, d);
  }

  // Inside is the stretch the stream accepted ...
  lemma InsideIsStretch(y: System, i: nat) returns (inside: seq<Payload>, m: nat, n: nat)
    requires Inv(y) && i < |y.incs|
    requires y.incs[i].s.live.On? && HalfClosed(Bodies(y.incs[i].done)).Off?
    ensures inside == Inside(y.incs[i]) && m == y.incs[i].first && n == m + |y.incs[i].enq|
    ensures n <= |y.sent| && inside == Sent(y.sent[m..n])
  {
    m, n := AcceptedStretch(y, i);
    inside := AcceptedPayloads(y, i);
  }

  lemma AcceptedStretch(y: System, i: nat) returns (m: nat, n: nat)
    requires Inv(y) && i < |y.incs| && y.incs[i].s.live.On?
    ensures m == y.incs[i].first && n == m + |y.incs[i].enq| && n <= |y.sent|
    ensures Bodies(y.incs[i].enq) == y.sent[m..n]
  {
    LiveStretch(y, i);
    m, n := y.incs[i].first, y.incs[i].first + |y.incs[i].enq|;
  }

  lemma AcceptedPayloads(y: System, i: nat) returns (inside: seq<Payload>)
    requires IncsInv(y) && i < |y.incs| && HalfClosed(Bodies(y.incs[i].done)).Off?
    ensures inside == Inside(y.incs[i]) == Sent(Bodies(y.incs[i].enq))
  {
    InsideIsAccepted(y, i);
    inside := Inside(y.incs[i]);
  }

  // ... outside is what is not dispatched ...
  lemma OutsideIsRest(y: System) returns (outside: seq<Payload>, d: nat)
    requires DispatchInv(y)
    ensures outside == Outside(y) && d == Dispatched(y) <= |y.sent| && outside == Sent(y.sent[d..])
  {
    Undispatched(y);
    outside, d := Outside(y), Dispatched(y);
  }

  // ... and the stretch lies between the payload-free start and the dispatcher.
  lemma BeforeAndBeyond(y: System, i: nat)
    requires Inv(y) && i < |y.incs| && DataFollowsCall(y.sent) && HasCall(y.incs[i]) && y.incs[i].s.live.On?
    ensures y.incs[i].first + |y.incs[i].enq| <= Dispatched(y) <= |y.sent|
    ensures Sent(y.sent[..y.incs[i].first]) == []
  {
    LiveEnqueuedWithinDispatched(y, i);
    NothingBeforeCaller(y, i);
  }

  lemma AddsUp(inside: seq<Payload>, outside: seq<Payload>, rs: seq<Request>, m: nat, n: nat, d: nat)
    requires m <= n <= d <= |rs| && Sent(rs[..m]) == []
    requires inside == Sent(rs[m..n]) && outside == Sent(rs[d..])
    ensures inside + outside == Sent(rs) <==> NoData(rs, n, d)
  {
    SkippedExactly(rs, m, n, d);
  }

  // Skipping rs[n..d] loses no payload exactly when it holds none.
  lemma SkippedExactly(rs: seq<Request>, m: nat, n: nat, d: nat)
    requires m <= n <= d <= |rs| && Sent(rs[..m]) == []
    ensures Sent(rs[m..n]) + Sent(rs[d..]) == Sent(rs) <==> NoData(rs, n, d)
  {
    SentInThree(rs, m, n);
    var mid, rest := rs[n..d], rs[d..];
    assert rs[n..] == mid + rest;
    SentConcat(mid, rest);
    SliceIsEmpty(rs, n, d);
    SandwichCancels(Sent(rs[m..n]), Sent(mid), Sent(rest));
  }

  lemma SliceIsEmpty(rs: seq<Request>, n: nat, d: nat)
    requires n <= d <= |rs|
    ensures Sent(rs[n..d]) == [] <==> NoData(rs, n, d)
  {
    var mid := rs[n..d];
    SentIsEmpty(mid);
    if Sent(mid) == [] {
      forall k | n <= k < d
        ensures !rs[k].Data?
      {
        assert !mid[k - n].Data?;
      }
    }
  }

  lemma LiveEnqueuedWithinDispatched(y: System, i: nat)
    requires Inv(y) && i < |y.incs| && y.incs[i].s.live.On?
    ensures y.incs[i].first + |y.incs[i].enq| <= Dispatched(y) <= |y.sent|
  {
    var inc := y.incs[i];
    assert StretchInv(y, i);
    if inc.enq != [] { assert inc.enq[|inc.enq| - 1].no < Horizon(y, i); }
  }

  lemma SandwichCancels<T>(a: seq<T>, b: seq<T>, c: seq<T>)
    ensures a + c == a + (b + c) <==> b == []
  {
    assert |a + c| == |a| + |c| && |a + (b + c)| == |a| + |b| + |c|;
    if b == [] { assert b + c == c; }
  }

  lemma {:induction false} SentIsEmpty(rs: seq<Request>)
    ensures Sent(rs) == [] <==> forall k :: 0 <= k < |rs| ==> !rs[k].Data?
  {
    if rs != [] {
      var front, last := rs[..|rs| - 1], rs[|rs| - 1];
      SentIsEmpty(front);
      if last.Data? {
        assert |Sent(rs)| == |Sent(front)| + 1;
      } else {
        assert forall k :: 0 <= k < |front| ==> front[k] == rs[k];
      }
    }
  }

  /** Conservation for whatever live stream is the entry of Server.streams: nothing of
      what was sent from the frame that created it is lost. */
  lemma ConservationSince(y: System, i: nat)
    requires Inv(y) && i < |y.incs| && y.mapped == Some(i)
    requires y.incs[i].s.live.On? && HalfClosed(Bodies(y.incs[i].done)).Off?
    ensures y.incs[i].first <= |y.sent| && y.taken <= |y.sent|
    ensures Inside(y.incs[i]) + Outside(y) == Sent(y.sent[y.incs[i].first..])
  {
    var inside, m, n := InsideToDispatcher(y, i);
    var outside, d := OutsideIsRest(y);
    SentInTwo(y.sent, m, n);
  }

  // Inside the entry of the map is everything dispatched since it was created.
  lemma InsideToDispatcher(y: System, i: nat) returns (inside: seq<Payload>, m: nat, n: nat)
    requires Inv(y) && i < |y.incs| && y.mapped == Some(i)
    requires y.incs[i].s.live.On? && HalfClosed(Bodies(y.incs[i].done)).Off?
    ensures inside == Inside(y.incs[i]) && m == y.incs[i].first && n == Dispatched(y)
    ensures m <= n <= |y.sent| && inside == Sent(y.sent[m..n])
  {
    LiveStretch(y, i);
    inside, m, n := InsideIsStretch(y, i);
  }

  lemma SentInTwo(rs: seq<Request>, m: nat, n: nat)
    requires m <= n <= |rs|
    ensures Sent(rs[m..]) == Sent(rs[m..n]) + Sent(rs[n..])
  {
    assert rs[m..] == rs[m..n] + rs[n..];
    SentConcat(rs[m..n], rs[n..]);
  }

  /** All of what was sent, for a stream that the Call created. */
  lemma ConservationFromTheCall(y: System, i: nat)
    requires Inv(y) && i < |y.incs| && y.mapped == Some(i) && DataFollowsCall(y.sent)
    requires y.incs[i].s.live.On? && HalfClosed(Bodies(y.incs[i].done)).Off?
    requires y.incs[i].first < |y.sent| && y.sent[y.incs[i].first].Call?
    ensures y.taken <= |y.sent| && Inside(y.incs[i]) + Outside(y) == Sent(y.sent)
  {
    var first := y.incs[i].first;
    ConservationSince(y, i);
    NothingSentBefore(y.sent[..first]);
    SentFrom(y.sent, first);
  }

  lemma SentFrom(rs: seq<Request>, m: nat)
    requires m <= |rs| && Sent(rs[..m]) == []
    ensures Sent(rs[m..]) == Sent(rs)
  {
    assert rs == rs[..m] + rs[m..];
    SentConcat(rs[..m], rs[m..]);
  }

  /** Conservation while the stream is still the entry of Server.streams. */
  lemma Conservation(y: System, i: nat)
    requires Inv(y) && i < |y.incs| && DataFollowsCall(y.sent) && HasCall(y.incs[i])
    requires y.incs[i].s.live.On? && HalfClosed(Bodies(y.incs[i].done)).Off?
    requires y.mapped == Some(i)
    ensures Inside(y.incs[i]) + Outside(y) == Sent(y.sent)
  {
    LiveStretch(y, i);
    ConservationExactly(y, i);
  }

  // Until the half-close is processed, a stream holds or has handed over every
  // payload it accepted.
  lemma InsideIsAccepted(y: System, i: nat)
    requires IncsInv(y) && i < |y.incs| && HalfClosed(Bodies(y.incs[i].done)).Off?
    ensures Inside(y.incs[i]) == Sent(Bodies(y.incs[i].enq))
  {
    var inc := y.incs[i];
    Pipelined(y, i);
    OpenMeansAllSent(Bodies(inc.done));
    SentConcat(Bodies(inc.done), Bodies(inc.s.inbox));
  }

  lemma SentInThree(rs: seq<Request>, m: nat, n: nat)
    requires m <= n <= |rs| && Sent(rs[..m]) == []
    ensures Sent(rs) == Sent(rs[m..n]) + Sent(rs[n..])
  {
    var a, b, c := rs[..m], rs[m..n], rs[n..];
    CutInThree(rs, m, n);
    SentConcat(a, b + c);
    SentConcat(b, c);
  }

  lemma CutInThree<T>(s: seq<T>, m: nat, n: nat)
    requires m <= n <= |s|
    ensures s == s[..m] + (s[m..n] + s[n..])
  {}

  // What has not been dispatched is the frame the dispatcher holds and what NATS
  // still holds.
  lemma Undispatched(y: System)
    requires DispatchInv(y)
    ensures Sent(y.sent[Dispatched(y)..]) == Outside(y)
  {
    if y.dispatcher.Some? {
      assert y.sent[Dispatched(y)..] == [y.dispatcher.value.frame.body] + y.sent[y.taken..];
      SentConcat([y.dispatcher.value.frame.body], y.sent[y.taken..]);
    }
  }

  lemma {:induction false} HalfClosedConcat(a: seq<Request>, b: seq<Request>)
    ensures HalfClosed(a + b) == if HalfClosed(a).On? then On else HalfClosed(b)
  {
    if b == [] {
      assert a + b == a;
    } else {
      var front, last := b[..|b| - 1], b[|b| - 1];
      HalfClosedConcat(a, front);
      assert a + b == (a + front) + [last];
      HalfClosedAppend(a + front, last);
    }
  }

  lemma {:induction false} SentBeforeEndConcat(a: seq<Request>, b: seq<Request>)
    ensures SentBeforeEnd(a + b) == SentBeforeEnd(a) + (if HalfClosed(a).On? then [] else SentBeforeEnd(b))
  {
    if b == [] {
      assert a + b == a;
    } else {
      var front, last := b[..|b| - 1], b[|b| - 1];
      SentBeforeEndConcat(a, front);
      HalfClosedConcat(a, front);
      HalfClosedAppend(a + front, last);
      assert a + b == (a + front) + [last];
    }
  }

  /** A clean EOF: if the handler has seen io.EOF and its context is live, the client
      has half-closed since the stream was created and the handler has received
      exactly the payloads sent from then until the half-close. */
  lemma EofMeansEverything(y: System, i: nat)
    requires Inv(y) && i < |y.incs| && y.incs[i].s.live.On? && y.incs[i].sawEof.On?
    ensures y.incs[i].first <= |y.sent|
    ensures y.incs[i].got == SentBeforeEnd(y.sent[y.incs[i].first..]) && HalfClosed(y.sent[y.incs[i].first..]).On?
  {
    var inc := y.incs[i];
    LiveStretch(y, i);
    Pipelined(y, i);
    HalfClosedInside(y.sent, inc.first, Bodies(inc.done), Bodies(inc.s.inbox));
  }

  // A half-close processed within a stretch is the first one from its start.
  lemma HalfClosedInside(rs: seq<Request>, m: nat, done: seq<Request>, rest: seq<Request>)
    requires m + |done| + |rest| <= |rs| && rs[m..m + |done| + |rest|] == done + rest
    requires HalfClosed(done).On?
    ensures SentBeforeEnd(rs[m..]) == SentBeforeEnd(done) && HalfClosed(rs[m..]).On?
  {
    var n := m + |done| + |rest|;
    TailOf(rs, m, n, done, rest);
    SentBeforeEndConcat(done, rest + rs[n..]);
    HalfClosedConcat(done, rest + rs[n..]);
  }

  lemma TailOf<T>(s: seq<T>, m: nat, n: nat, a: seq<T>, b: seq<T>)
    requires m <= n <= |s| && s[m..n] == a + b
    ensures s[m..] == a + (b + s[n..])
  {
    assert s[m..] == s[m..n] + s[n..];
  }

  /** For the stream that took the Call these are all payloads the client sent before
      its half-close, exactly unless an earlier half-close went to an older stream
      and payloads followed it. */
  lemma EofSinceTheCallExactly(y: System, i: nat)
    requires Inv(y) && i < |y.incs| && y.incs[i].s.live.On? && y.incs[i].sawEof.On?
    requires HasCall(y.incs[i]) && DataFollowsCall(y.sent)
    ensures y.incs[i].first <= |y.sent|
    ensures y.incs[i].got == SentBeforeEnd(y.sent) <==>
              HalfClosed(y.sent[..y.incs[i].first]).Off? || SentBeforeEnd(y.sent[y.incs[i].first..]) == []
  {
    EofMeansEverything(y, i);
    NothingBeforeCaller(y, i);
    CutAt(y.sent, y.incs[i].first);
  }

  /** When no payload follows a half-close, a clean EOF means that the handler has
      received every payload. */
  lemma EofMeansAllSent(y: System, i: nat)
    requires Inv(y) && i < |y.incs| && y.incs[i].s.live.On? && y.incs[i].sawEof.On?
    requires HasCall(y.incs[i]) && DataFollowsCall(y.sent) && SentBeforeEnd(y.sent) == Sent(y.sent)
    ensures y.incs[i].got == Sent(y.sent)
  {
    EofSinceTheCallExactly(y, i);
    EofMeansEverything(y, i);
    NothingBeforeCaller(y, i);
    var first := y.incs[i].first;
    CutAt(y.sent, first);
    TailSent(y.sent, first);
  }

  // With every payload before the half-close, so is every payload of a tail.
  lemma TailSent(rs: seq<Request>, m: nat)
    requires m <= |rs| && SentBeforeEnd(rs[..m]) == [] && Sent(rs[..m]) == [] && SentBeforeEnd(rs) == Sent(rs)
    ensures SentBeforeEnd(rs[m..]) == Sent(rs)
  {
    assert rs == rs[..m] + rs[m..];
    SentConcat(rs[..m], rs[m..]);
    CutAt(rs, m);
    BeforeEndIsPrefix(rs[m..]);
  }

  lemma CutAt(rs: seq<Request>, m: nat)
    requires m <= |rs| && SentBeforeEnd(rs[..m]) == []
    ensures SentBeforeEnd(rs) == if HalfClosed(rs[..m]).Off? then SentBeforeEnd(rs[m..]) else []
  {
    assert rs == rs[..m] + rs[m..];
    SentBeforeEndConcat(rs[..m], rs[m..]);
  }

  lemma {:induction false} SubsequenceAppend<T(!new)>(a: seq<T>, b: seq<T>, x: T)
    requires Subsequence(a, b)
    ensures Subsequence(a, b + [x]) && Subsequence(a + [x], b + [x])
  {
    assert (b + [x])[..|b|] == b;
    assert (a + [x])[..|a|] == a;
  }

  lemma {:induction false} SubsequencePrefix<T(!new)>(a: seq<T>, b: seq<T>, n: nat)
    requires Subsequence(a, b) && n <= |a|
    ensures Subsequence(a[..n], b)
    decreases |b|
  {
    if n == 0 {
    } else if b != [] {
      var b' := b[..|b| - 1];
      if Subsequence(a, b') {
        SubsequencePrefix(a, b', n);
      } else {
        var a' := a[..|a| - 1];
        if n == |a| {
          assert a[..n] == a;
        } else {
          assert a'[..n] == a[..n];
          SubsequencePrefix(a', b', n);
        }
      }
    }
  }

  // Frames with increasing numbers carry a subsequence of the payloads sent.
  lemma {:induction false} IncreasingIsSubsequence(fs: seq<Frame>, n: nat, sent: seq<Request>)
    requires FramesIn(fs, 0, n, sent) && n <= |sent|
    ensures Subsequence(Sent(Bodies(fs)), Sent(sent[..n]))
    decreases n
  {
    if fs != [] {
      FramesFront(fs, n, sent);
      if fs[|fs| - 1].no == n - 1 {
        var front := fs[..|fs| - 1];
        IncreasingIsSubsequence(front, n - 1, sent);
        OneMoreSent(Bodies(front), sent, n, On);
      } else {
        IncreasingIsSubsequence(fs, n - 1, sent);
        OneMoreSent(Bodies(fs), sent, n, Off);
      }
    }
  }

  lemma FramesFront(fs: seq<Frame>, n: nat, sent: seq<Request>)
    requires FramesIn(fs, 0, n, sent) && n <= |sent| && fs != []
    ensures n > 0
    ensures var front, last := fs[..|fs| - 1], fs[|fs| - 1];
            if last.no == n - 1 then FramesIn(front, 0, n - 1, sent) && Bodies(fs) == Bodies(front) + [sent[n - 1]]
            else FramesIn(fs, 0, n - 1, sent)
  {
    var front, last := fs[..|fs| - 1], fs[|fs| - 1];
    assert forall k :: 0 <= k < |front| ==> front[k] == fs[k] && fs[k].no < last.no;
    assert last.body == sent[last.no];
  }

  // One more request sent, taken by the stream as well or not.
  lemma OneMoreSent(rs: seq<Request>, sent: seq<Request>, n: nat, taken: Flag)
    requires 0 < n <= |sent| && Subsequence(Sent(rs), Sent(sent[..n - 1]))
    ensures Subsequence(Sent(if taken.On? then rs + [sent[n - 1]] else rs), Sent(sent[..n]))
  {
    var r := sent[n - 1];
    assert sent[..n] == sent[..n - 1] + [r];
    SentAppend(sent[..n - 1], r);
    SentAppend(rs, r);
    if r.Data? { SubsequenceAppend(Sent(rs), Sent(sent[..n - 1]), r.payload); }
  }

  lemma {:induction false} BeforeEndIsPrefix(rs: seq<Request>)
    ensures |SentBeforeEnd(rs)| <= |Sent(rs)| && SentBeforeEnd(rs) == Sent(rs)[..|SentBeforeEnd(rs)|]
  {
    if rs != [] {
      var front, last := rs[..|rs| - 1], rs[|rs| - 1];
      BeforeEndIsPrefix(front);
      if HalfClosed(front).Off? { OpenMeansAllSent(front); }
    }
  }

  lemma Enlarge(fs: seq<Frame>, lo: nat, hi: nat, sent: seq<Request>)
    requires FramesIn(fs, lo, hi, sent) && hi <= |sent|
    ensures FramesIn(fs, 0, |sent|, sent)
  {}

  /** Whatever is cancelled and whatever enqueue drops, every stream of the reply
      hands its handler a subsequence of the payloads the client sent. */
  lemma NothingInvented(y: System, i: nat)
    requires Inv(y) && i < |y.incs|
    ensures Subsequence(y.incs[i].got, Sent(y.sent))
  {
    var inc := y.incs[i];
    assert StretchInv(y, i);
    Enlarge(inc.enq, inc.first, Horizon(y, i), y.sent);
    IncreasingIsSubsequence(inc.enq, |y.sent|, y.sent);
    assert y.sent[..|y.sent|] == y.sent;
    GotIsAccepted(y, i);
    SubsequencePrefix(Sent(Bodies(inc.enq)), Sent(y.sent), |inc.got|);
  }

  lemma GotIsAccepted(y: System, i: nat)
    requires IncsInv(y) && i < |y.incs|
    ensures var inc := y.incs[i];
            |inc.got| <= |Sent(Bodies(inc.enq))| && inc.got == Sent(Bodies(inc.enq))[..|inc.got|]
  {
    var inc := y.incs[i];
    Pipelined(y, i);
    assert inc.got + (inc.s.recv + Held(inc.worker)) == SentBeforeEnd(Bodies(inc.done));
    GotIsPrefix(inc.got, inc.s.recv + Held(inc.worker), Bodies(inc.done), Bodies(inc.s.inbox));
  }

  lemma GotIsPrefix(got: seq<Payload>, rest: seq<Payload>, done: seq<Request>, inbox: seq<Request>)
    requires got + rest == SentBeforeEnd(done)
    ensures |got| <= |Sent(done + inbox)| && got == Sent(done + inbox)[..|got|]
  {
    SentConcat(done, inbox);
    BeforeEndIsPrefix(done);
  }

  // ---------------------------------------------------------------------
  // One Call, one handler, one End
  // ---------------------------------------------------------------------

  lemma {:induction false} DigestErased(out: seq<Response>)
    ensures DigestOf(ErasePongs(out)) == DigestOf(out)
    ensures Payloads(ErasePongs(out)) == Payloads(out)
  {
    if out != [] {
      var front, last := out[..|out| - 1], out[|out| - 1];
      DigestErased(front);
      if !last.Pong? {
        DigestAppend(ErasePongs(front), last);
        PayloadsAppend(ErasePongs(front), last);
      }
    }
  }

  // The reply inbox digests like the stream that took the Call, if any did.
  lemma InboxDigest(y: System)
    requires Inv(y)
    ensures (forall i :: 0 <= i < |y.incs| ==> !HasCall(y.incs[i])) ==> DigestOf(y.published) == NOTHING_SEEN
    ensures forall i :: 0 <= i < |y.incs| && HasCall(y.incs[i]) ==> DigestOf(y.published) == DigestOf(y.incs[i].out)
  {
    DigestErased(y.published);
    forall i | 0 <= i < |y.incs| && HasCall(y.incs[i])
      ensures DigestOf(y.published) == DigestOf(y.incs[i].out)
    {
      DigestErased(y.incs[i].out);
    }
  }

  /** Across all the streams late frames create for one reply inbox, at most one
      handler is launched. */
  lemma OneHandler(y: System, i: nat, j: nat)
    requires Inv(y) && OneCall(y.sent) && i < |y.incs| && j < |y.incs|
    ensures y.incs[i].launches <= 1
    ensures i != j ==> y.incs[i].launches + y.incs[j].launches <= 1
  {
    assert IncInv(y.incs[i], y.registered) && IncInv(y.incs[j], y.registered);
    if i != j { CallTakenOnce(y, i); }
  }

  /** At most one End reaches the reply inbox, and nothing but Pongs follows an
      End with OK status, whatever publications fail. */
  lemma OneEnd(y: System)
    requires Inv(y) && OneCall(y.sent)
    ensures forall i, j :: 0 <= i < j < |y.published| ==> !(y.published[i].Finish? && y.published[j].Finish?)
    ensures OkFinishIsLast(y.published)
  {
    InboxDigest(y);
    DigestIsOrder(y.published);
    if i :| 0 <= i < |y.incs| && HasCall(y.incs[i]) {
      assert IncInv(y.incs[i], y.registered);
    }
  }

  /** With every publication succeeding, the reply inbox carries a prefix of
      Begin Data* End, Pongs aside. */
  lemma InboxGrammar(y: System)
    requires Inv(y) && OneCall(y.sent)
    requires forall i :: 0 <= i < |y.incs| ==> y.incs[i].failed.Off?
    ensures Grammar(ErasePongs(y.published))
  {
    InboxDigest(y);
    DigestIsGrammar(y.published);
    if i :| 0 <= i < |y.incs| && HasCall(y.incs[i]) {
      assert IncInv(y.incs[i], y.registered);
    }
  }

  // ---------------------------------------------------------------------
  // Stats
  // ---------------------------------------------------------------------

  ghost predicate HasStatEnd(t: seq<StatEvent>) { exists k :: 0 <= k < |t| && t[k].StatEnd? }

  /** Every stream reports one leading Begin and at most one End; it reports End
      exactly when Begin preceded the first finalize, and then with that
      finalize's error. */
  lemma StatsLifecycle(y: System, i: nat)
    requires Inv(y) && i < |y.incs|
    ensures OrderlyTrace(y.incs[i].s.stats)
    ensures HasStatEnd(y.incs[i].s.stats) <==> y.incs[i].begunAtEnd.On?
    ensures y.incs[i].begunAtEnd.On? ==> StatEnd(y.incs[i].s.endErr) in y.incs[i].s.stats
  {
    var inc := y.incs[i];
    assert IncInv(inc, y.registered);
    StatPhaseMeaning(inc.s.stats);
  }

  /** A stream whose finalize has completed is not the entry of Server.streams. */
  lemma RemovedIsUnmapped(y: System, i: nat)
    requires Inv(y) && i < |y.incs| && y.incs[i].removed.On?
    ensures y.mapped != Some(i) && y.incs[i].s.finalized.On?
  {
    EntryIsNotRemoved(y);
    RemovedIsFinalized(y.incs[i], y.registered);
  }

  lemma EntryIsNotRemoved(y: System)
    requires DispatchInv(y)
    ensures y.mapped.Some? ==> y.mapped.value < |y.incs| && y.incs[y.mapped.value].removed.Off?
  {}

  lemma RemovedIsFinalized(inc: Inc, registered: Flag)
    requires IncInv(inc, registered)
    ensures inc.removed.On? ==> inc.s.finalized.On?
  {
    assert CloseInv(inc, registered);
  }
}
