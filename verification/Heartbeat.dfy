// The heartbeat of a client stream (pingLoop, pongMonitor and processPong in
// pkg/rpc/client.go), in real time counted from the start of the stream. Tickers
// are punctual: pings leave and the monitor looks at every multiple of the interval.
module Heartbeat {
  import opened Wire

  const DEFAULT_INTERVAL: real := 5.0
  const DEFAULT_TIMEOUT: real := 15.0

  // The k-th tick.
  function Tick(interval: real, k: nat): real { (k as real) * interval }

  // lastPongTime at time t: the latest Pong recorded by then, or the start.
  function LastPong(pongs: seq<real>, t: real): real {
    if pongs == [] then 0.0
    else
      var rest := LastPong(pongs[1..], t);
      if rest < pongs[0] <= t then pongs[0] else rest
  }

  // time.Since(lastPongTime) at the k-th tick.
  function Elapsed(pongs: seq<real>, interval: real, k: nat): real {
    Tick(interval, k) - LastPong(pongs, Tick(interval, k))
  }

  lemma {:induction false} LastPongIsLatest(pongs: seq<real>, t: real)
    ensures LastPong(pongs, t) == 0.0 || (LastPong(pongs, t) in pongs && LastPong(pongs, t) <= t)
    ensures forall p :: p in pongs && p <= t ==> p <= LastPong(pongs, t)
    ensures LastPong(pongs, t) >= 0.0
  {
    if pongs != [] {
      LastPongIsLatest(pongs[1..], t);
      assert pongs == [pongs[0]] + pongs[1..];
    }
  }

  // pongMonitor, stopped after `ticks` ticks if it does not fire: the tick at which
  // it closes the stream, the first one more than the timeout after the last Pong.
  method PongMonitor(interval: real, timeout: real, pongs: seq<real>, ticks: nat) returns (fired: Option<nat>)
    ensures fired.Some? ==> 1 <= fired.value <= ticks && Elapsed(pongs, interval, fired.value) > timeout
    ensures forall k :: 1 <= k <= ticks && (fired.Some? ==> k < fired.value) ==> Elapsed(pongs, interval, k) <= timeout
  {
    var k := 0;
    while k < ticks
      invariant 0 <= k <= ticks
      invariant forall j :: 1 <= j <= k ==> Elapsed(pongs, interval, j) <= timeout
    {
      k := k + 1;
      var now := Tick(interval, k);
      var elapsed := now - LastPong(pongs, now);
      if elapsed > timeout {
        return Some(k);
      }
    }
    fired := None;
  }

  // ---------------------------------------------------------------------
  // No false alarm
  // ---------------------------------------------------------------------

  // The fate of each ping: how long after it its Pong is recorded, if ever.
  type Fates = nat -> Option<real>

  // Pongs take at most `delay`, and of any losses + 1 pings in a row one is answered.
  ghost predicate AnsweredWithin(fates: Fates, i: nat, losses: nat) {
    exists j: nat :: i <= j <= i + losses && fates(j).Some?
  }

  ghost predicate Admissible(fates: Fates, losses: nat, delay: real) {
    && (forall i: nat :: fates(i).Some? ==> 0.0 <= fates(i).value <= delay)
    && (forall i: nat :: AnsweredWithin(fates, i, losses))
  }

  function Arrival(interval: real, fates: Fates, i: nat): real
    requires fates(i).Some?
  {
    Tick(interval, i) + fates(i).value
  }

  // `pongs` are the arrivals of the pings 1, 2, ...
  ghost predicate Recorded(interval: real, fates: Fates, pongs: seq<real>, until: real) {
    && (forall i :: 1 <= i && fates(i).Some? && Arrival(interval, fates, i) <= until ==>
          Arrival(interval, fates, i) in pongs)
    && (forall p :: p in pongs ==> exists i :: 1 <= i && fates(i).Some? && p == Arrival(interval, fates, i))
  }

  // A tick strictly between the timeout and the longest admissible silence.
  ghost predicate TickBetween(interval: real, timeout: real, losses: nat, delay: real) {
    exists m :: timeout < Tick(interval, m) < Tick(interval, losses + 1) + delay
  }

  // No admissible course of events makes the monitor fire.
  ghost predicate NeverFires(interval: real, timeout: real, losses: nat, delay: real) {
    forall fates, pongs, k ::
      (1 <= k && Admissible(fates, losses, delay) && Recorded(interval, fates, pongs, Tick(interval, k)))
      ==> Elapsed(pongs, interval, k) <= timeout
  }

  lemma TickSum(interval: real, a: nat, b: nat)
    ensures Tick(interval, a + b) == Tick(interval, a) + Tick(interval, b)
  {}

  lemma TickOrder(interval: real, a: nat, b: nat)
    requires interval > 0.0
    ensures a <= b <==> Tick(interval, a) <= Tick(interval, b)
  {
    if a <= b {
      TickSum(interval, a, b - a);
      assert Tick(interval, b - a) >= 0.0;
    } else {
      TickSum(interval, b, a - b);
      assert (a - b) as real >= 1.0;
      assert Tick(interval, a - b) >= interval;
    }
  }

  // The first tick after the timeout.
  lemma FirstTickAfter(interval: real, timeout: real) returns (m: nat)
    requires interval > 0.0 && timeout >= 0.0
    ensures m >= 1 && Tick(interval, m) > timeout && Tick(interval, m - 1) <= timeout
  {
    m := (timeout / interval).Floor + 1;
    var q := timeout / interval;
    assert q * interval == timeout;
    assert (m - 1) as real <= q < m as real;
    MulOrder((m - 1) as real, q, interval);
    MulStrict(q, m as real, interval);
  }

  lemma MulOrder(a: real, b: real, c: real)
    requires a <= b && c > 0.0
    ensures a * c <= b * c
  {}

  lemma MulStrict(a: real, b: real, c: real)
    requires a < b && c > 0.0
    ensures a * c < b * c
  {}

  lemma FalseAlarmFree(interval: real, timeout: real, losses: nat, delay: real, fates: Fates, pongs: seq<real>, k: nat)
    requires interval > 0.0 && timeout >= 0.0 && delay >= 0.0
    requires !TickBetween(interval, timeout, losses, delay)
    requires 1 <= k && Admissible(fates, losses, delay) && Recorded(interval, fates, pongs, Tick(interval, k))
    ensures Elapsed(pongs, interval, k) <= timeout
  {
    var now := Tick(interval, k);
    LastPongIsLatest(pongs, now);
    var m := FirstTickAfter(interval, timeout);
    assert Tick(interval, m) >= Tick(interval, losses + 1) + delay;
    if k < m {
      TickOrder(interval, k, m - 1);
    } else {
      var first := k - m + 1;
      assert AnsweredWithin(fates, first, losses);
      var j: nat :| first <= j <= first + losses && fates(j).Some?;
      TickOrder(interval, first, j);
      TickOrder(interval, j, first + losses);
      TickSum(interval, k - m, losses + 1);
      TickSum(interval, k - m, m);
      assert Arrival(interval, fates, j) <= now;
      assert Tick(interval, first) <= LastPong(pongs, now);
      TickSum(interval, first, m - 1);
    }
  }

  // The first `losses` Pongs are lost and the others take `delay`.
  lemma FalseAlarm(interval: real, timeout: real, losses: nat, delay: real, m: nat)
    requires interval > 0.0 && timeout >= 0.0 && delay >= 0.0
    requires timeout < Tick(interval, m) < Tick(interval, losses + 1) + delay
    ensures !NeverFires(interval, timeout, losses, delay)
  {
    var fates: Fates := i => if 1 <= i <= losses then None else Some(delay);
    assert Admissible(fates, losses, delay) by {
      forall i: nat ensures AnsweredWithin(fates, i, losses) {
        var j: nat := if 1 <= i <= losses then losses + 1 else i;
        assert i <= j <= i + losses && fates(j).Some?;
      }
    }
    forall i: nat | 1 <= i && fates(i).Some? ensures Arrival(interval, fates, i) > Tick(interval, m) {
      TickOrder(interval, losses + 1, i);
    }
    assert Recorded(interval, fates, [], Tick(interval, m));
    assert LastPong([], Tick(interval, m)) == 0.0;
    assert Elapsed([], interval, m) > timeout;
    assert m >= 1;
  }

  /** With Pongs taking at most `delay` and at most `losses` lost in a row, the
      monitor never fires exactly when no tick falls strictly between the timeout
      and (losses + 1) intervals plus the delay. */
  lemma NeverFiresExactly(interval: real, timeout: real, losses: nat, delay: real)
    requires interval > 0.0 && timeout >= 0.0 && delay >= 0.0
    ensures NeverFires(interval, timeout, losses, delay) <==> !TickBetween(interval, timeout, losses, delay)
  {
    if TickBetween(interval, timeout, losses, delay) {
      var m :| timeout < Tick(interval, m) < Tick(interval, losses + 1) + delay;
      FalseAlarm(interval, timeout, losses, delay, m);
    } else {
      forall fates, pongs, k |
        1 <= k && Admissible(fates, losses, delay) && Recorded(interval, fates, pongs, Tick(interval, k))
        ensures Elapsed(pongs, interval, k) <= timeout
      {
        FalseAlarmFree(interval, timeout, losses, delay, fates, pongs, k);
      }
    }
  }

  /** In particular a timeout of that length is enough. */
  lemma LongTimeoutNeverFires(interval: real, timeout: real, losses: nat, delay: real)
    requires interval > 0.0 && delay >= 0.0 && Tick(interval, losses + 1) + delay <= timeout
    ensures NeverFires(interval, timeout, losses, delay)
  {
    assert (losses + 1) as real > 0.0;
    assert Tick(interval, losses + 1) > 0.0;
    NeverFiresExactly(interval, timeout, losses, delay);
  }

  /** The documented constraint, timeout > interval, is not: below two intervals one
      lost Pong can tear the stream down. */
  lemma OneLostPong(interval: real, timeout: real, delay: real)
    requires interval > 0.0 && interval < timeout < interval + interval && delay > 0.0
    ensures !NeverFires(interval, timeout, 1, delay)
  {
    assert Tick(interval, 2) == interval + interval;
    assert timeout < Tick(interval, 2) < Tick(interval, 1 + 1) + delay;
    NeverFiresExactly(interval, timeout, 1, delay);
  }

  // ---------------------------------------------------------------------
  // Detection
  // ---------------------------------------------------------------------

  /** If no Pong is recorded after time `last` and the monitor has not fired by then,
      it fires at the first tick after last + timeout: more than the timeout and at
      most the timeout and one interval after the last Pong. */
  lemma DetectionBounds(interval: real, timeout: real, pongs: seq<real>, last: real, k: nat)
    requires interval > 0.0 && timeout >= 0.0
    requires last == 0.0 || last in pongs
    requires last >= 0.0 && forall p :: p in pongs ==> p <= last
    requires 1 <= k && Elapsed(pongs, interval, k) > timeout
    requires forall j :: 1 <= j < k ==> Elapsed(pongs, interval, j) <= timeout
    requires Tick(interval, k) >= last
    ensures last + timeout < Tick(interval, k) <= last + timeout + interval
  {
    LastPongIsLatest(pongs, Tick(interval, k));
    assert LastPong(pongs, Tick(interval, k)) == last;
    TickSum(interval, k - 1, 1);
    LastPongIsLatest(pongs, Tick(interval, k - 1));
    if k == 1 {
      assert Tick(interval, 0) == 0.0;
    } else {
      assert Elapsed(pongs, interval, k - 1) <= timeout;
    }
  }

  /** It does fire: some tick meets the condition. */
  lemma DetectionHappens(interval: real, timeout: real, pongs: seq<real>, last: real) returns (k: nat)
    requires interval > 0.0 && timeout >= 0.0 && last >= 0.0
    requires forall p :: p in pongs ==> p <= last
    ensures 1 <= k && Elapsed(pongs, interval, k) > timeout && Tick(interval, k) <= last + timeout + interval
  {
    k := FirstTickAfter(interval, last + timeout);
    TickSum(interval, k - 1, 1);
    LastPongIsLatest(pongs, Tick(interval, k));
  }

  /** With the defaults that is 15 to 20 seconds after the last Pong, not the 10 to
      15 seconds after the server's death of HEARTBEAT.md: a server that answers the
      first ping in 0.1 s and dies 0.1 s later is given up at 25 s, 19.8 s later. */
  lemma DefaultsAreSlower()
    ensures Elapsed([5.1], DEFAULT_INTERVAL, 5) > DEFAULT_TIMEOUT && Tick(DEFAULT_INTERVAL, 5) - 5.2 > 15.0
    ensures forall k :: 1 <= k < 5 ==> Elapsed([5.1], DEFAULT_INTERVAL, k) <= DEFAULT_TIMEOUT
  {
    assert [5.1][1..] == [];
    assert LastPong([5.1][1..], 5.0) == 0.0;
    assert Tick(DEFAULT_INTERVAL, 1) == 5.0 && Tick(DEFAULT_INTERVAL, 2) == 10.0;
    assert Tick(DEFAULT_INTERVAL, 3) == 15.0 && Tick(DEFAULT_INTERVAL, 4) == 20.0;
  }
}
