/** Small vocabulary shared by the agents: optional values, sequences of times, and the clock. */
module Prelude {
  datatype Option<+T> = None | Some(value: T) {
    function GetOr(default: T): T {
      match this
      case Some(v) => v
      case None => default
    }
  }

  function Min(a: real, b: real): real { if a <= b then a else b }

  function Max(a: real, b: real): real { if a <= b then b else a }

  function Abs(a: real): real { if a < 0.0 then -a else a }

  /** The last n elements of s, or all of s when it is shorter. */
  function LastN<T>(s: seq<T>, n: nat): seq<T> {
    if |s| <= n then s else s[|s| - n..]
  }

  /** Appending to a buffer that keeps n elements gives the same buffer as keeping n of the full log. */
  lemma LastNAppend<T>(s: seq<T>, x: T, n: nat)
    ensures LastN(LastN(s, n) + [x], n) == LastN(s + [x], n)
  {
  }

  ghost predicate Nondecreasing(ts: seq<real>) {
    forall i, j | 0 <= i <= j < |ts| :: ts[i] <= ts[j]
  }

  /** Each time is at least gap later than every one before it. */
  ghost predicate Spaced(ts: seq<real>, gap: real) {
    forall i, j | 0 <= i < j < |ts| :: ts[j] >= ts[i] + gap
  }

  function CountIn(ts: seq<real>, lo: real, hi: real): nat {
    if ts == [] then 0
    else CountIn(ts[..|ts| - 1], lo, hi) + if lo <= ts[|ts| - 1] <= hi then 1 else 0
  }

  lemma MulMonotone(a: real, b: real, c: real)
    requires a <= b && c >= 0.0
    ensures a * c <= b * c
  {
  }

  lemma MulPositive(a: real, c: real)
    requires a > 0.0 && c > 0.0
    ensures a * c > 0.0
  {
  }

  function Gaps(n: int, gap: real): real {
    n as real * gap
  }

  lemma OneMoreGap(n: int, gap: real)
    ensures Gaps(n, gap) == Gaps(n - 1, gap) + gap
    ensures Gaps(0, gap) == 0.0
  {
  }

  /** In a spaced sequence, the last time seen in a window is (count - 1) gaps past its left edge. */
  lemma {:induction false} LastInWindow(ts: seq<real>, gap: real, lo: real, hi: real) returns (k: nat)
    requires gap >= 0.0 && Spaced(ts, gap) && CountIn(ts, lo, hi) > 0
    ensures k < |ts| && lo <= ts[k] <= hi
    ensures ts[k] >= lo + Gaps(CountIn(ts, lo, hi) - 1, gap)
  {
    hide Gaps;
    var n := |ts| - 1;
    var init := ts[..n];
    OneMoreGap(CountIn(init, lo, hi), gap);
    if lo <= ts[n] <= hi {
      k := n;
      if CountIn(init, lo, hi) > 0 {
        var p := LastInWindow(init, gap, lo, hi);
      }
    } else {
      k := LastInWindow(init, gap, lo, hi);
    }
  }

  lemma DivideBound(q: real, gap: real, span: real)
    requires gap > 0.0 && q * gap <= span
    ensures q <= span / gap
  {
  }

  /** A window of length at most span holds at most floor(span / gap) + 1 spaced times. */
  lemma SpacedCount(ts: seq<real>, gap: real, lo: real, span: real)
    requires gap > 0.0 && span >= 0.0 && Spaced(ts, gap)
    ensures CountIn(ts, lo, lo + span) <= (span / gap).Floor + 1
  {
    var n := CountIn(ts, lo, lo + span);
    if n > 0 {
      var k := LastInWindow(ts, gap, lo, lo + span);
      var q := (n - 1) as real;
      assert q * gap <= span;
      DivideBound(q, gap, span);
      assert ((n - 1) as real).Floor == n - 1;
    }
  }

  /** Time never runs backwards, and a sleep lasts at least as long as was asked. */
  class Clock {
    var now: real

    constructor (start: real)
      ensures now == start
    {
      now := start;
    }

    /** A later reading: any amount of time may have passed. */
    method Read() returns (t: real)
      modifies this
      ensures t == now >= old(now)
    {
      var passed: real := *;
      if passed > 0.0 { now := now + passed; }
      t := now;
    }

    method Sleep(d: real)
      requires d >= 0.0
      modifies this
      ensures now >= old(now) + d
    {
      var late: real := *;
      now := now + d + if late > 0.0 then late else 0.0;
    }
  }
}
