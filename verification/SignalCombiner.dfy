/** The portfolio manager's cache of the latest signal of each strategy, with a time to live. */
module SignalCombiner {
  import opened Prelude
  import opened Messages
  import opened WeightedVote

  const SIGNAL_TTL_SECONDS := 120.0

  datatype Stamped = Stamped(signal: Signal, at: real)

  /** Everything that was ever asked of the combiner that can matter to a later evaluation. */
  datatype LogEntry =
    | Updated(stamped: Stamped)
    | ClearedMarket(market: string)
    | ClearedAll

  /** The last update of a strategy in a market since that market was last cleared. */
  function Latest(log: seq<LogEntry>, market: string, strategy: string): Option<Stamped> {
    if log == [] then None
    else
      match log[|log| - 1]
      case Updated(s) =>
        if s.signal.market == market && s.signal.strategy == strategy then Some(s)
        else Latest(log[..|log| - 1], market, strategy)
      case ClearedMarket(m) =>
        if m == market then None else Latest(log[..|log| - 1], market, strategy)
      case ClearedAll => None
  }

  /** What makes a market forget its signals. */
  predicate Clears(e: LogEntry, market: string) {
    e.ClearedAll? || (e.ClearedMarket? && e.market == market)
  }

  predicate UpdateOf(e: LogEntry, market: string, strategy: string) {
    e.Updated? && e.stamped.signal.market == market && e.stamped.signal.strategy == strategy
  }

  /** The i-th entry is an update of the strategy in the market, and none after it updates that again or clears the market. */
  ghost predicate Stands(log: seq<LogEntry>, market: string, strategy: string, i: nat) {
    && i < |log| && UpdateOf(log[i], market, strategy)
    && forall j | i < j < |log| :: !UpdateOf(log[j], market, strategy) && !Clears(log[j], market)
  }

  /** The latest signal is the one update that still stands. */
  lemma {:induction false} LatestIff(log: seq<LogEntry>, market: string, strategy: string)
    ensures forall i: nat | Stands(log, market, strategy, i) :: Latest(log, market, strategy) == Some(log[i].stamped)
    ensures Latest(log, market, strategy).Some? ==> exists i :: Stands(log, market, strategy, i)
  {
    if log != [] {
      var n := |log| - 1;
      var init, e := log[..n], log[n];
      LatestIff(init, market, strategy);
      assert UpdateOf(e, market, strategy) ==> Stands(log, market, strategy, n);
      forall i: nat | i < n
        ensures Stands(log, market, strategy, i)
           <==> Stands(init, market, strategy, i) && !UpdateOf(e, market, strategy) && !Clears(e, market)
      {
        assert log[i] == init[i];
        if Stands(log, market, strategy, i) {
          forall j | i < j < n ensures !UpdateOf(init[j], market, strategy) && !Clears(init[j], market) {
            assert init[j] == log[j];
          }
        }
      }
    }
  }

  predicate Live(at: real, now: real) {
    now - at <= 120.0
  }

  predicate Fresh(log: seq<LogEntry>, market: string, now: real, strategy: string) {
    var s := Latest(log, market, strategy);
    s.Some? && Live(s.value.at, now)
  }

  /** order lists each strategy that has a live signal exactly once. */
  ghost predicate Lists(order: seq<string>, log: seq<LogEntry>, market: string, now: real) {
    && (forall i, j | 0 <= i < j < |order| :: order[i] != order[j])
    && (forall k :: k in order <==> Fresh(log, market, now, k))
  }

  /** The signals found in the log for the listed strategies. */
  function SignalsFor(order: seq<string>, log: seq<LogEntry>, market: string): (r: seq<Signal>)
    requires forall k | k in order :: Latest(log, market, k).Some?
    ensures |r| == |order|
  {
    seq(|order|, i requires 0 <= i < |order| => Latest(log, market, order[i]).value.signal)
  }

  /** The vote, with a result below the confidence threshold turned into HOLD. */
  function Thresholded(signals: seq<Signal>, w: Weights, minConfidence: real): (Direction, real) {
    var (d, conf) := Vote(signals, w);
    if signals == [] then (Hold, 0.0)
    else if conf < minConfidence then (Hold, conf)
    else (d, conf)
  }

  lemma {:induction false} OnceEach(a: seq<string>, k: string)
    requires forall i, j | 0 <= i < j < |a| :: a[i] != a[j]
    ensures multiset(a)[k] == if k in a then 1 else 0
  {
    if a != [] {
      var init := a[..|a| - 1];
      assert a == init + [a[|a| - 1]];
      OnceEach(init, k);
    }
  }

  lemma ListingsArePermutations(a: seq<string>, b: seq<string>)
    requires forall i, j | 0 <= i < j < |a| :: a[i] != a[j]
    requires forall i, j | 0 <= i < j < |b| :: b[i] != b[j]
    requires forall k :: k in a <==> k in b
    ensures multiset(a) == multiset(b)
  {
    forall k ensures multiset(a)[k] == multiset(b)[k] {
      OnceEach(a, k);
      OnceEach(b, k);
    }
  }

  lemma PutBack<T>(sa: seq<T>, sb: seq<T>, n: nat, k: nat)
    requires |sa| == n + 1 && k < |sb| && sa[n] == sb[k]
    requires multiset(sa[..n]) == multiset(sb[..k] + sb[k + 1..])
    ensures multiset(sa) == multiset(sb)
  {
    assert sa == sa[..n] + [sa[n]];
    assert sb == sb[..k] + [sb[k]] + sb[k + 1..];
  }

  ghost predicate Aligned<T>(a: seq<string>, b: seq<string>, sa: seq<T>, sb: seq<T>) {
    && |sa| == |a| && |sb| == |b|
    && forall i, j | 0 <= i < |a| && 0 <= j < |b| && a[i] == b[j] :: sa[i] == sb[j]
  }

  lemma StillAligned<T>(a: seq<string>, b: seq<string>, sa: seq<T>, sb: seq<T>, n: nat, k: nat)
    requires Aligned(a, b, sa, sb) && n <= |a| && k < |b|
    ensures Aligned(a[..n], b[..k] + b[k + 1..], sa[..n], sb[..k] + sb[k + 1..])
  {
    var b', sb' := b[..k] + b[k + 1..], sb[..k] + sb[k + 1..];
    forall i, j | 0 <= i < n && 0 <= j < |b'| && a[..n][i] == b'[j] ensures sa[..n][i] == sb'[j] {
      var j0 := if j < k then j else j + 1;
      assert b'[j] == b[j0] && sb'[j] == sb[j0];
    }
  }

  /** Lists that read off the same values along two permutations are permutations of each other. */
  lemma {:induction false} ReadOffPermutes<T>(a: seq<string>, b: seq<string>, sa: seq<T>, sb: seq<T>)
    requires multiset(a) == multiset(b) && Aligned(a, b, sa, sb)
    ensures multiset(sa) == multiset(sb)
  {
    if a == [] {
      assert |multiset(b)| == 0;
    } else {
      var n := |a| - 1;
      assert a[n] in multiset(a);
      var k :| 0 <= k < |b| && b[k] == a[n];
      WithoutOne(b, k);
      WithoutLast(a);
      var b', sb' := b[..k] + b[k + 1..], sb[..k] + sb[k + 1..];
      StillAligned(a, b, sa, sb, n, k);
      ReadOffPermutes(a[..n], b', sa[..n], sb');
      PutBack(sa, sb, n, k);
    }
  }

  /** Whatever order the cache is walked in, the verdict is the same. */
  lemma WalkOrderIrrelevant(a: seq<string>, b: seq<string>, log: seq<LogEntry>, market: string, now: real,
                            w: Weights, minConfidence: real)
    requires Lists(a, log, market, now) && Lists(b, log, market, now)
    ensures Thresholded(SignalsFor(a, log, market), w, minConfidence)
         == Thresholded(SignalsFor(b, log, market), w, minConfidence)
  {
    ListingsArePermutations(a, b);
    ReadOffPermutes(a, b, SignalsFor(a, log, market), SignalsFor(b, log, market));
    VoteIgnoresOrder(SignalsFor(a, log, market), SignalsFor(b, log, market), w);
    assert |SignalsFor(a, log, market)| == |multiset(a)| == |multiset(b)|;
  }

  /** The verdict that a plain log of all updates gives, if anyone kept one. */
  ghost predicate VerdictOfLog(log: seq<LogEntry>, market: string, now: real, w: Weights, minConfidence: real,
                               verdict: (Direction, real)) {
    && (exists order :: Lists(order, log, market, now))
    && (forall order | Lists(order, log, market, now) ::
          verdict == Thresholded(SignalsFor(order, log, market), w, minConfidence))
  }

  /** Signals of one market never influence another. */
  lemma {:induction false} MarketsIndependent(log: seq<LogEntry>, e: LogEntry, market: string, strategy: string)
    requires e.Updated? ==> e.stamped.signal.market != market
    requires e.ClearedMarket? ==> e.market != market
    requires !e.ClearedAll?
    ensures Latest(log + [e], market, strategy) == Latest(log, market, strategy)
  {
    assert (log + [e])[..|log|] == log;
  }

  /** An accepted verdict reaches the threshold and has a live, positively weighted signal at least as sure behind it. */
  lemma AcceptedHasBacker(order: seq<string>, log: seq<LogEntry>, market: string, now: real,
                          w: Weights, minConfidence: real)
    requires Lists(order, log, market, now)
    requires Thresholded(SignalsFor(order, log, market), w, minConfidence).0 != Hold
    ensures var (d, conf) := Thresholded(SignalsFor(order, log, market), w, minConfidence);
            conf >= minConfidence
            && exists k :: Fresh(log, market, now, k) && Backs(Latest(log, market, k).value.signal, w, d)
                        && conf <= Latest(log, market, k).value.signal.confidence
  {
    var signals := SignalsFor(order, log, market);
    NoSurerThanSurest(signals, w);
    var (d, conf) := Vote(signals, w);
    var x :| x in signals && Backs(x, w, d) && conf <= x.confidence;
    var i :| 0 <= i < |signals| && signals[i] == x;
    assert order[i] in order;
    assert Fresh(log, market, now, order[i]);
  }

  lemma Passes(confidence: real, minConfidence: real, total: real, sum: real)
    requires total > 0.0 && confidence * total == sum
    ensures confidence >= minConfidence <==> sum >= minConfidence * total
  {
    if confidence >= minConfidence { MulMonotone(minConfidence, confidence, total); }
    if confidence < minConfidence { MulPositive(minConfidence - confidence, total); }
  }

  lemma ThresholdApplies(signals: seq<Signal>, w: Weights, minConfidence: real)
    ensures var (d, conf) := Vote(signals, w);
            Thresholded(signals, w, minConfidence) == (if conf < minConfidence then Hold else d, conf)
  {
    assert signals == [] ==> Count(signals, w) == ZERO;
  }

  lemma SideWins(signals: seq<Signal>, w: Weights, minConfidence: real, side: Direction, other: Direction)
    requires (side == Buy && other == Sell) || (side == Sell && other == Buy)
    ensures var (d, conf) := Thresholded(signals, w, minConfidence);
            var total, sum := WeightSum(signals, w), ConfidenceSum(signals, w, side);
            && (d == side <==> total > 0.0 && sum > ConfidenceSum(signals, w, other) && sum >= minConfidence * total)
            && (total > 0.0 && sum > ConfidenceSum(signals, w, other) ==> conf * total == sum)
  {
    ThresholdApplies(signals, w, minConfidence);
    VoteIsWeightedMean(signals, w);
    var total, sum := WeightSum(signals, w), ConfidenceSum(signals, w, side);
    var conf := Vote(signals, w).1;
    hide Thresholded, Vote, WeightSum, ConfidenceSum;
    if total > 0.0 && sum > ConfidenceSum(signals, w, other) { Passes(conf, minConfidence, total, sum); }
  }

  /** A verdict to buy or sell is given exactly when that side's sum of weight times confidence is the larger one and at
      least the threshold times the sum of the positive weights; its confidence is the quotient of the two sums. */
  lemma VerdictIff(signals: seq<Signal>, w: Weights, minConfidence: real)
    ensures var (d, conf) := Thresholded(signals, w, minConfidence);
            var total, buy, sell := WeightSum(signals, w), ConfidenceSum(signals, w, Buy), ConfidenceSum(signals, w, Sell);
            && (d == Buy <==> total > 0.0 && buy > sell && buy >= minConfidence * total)
            && (d == Sell <==> total > 0.0 && sell > buy && sell >= minConfidence * total)
            && (total > 0.0 && buy > sell ==> conf * total == buy)
            && (total > 0.0 && sell > buy ==> conf * total == sell)
  {
    SideWins(signals, w, minConfidence, Buy, Sell);
    SideWins(signals, w, minConfidence, Sell, Buy);
    hide *;
  }

  /** When all live signals that have a vote agree on a side and a confidence, that is the verdict if the threshold lets it
      pass, and otherwise HOLD. */
  lemma UnanimousVerdict(order: seq<string>, log: seq<LogEntry>, market: string, now: real, w: Weights, minConfidence: real,
                         side: Direction, c: real)
    requires Lists(order, log, market, now) && side != Hold && c > 0.0
    requires forall k | Fresh(log, market, now, k) && HasVote(Latest(log, market, k).value.signal, w) ::
               Latest(log, market, k).value.signal.direction == side && Latest(log, market, k).value.signal.confidence == c
    requires exists k :: Fresh(log, market, now, k) && HasVote(Latest(log, market, k).value.signal, w)
    ensures Thresholded(SignalsFor(order, log, market), w, minConfidence) == (if c >= minConfidence then side else Hold, c)
  {
    var signals := SignalsFor(order, log, market);
    hide HasVote, Latest;
    forall x | x in signals && HasVote(x, w) ensures x.direction == side && x.confidence == c {
      var i :| 0 <= i < |signals| && signals[i] == x;
      assert order[i] in order;
    }
    var k :| Fresh(log, market, now, k) && HasVote(Latest(log, market, k).value.signal, w);
    var i :| 0 <= i < |order| && order[i] == k;
    assert signals[i] in signals;
    UnanimousVote(signals, w, side, c);
    hide Vote;
  }

  /** Walk a market's entries in whatever order the dictionary gives them. */
  method Collect(entries: map<string, Stamped>, now: real)
    returns (live: seq<Signal>, order: seq<string>, expired: set<string>)
    ensures forall i, j | 0 <= i < j < |order| :: order[i] != order[j]
    ensures forall k :: k in order <==> k in entries && Live(entries[k].at, now)
    ensures forall k | k in order :: k in entries
    ensures |live| == |order| && forall i | 0 <= i < |order| :: live[i] == entries[order[i]].signal
    ensures expired == set k | k in entries && !Live(entries[k].at, now)
  {
    live, order, expired := [], [], {};
    var rest := entries.Keys;
    while rest != {}
      invariant rest <= entries.Keys
      invariant forall i, j | 0 <= i < j < |order| :: order[i] != order[j]
      invariant forall k :: k in order <==> k in entries.Keys - rest && Live(entries[k].at, now)
      invariant forall k | k in order :: k in entries
      invariant |live| == |order| && forall i | 0 <= i < |order| :: live[i] == entries[order[i]].signal
      invariant expired == set k | k in entries.Keys - rest && !Live(entries[k].at, now)
      decreases rest
    {
      var k :| k in rest;
      if now - entries[k].at > SIGNAL_TTL_SECONDS {
        expired := expired + {k};
      } else {
        live, order := live + [entries[k].signal], order + [k];
      }
      rest := rest - {k};
    }
  }

  class Combiner {
    const weights: Weights
    const minConfidence: real
    const clock: Clock
    var signals: map<string, map<string, Stamped>>
    ghost var log: seq<LogEntry>

    /** The cache holds the latest update of each strategy, except some that have already expired. */
    ghost predicate Valid()
      reads this, clock
    {
      && (forall m, k | m in signals && k in signals[m] :: Latest(log, m, k) == Some(signals[m][k]))
      && (forall m, k | Latest(log, m, k).Some? && !(m in signals && k in signals[m]) ::
            !Live(Latest(log, m, k).value.at, clock.now))
    }

    constructor (weights: Weights, minConfidence: real, clock: Clock)
      ensures Valid() && log == []
      ensures this.weights == weights && this.minConfidence == minConfidence && this.clock == clock
    {
      this.weights, this.minConfidence, this.clock := weights, minConfidence, clock;
      signals, log := map[], [];
    }

    method Update(signal: Signal)
      requires Valid()
      modifies this, clock
      ensures Valid() && clock.now >= old(clock.now)
      ensures log == old(log) + [Updated(Stamped(signal, clock.now))]
    {
      var now := clock.Read();
      var entry := Stamped(signal, now);
      var market, strategy := signal.market, signal.strategy;
      var inner := if market in signals then signals[market] else map[];
      signals := signals[market := inner[strategy := entry]];
      log := log + [Updated(entry)];
      assert log[..|log| - 1] == old(log);
    }

    /** A market given by its (nonempty) name is dropped; otherwise every market is. */
    method Clear(market: Option<string>)
      requires Valid()
      modifies this
      ensures Valid()
      ensures log == old(log) + [if market.Some? && market.value != "" then ClearedMarket(market.value) else ClearedAll]
    {
      if market.Some? && market.value != "" {
        signals := signals - {market.value};
        log := log + [ClearedMarket(market.value)];
      } else {
        signals := map[];
        log := log + [ClearedAll];
      }
      assert log[..|log| - 1] == old(log);
    }

    /** Evaluation agrees with the plain log, although it throws expired entries away as it goes. */
    method Evaluate(market: string) returns (direction: Direction, confidence: real)
      requires Valid()
      modifies this, clock
      ensures Valid() && clock.now >= old(clock.now) && log == old(log)
      ensures VerdictOfLog(log, market, clock.now, weights, minConfidence, (direction, confidence))
    {
      var now := clock.Read();
      var marketSignals: map<string, Stamped> := if market in signals then signals[market] else map[];
      var live, order, expired := Collect(marketSignals, now);
      assert Lists(order, log, market, now);
      assert live == SignalsFor(order, log, market);
      if market in signals {
        signals := signals[market := marketSignals - expired];
      }
      forall other | Lists(other, log, market, now)
        ensures Thresholded(live, weights, minConfidence)
             == Thresholded(SignalsFor(other, log, market), weights, minConfidence)
      {
        WalkOrderIrrelevant(order, other, log, market, now, weights, minConfidence);
      }
      if live == [] {
        return Hold, 0.0;
      }
      direction, confidence := WeightedCombine(live, weights);
      if confidence < minConfidence {
        return Hold, confidence;
      }
    }
  }
}
