/** Combining the signals of several strategies into one direction by weighted average. */
module WeightedVote {
  import opened Prelude
  import opened Messages

  type Weights = map<string, real>

  /** What a list of signals adds up to: total weight, and weighted confidence for each side. */
  datatype Tally = Tally(total: real, buy: real, sell: real) {
    function Plus(t: Tally): Tally {
      Tally(total + t.total, buy + t.buy, sell + t.sell)
    }

    /** The confidence a side gets: its part of the total weight. */
    function Confidence(score: real): real {
      if total == 0.0 then 0.0 else score / total
    }

    function Times(c: real): Tally {
      Tally(c * total, c * buy, c * sell)
    }
  }

  const ZERO := Tally(0.0, 0.0, 0.0)

  /** A strategy without a positive weight has no vote. */
  function WeightOf(w: Weights, strategy: string): real {
    if strategy in w && w[strategy] > 0.0 then w[strategy] else 0.0
  }

  predicate HasVote(s: Signal, w: Weights) {
    s.strategy in w && w[s.strategy] > 0.0
  }

  /** The part of a weight that a confidence claims. */
  function Share(weight: real, confidence: real): real {
    weight * confidence
  }

  function Ballot(w: Weights, s: Signal): Tally {
    var x := WeightOf(w, s.strategy);
    Tally(x,
          if s.direction == Buy then Share(x, s.confidence) else 0.0,
          if s.direction == Sell then Share(x, s.confidence) else 0.0)
  }

  function Count(signals: seq<Signal>, w: Weights): Tally {
    if signals == [] then ZERO
    else Count(signals[..|signals| - 1], w).Plus(Ballot(w, signals[|signals| - 1]))
  }

  function Decide(t: Tally): (Direction, real) {
    if t.total == 0.0 then (Hold, 0.0)
    else
      var buyConf, sellConf := t.buy / t.total, t.sell / t.total;
      if buyConf > sellConf then (Buy, buyConf)
      else if sellConf > buyConf then (Sell, sellConf)
      else (Hold, 0.0)
  }

  function Vote(signals: seq<Signal>, w: Weights): (Direction, real) {
    Decide(Count(signals, w))
  }

  /** The body of that loop: a strategy that is unknown or weighs nothing is skipped. */
  method AddVote(sig: Signal, w: Weights, buyScore: real, sellScore: real, totalWeight: real)
    returns (buy: real, sell: real, total: real)
    ensures Tally(total, buy, sell) == Tally(totalWeight, buyScore, sellScore).Plus(Ballot(w, sig))
    ensures total == totalWeight + if HasVote(sig, w) then w[sig.strategy] else 0.0
    ensures buy == buyScore + if HasVote(sig, w) && sig.direction == Buy then w[sig.strategy] * sig.confidence else 0.0
    ensures sell == sellScore + if HasVote(sig, w) && sig.direction == Sell then w[sig.strategy] * sig.confidence else 0.0
  {
    buy, sell, total := buyScore, sellScore, totalWeight;
    var weight := if sig.strategy in w then w[sig.strategy] else 0.0;
    if weight <= 0.0 {
      assert Share(0.0, sig.confidence) == 0.0;
      return;
    }
    total := total + weight;
    if sig.direction == Buy {
      buy := buy + Share(weight, sig.confidence);
    } else if sig.direction == Sell {
      sell := sell + Share(weight, sig.confidence);
    }
  }

  /** The loop over the signals computes the vote of the whole list. */
  method WeightedCombine(signals: seq<Signal>, w: Weights) returns (direction: Direction, confidence: real)
    ensures (direction, confidence) == Vote(signals, w)
  {
    hide Share;
    if signals == [] { return Hold, 0.0; }
    var buyScore, sellScore, totalWeight := 0.0, 0.0, 0.0;
    for i := 0 to |signals|
      invariant Tally(totalWeight, buyScore, sellScore) == Count(signals[..i], w)
    {
      assert signals[..i + 1][..i] == signals[..i];
      assert Count(signals[..i + 1], w) == Count(signals[..i], w).Plus(Ballot(w, signals[i]));
      buyScore, sellScore, totalWeight := AddVote(signals[i], w, buyScore, sellScore, totalWeight);
    }
    assert signals[..|signals|] == signals;
    if totalWeight == 0.0 { return Hold, 0.0; }
    var buyConf, sellConf := buyScore / totalWeight, sellScore / totalWeight;
    if buyConf > sellConf {
      return Buy, buyConf;
    } else if sellConf > buyConf {
      return Sell, sellConf;
    } else {
      return Hold, 0.0;
    }
  }

  // ---- the vote is a weighted mean

  /** The sum of the positive weights behind a list of signals. */
  function WeightSum(s: seq<Signal>, w: Weights): real {
    if s == [] then 0.0
    else
      var x := s[|s| - 1];
      WeightSum(s[..|s| - 1], w) + if HasVote(x, w) then w[x.strategy] else 0.0
  }

  /** The sum of weight times confidence over the signals for one side. */
  function ConfidenceSum(s: seq<Signal>, w: Weights, side: Direction): real {
    if s == [] then 0.0
    else
      var x := s[|s| - 1];
      ConfidenceSum(s[..|s| - 1], w, side)
        + if HasVote(x, w) && x.direction == side then w[x.strategy] * x.confidence else 0.0
  }

  lemma SumsStep(s: seq<Signal>, w: Weights, side: Direction)
    requires s != []
    ensures var init, x := s[..|s| - 1], s[|s| - 1];
            && WeightSum(s, w) == WeightSum(init, w) + (if HasVote(x, w) then w[x.strategy] else 0.0)
            && ConfidenceSum(s, w, side) == ConfidenceSum(init, w, side)
                 + if HasVote(x, w) && x.direction == side then Share(w[x.strategy], x.confidence) else 0.0
  {
  }

  lemma BallotIsShare(s: Signal, w: Weights)
    ensures var share := if HasVote(s, w) then Share(w[s.strategy], s.confidence) else 0.0;
            Ballot(w, s) == Tally(if HasVote(s, w) then w[s.strategy] else 0.0,
                                  if s.direction == Buy then share else 0.0, if s.direction == Sell then share else 0.0)
  {
    assert Share(0.0, s.confidence) == 0.0;
    hide Share;
  }

  lemma CountStep(s: seq<Signal>, w: Weights)
    requires s != []
    ensures Count(s, w) == Count(s[..|s| - 1], w).Plus(Ballot(w, s[|s| - 1]))
  {
    hide Ballot;
  }

  lemma SumsOfNone(w: Weights)
    ensures Count([], w) == Tally(WeightSum([], w), ConfidenceSum([], w, Buy), ConfidenceSum([], w, Sell))
  {
  }

  lemma {:induction false} CountIsSums(s: seq<Signal>, w: Weights)
    ensures Count(s, w) == Tally(WeightSum(s, w), ConfidenceSum(s, w, Buy), ConfidenceSum(s, w, Sell))
  {
    hide Ballot, HasVote, Share, Count, WeightSum, ConfidenceSum;
    if s == [] {
      SumsOfNone(w);
    } else {
      CountIsSums(s[..|s| - 1], w);
      SumsStep(s, w, Buy);
      SumsStep(s, w, Sell);
      BallotIsShare(s[|s| - 1], w);
      CountStep(s, w);
    }
  }

  lemma QuotientTimes(x: real, t: real)
    requires t != 0.0
    ensures x / t * t == x
  {
  }

  lemma QuotientsCompare(x: real, y: real, t: real)
    requires t > 0.0
    ensures x / t > y / t <==> x > y
  {
    QuotientTimes(x, t);
    QuotientTimes(y, t);
    if x / t > y / t { MulPositive(x / t - y / t, t); }
    if x / t <= y / t { MulMonotone(x / t, y / t, t); }
  }

  lemma {:induction false} WeightSumNonnegative(s: seq<Signal>, w: Weights)
    ensures WeightSum(s, w) >= 0.0
  {
    if s != [] { WeightSumNonnegative(s[..|s| - 1], w); }
  }

  /** The side with the larger sum of weight times confidence wins, and its confidence is that sum over the sum of the
      positive weights; a tie, or a list without weight, is a HOLD. */
  lemma VoteIsWeightedMean(s: seq<Signal>, w: Weights)
    ensures var (d, confidence) := Vote(s, w);
            var total, buy, sell := WeightSum(s, w), ConfidenceSum(s, w, Buy), ConfidenceSum(s, w, Sell);
            && (d == Buy <==> total > 0.0 && buy > sell)
            && (d == Sell <==> total > 0.0 && sell > buy)
            && (d == Buy ==> confidence * total == buy)
            && (d == Sell ==> confidence * total == sell)
            && (d == Hold ==> confidence == 0.0)
  {
    CountIsSums(s, w);
    WeightSumNonnegative(s, w);
    var t := Count(s, w);
    hide Count, WeightSum, ConfidenceSum;
    if t.total > 0.0 {
      QuotientsCompare(t.buy, t.sell, t.total);
      QuotientsCompare(t.sell, t.buy, t.total);
      QuotientTimes(t.buy, t.total);
      QuotientTimes(t.sell, t.total);
    }
  }

  /** Every signal that has a vote is for that side at that confidence. */
  ghost predicate Unanimous(s: seq<Signal>, w: Weights, side: Direction, c: real) {
    forall x | x in s && HasVote(x, w) :: x.direction == side && x.confidence == c
  }

  lemma ShareAdds(a: real, b: real, c: real)
    ensures Share(a + b, c) == Share(a, c) + Share(b, c) && Share(0.0, c) == 0.0
  {
  }

  lemma {:induction false} UnanimousSums(s: seq<Signal>, w: Weights, side: Direction, c: real, other: Direction)
    requires Unanimous(s, w, side, c) && other != side
    ensures ConfidenceSum(s, w, side) == Share(WeightSum(s, w), c)
    ensures ConfidenceSum(s, w, other) == 0.0
    ensures (exists x | x in s :: HasVote(x, w)) ==> WeightSum(s, w) > 0.0
  {
    ShareAdds(0.0, 0.0, c);
    if s != [] {
      var init, x := s[..|s| - 1], s[|s| - 1];
      assert s == init + [x] && x in s && forall y | y in init :: y in s;
      UnanimousSums(init, w, side, c, other);
      WeightSumNonnegative(init, w);
      SumsStep(s, w, side);
      SumsStep(s, w, other);
      if HasVote(x, w) { ShareAdds(WeightSum(init, w), w[x.strategy], c); }
      hide Share, WeightSum, ConfidenceSum;
    }
  }

  lemma SameFactor(a: real, b: real, t: real)
    requires t > 0.0 && a * t == b * t
    ensures a == b
  {
    if a > b { MulPositive(a - b, t); }
    if a < b { MulPositive(b - a, t); }
  }

  lemma MeanOfOne(confidence: real, total: real, c: real)
    requires total > 0.0 && c > 0.0
    ensures Share(total, c) > 0.0
    ensures confidence * total == Share(total, c) ==> confidence == c
  {
    MulPositive(c, total);
    if confidence * total == Share(total, c) { SameFactor(confidence, c, total); }
  }

  /** Signals that agree on a side and on a positive confidence get exactly that, whatever their weights. */
  lemma UnanimousVote(s: seq<Signal>, w: Weights, side: Direction, c: real)
    requires Unanimous(s, w, side, c) && side != Hold && c > 0.0 && exists x | x in s :: HasVote(x, w)
    ensures Vote(s, w) == (side, c)
  {
    UnanimousSums(s, w, side, c, if side == Buy then Sell else Buy);
    VoteIsWeightedMean(s, w);
    MeanOfOne(Vote(s, w).1, WeightSum(s, w), c);
    hide *;
  }

  // ---- the vote does not depend on order

  lemma CountAppend(s: seq<Signal>, x: Signal, w: Weights)
    ensures Count(s + [x], w) == Count(s, w).Plus(Ballot(w, x))
  {
    assert (s + [x])[..|s|] == s;
  }

  lemma PlusNothing(x: Tally)
    ensures x.Plus(ZERO) == x
  {
  }

  lemma PlusAssociates(x: Tally, y: Tally, z: Tally)
    ensures x.Plus(y.Plus(z)) == x.Plus(y).Plus(z)
  {
  }

  lemma {:induction false} CountSplit(a: seq<Signal>, b: seq<Signal>, w: Weights)
    ensures Count(a + b, w) == Count(a, w).Plus(Count(b, w))
  {
    assert b == [] ==> Count(b, w) == ZERO;
    hide *;
    if b == [] {
      assert a + b == a;
      PlusNothing(Count(a, w));
    } else {
      var init, last := b[..|b| - 1], b[|b| - 1];
      assert b == init + [last] && a + b == (a + init) + [last];
      CountAppend(a + init, last, w);
      CountAppend(init, last, w);
      CountSplit(a, init, w);
      PlusAssociates(Count(a, w), Count(init, w), Ballot(w, last));
    }
  }

  lemma CountWithout(s: seq<Signal>, k: nat, w: Weights)
    requires k < |s|
    ensures Count(s, w) == Count(s[..k] + s[k + 1..], w).Plus(Ballot(w, s[k]))
  {
    hide Ballot;
    assert s == s[..k] + [s[k]] + s[k + 1..];
    CountSplit(s[..k] + [s[k]], s[k + 1..], w);
    CountSplit(s[..k], [s[k]], w);
    CountSplit(s[..k], s[k + 1..], w);
    assert [s[k]][..0] == [];
    assert Count([s[k]], w) == Count([], w).Plus(Ballot(w, s[k]));
  }

  lemma WithoutOne<T>(b: seq<T>, k: nat)
    requires k < |b|
    ensures multiset(b[..k] + b[k + 1..]) == multiset(b) - multiset{b[k]}
  {
    assert b == b[..k] + [b[k]] + b[k + 1..];
  }

  lemma WithoutLast<T>(a: seq<T>)
    requires a != []
    ensures multiset(a[..|a| - 1]) == multiset(a) - multiset{a[|a| - 1]}
  {
    assert a == a[..|a| - 1] + [a[|a| - 1]];
  }

  lemma {:induction false} CountOfPermutation(a: seq<Signal>, b: seq<Signal>, w: Weights)
    requires multiset(a) == multiset(b)
    ensures Count(a, w) == Count(b, w)
  {
    hide Ballot;
    if a == [] {
      assert |multiset(b)| == 0;
    } else {
      var x := a[|a| - 1];
      assert x in multiset(a);
      var k :| 0 <= k < |b| && b[k] == x;
      WithoutOne(b, k);
      WithoutLast(a);
      CountWithout(b, k, w);
      hide Count;
      CountOfPermutation(a[..|a| - 1], b[..k] + b[k + 1..], w);
      CountStep(a, w);
    }
  }

  /** The order in which the signals arrive is irrelevant. */
  lemma VoteIgnoresOrder(a: seq<Signal>, b: seq<Signal>, w: Weights)
    requires multiset(a) == multiset(b)
    ensures Vote(a, w) == Vote(b, w)
  {
    CountOfPermutation(a, b, w);
  }

  // ---- the vote does not depend on the scale of the weights

  function Scaled(w: Weights, c: real): Weights {
    map k | k in w :: c * w[k]
  }

  lemma ZeroTimes(c: real)
    ensures ZERO.Times(c) == ZERO
  {
  }

  lemma TimesPlus(a: Tally, b: Tally, c: real)
    ensures a.Plus(b).Times(c) == a.Times(c).Plus(b.Times(c))
  {
  }

  lemma ShareScales(c: real, x: real, confidence: real)
    ensures Share(c * x, confidence) == c * Share(x, confidence)
    ensures c * 0.0 == 0.0
  {
    assert c * x * confidence == c * (x * confidence);
  }

  lemma SignKept(c: real, x: real)
    requires c > 0.0
    ensures c * x > 0.0 <==> x > 0.0
  {
  }

  lemma ScaledWeight(w: Weights, c: real, k: string)
    requires c > 0.0
    ensures WeightOf(Scaled(w, c), k) == c * WeightOf(w, k)
  {
    if k in w { SignKept(c, w[k]); }
  }

  lemma BallotScales(w: Weights, c: real, s: Signal)
    requires c > 0.0
    ensures Ballot(Scaled(w, c), s) == Ballot(w, s).Times(c)
  {
    hide Scaled;
    var x := WeightOf(w, s.strategy);
    ScaledWeight(w, c, s.strategy);
    ShareScales(c, x, s.confidence);
    hide Share;
  }

  lemma {:induction false} CountScales(s: seq<Signal>, w: Weights, c: real)
    requires c > 0.0
    ensures Count(s, Scaled(w, c)) == Count(s, w).Times(c)
  {
    hide Ballot, Tally.Times, Scaled;
    if s == [] {
      ZeroTimes(c);
    } else {
      CountScales(s[..|s| - 1], w, c);
      BallotScales(w, c, s[|s| - 1]);
      TimesPlus(Count(s[..|s| - 1], w), Ballot(w, s[|s| - 1]), c);
    }
  }

  lemma RatioScales(c: real, x: real, t: real)
    requires c > 0.0 && t > 0.0
    ensures c * t > 0.0 && c * x / (c * t) == x / t
  {
    MulPositive(c, t);
    assert c * t * (x / t) == c * x;
  }

  lemma DecideScales(t: Tally, c: real)
    requires c > 0.0 && t.total >= 0.0
    ensures Decide(t.Times(c)) == Decide(t)
  {
    var u := t.Times(c);
    if t.total > 0.0 {
      RatioScales(c, t.buy, t.total);
      RatioScales(c, t.sell, t.total);
      assert u.total > 0.0 && u.buy / u.total == t.buy / t.total && u.sell / u.total == t.sell / t.total;
    } else {
      assert c * t.total == 0.0;
    }
  }

  lemma ShareOf(x: real, c: real)
    requires 0.0 <= x && 0.0 <= c <= 1.0
    ensures 0.0 <= Share(x, c) <= x
  {
    MulMonotone(c, 1.0, x);
  }

  lemma BallotBounds(w: Weights, s: Signal)
    ensures var b := Ballot(w, s);
            0.0 <= b.buy && 0.0 <= b.sell && b.buy + b.sell <= b.total
  {
    hide Share;
    ShareOf(WeightOf(w, s.strategy), s.confidence);
  }

  lemma {:induction false} CountBounds(s: seq<Signal>, w: Weights)
    ensures var t := Count(s, w);
            0.0 <= t.buy && 0.0 <= t.sell && t.buy + t.sell <= t.total
  {
    hide Ballot;
    if s != [] {
      CountBounds(s[..|s| - 1], w);
      BallotBounds(w, s[|s| - 1]);
    }
  }

  /** Multiplying every weight by the same positive factor changes nothing. */
  lemma VoteIgnoresScale(s: seq<Signal>, w: Weights, c: real)
    requires c > 0.0
    ensures Vote(s, Scaled(w, c)) == Vote(s, w)
  {
    hide Ballot, Scaled, Count;
    CountScales(s, w, c);
    CountBounds(s, w);
    DecideScales(Count(s, w), c);
  }

  // ---- buying and selling are mirror images

  function Opposite(d: Direction): Direction {
    match d
    case Buy => Sell
    case Sell => Buy
    case Hold => Hold
  }

  function Mirrored(s: seq<Signal>): (r: seq<Signal>)
    ensures |r| == |s|
  {
    seq(|s|, i requires 0 <= i < |s| => s[i].(direction := Opposite(s[i].direction)))
  }

  lemma MirroredBallot(s: Signal, w: Weights)
    ensures Ballot(w, s.(direction := Opposite(s.direction))) == Tally(Ballot(w, s).total, Ballot(w, s).sell, Ballot(w, s).buy)
  {
  }

  lemma {:induction false} CountMirrors(s: seq<Signal>, w: Weights)
    ensures Count(Mirrored(s), w) == Tally(Count(s, w).total, Count(s, w).sell, Count(s, w).buy)
  {
    hide Ballot;
    if s != [] {
      MirroredBallot(s[|s| - 1], w);
      CountMirrors(s[..|s| - 1], w);
      assert Mirrored(s)[..|s| - 1] == Mirrored(s[..|s| - 1]);
    }
  }

  /** Swapping BUY and SELL in every signal swaps the outcome and keeps its confidence. */
  lemma VoteMirrors(s: seq<Signal>, w: Weights)
    ensures Vote(Mirrored(s), w) == (Opposite(Vote(s, w).0), Vote(s, w).1)
  {
    CountMirrors(s, w);
  }

  // ---- bounds

  function BuyConfidence(s: seq<Signal>, w: Weights): real {
    Count(s, w).Confidence(Count(s, w).buy)
  }

  function SellConfidence(s: seq<Signal>, w: Weights): real {
    Count(s, w).Confidence(Count(s, w).sell)
  }

  lemma SharesOfTotal(b: real, s: real, t: real)
    requires 0.0 <= b && 0.0 <= s && b + s <= t && t > 0.0
    ensures 0.0 <= b / t && 0.0 <= s / t && b / t + s / t <= 1.0
  {
    assert b / t + s / t == (b + s) / t;
  }

  /** The two sides share one unit of confidence. */
  lemma SidesShareOne(s: seq<Signal>, w: Weights)
    ensures 0.0 <= BuyConfidence(s, w) && 0.0 <= SellConfidence(s, w)
    ensures BuyConfidence(s, w) + SellConfidence(s, w) <= 1.0
    ensures 0.0 <= Vote(s, w).1 <= 1.0
  {
    CountBounds(s, w);
    var t := Count(s, w);
    if t.total > 0.0 {
      SharesOfTotal(t.buy, t.sell, t.total);
    }
  }

  lemma FullBallot(w: Weights, s: Signal)
    requires s.strategy in w && w[s.strategy] == 1.0 && s.confidence == 1.0
    ensures Ballot(w, s) == Tally(1.0, if s.direction == Buy then 1.0 else 0.0, if s.direction == Sell then 1.0 else 0.0)
  {
  }

  lemma CountOfTwo(a: Signal, b: Signal, w: Weights)
    ensures Count([a, b], w) == Ballot(w, a).Plus(Ballot(w, b))
  {
    hide Ballot;
    assert [a, b][..1] == [a] && [a][..0] == [];
    assert Count([a], w) == ZERO.Plus(Ballot(w, a));
  }

  /** Two fully confident, equally weighted, opposed signals give each side half of the total. */
  lemma EvenSplit(p: string, q: string) returns (s: seq<Signal>, w: Weights)
    requires p != q
    ensures Count(s, w) == Tally(2.0, 1.0, 1.0)
  {
    w := map[p := 1.0, q := 1.0];
    var a: Signal := SignalMessage(p, Buy, 1.0, p);
    var b: Signal := SignalMessage(q, Sell, 1.0, q);
    FullBallot(w, a);
    FullBallot(w, b);
    CountOfTwo(a, b, w);
    s := [a, b];
    hide Count, Ballot;
  }

  lemma HalfEach(t: Tally)
    requires t == Tally(2.0, 1.0, 1.0)
    ensures t.Confidence(t.buy) == 0.5 && t.Confidence(t.sell) == 0.5
  {
  }

  /** A threshold keeps the two sides from both passing, in every vote, exactly when it is above one half. */
  lemma OneSideIffMajority(threshold: real)
    requires threshold > 0.0
    ensures (forall s: seq<Signal>, w: Weights ::
               !(BuyConfidence(s, w) >= threshold && SellConfidence(s, w) >= threshold))
       <==> threshold > 0.5
  {
    hide Count;
    if threshold > 0.5 {
      forall s: seq<Signal>, w: Weights
        ensures !(BuyConfidence(s, w) >= threshold && SellConfidence(s, w) >= threshold)
      {
        SidesShareOne(s, w);
      }
    } else {
      var s, w := EvenSplit("ta", "");
      HalfEach(Count(s, w));
      assert !!(BuyConfidence(s, w) >= threshold && SellConfidence(s, w) >= threshold);
    }
  }

  function Side(t: Tally, d: Direction): real {
    if d == Buy then t.buy else if d == Sell then t.sell else 0.0
  }

  /** A signal with a say in favour of d. */
  predicate Backs(s: Signal, w: Weights, d: Direction) {
    s.direction == d && WeightOf(w, s.strategy) > 0.0
  }

  lemma BallotBelow(x: Signal, w: Weights, d: Direction, m: real)
    requires m >= 0.0 && (Backs(x, w, d) ==> x.confidence <= m)
    ensures Side(Ballot(w, x), d) <= m * Ballot(w, x).total
  {
    var y := WeightOf(w, x.strategy);
    MulMonotone(0.0, y, m);
    if Backs(x, w, d) {
      MulMonotone(x.confidence, m, y);
      assert Share(y, x.confidence) <= m * y;
    }
  }

  lemma Distributes(m: real, a: real, b: real)
    ensures m * (a + b) == m * a + m * b
  {
  }

  lemma {:induction false} SideBelow(s: seq<Signal>, w: Weights, d: Direction, m: real)
    requires m >= 0.0
    requires forall x | x in s && Backs(x, w, d) :: x.confidence <= m
    ensures Side(Count(s, w), d) <= m * Count(s, w).total
  {
    hide Ballot;
    if s != [] {
      var init, x := s[..|s| - 1], s[|s| - 1];
      SideBelow(init, w, d, m);
      assert x in s;
      BallotBelow(x, w, d, m);
      Distributes(m, Count(init, w).total, Ballot(w, x).total);
    }
  }

  lemma {:induction false} StrongestBacker(s: seq<Signal>, w: Weights, d: Direction) returns (k: nat)
    requires exists x | x in s :: Backs(x, w, d)
    ensures k < |s| && Backs(s[k], w, d)
    ensures forall x | x in s && Backs(x, w, d) :: x.confidence <= s[k].confidence
  {
    var init, last := s[..|s| - 1], s[|s| - 1];
    assert forall x | x in s :: x in init || x == last;
    if exists x | x in init :: Backs(x, w, d) {
      k := StrongestBacker(init, w, d);
      if Backs(last, w, d) && last.confidence > s[k].confidence { k := |s| - 1; }
    } else {
      k := |s| - 1;
    }
  }

  lemma WinningShare(t: Tally)
    requires 0.0 <= t.buy && 0.0 <= t.sell && t.buy + t.sell <= t.total && Decide(t).0 != Hold
    ensures t.total > 0.0 && 0.0 < Decide(t).1 == Side(t, Decide(t).0) / t.total
  {
    SharesOfTotal(t.buy, t.sell, t.total);
  }

  lemma QuotientBelow(x: real, m: real, t: real)
    requires t > 0.0 && x <= m * t
    ensures x / t <= m
  {
  }

  /** The result is never surer than the surest signal behind it, and some signal is behind it. */
  lemma NoSurerThanSurest(s: seq<Signal>, w: Weights)
    requires Vote(s, w).0 != Hold
    ensures exists x | x in s :: Backs(x, w, Vote(s, w).0) && Vote(s, w).1 <= x.confidence
  {
    hide Count;
    var (d, conf) := Vote(s, w);
    var t := Count(s, w);
    CountBounds(s, w);
    WinningShare(t);
    var m := 0.0;
    if exists x | x in s :: Backs(x, w, d) {
      var k := StrongestBacker(s, w, d);
      m := s[k].confidence;
      assert s[k] in s;
    }
    SideBelow(s, w, d, m);
    QuotientBelow(Side(t, d), m, t.total);
  }

  /** A strategy with no positive weight can be left out of the vote. */
  lemma WeightlessIsSilent(s: seq<Signal>, k: nat, w: Weights)
    requires k < |s| && WeightOf(w, s[k].strategy) == 0.0
    ensures Vote(s[..k] + s[k + 1..], w) == Vote(s, w)
  {
    CountWithout(s, k, w);
  }
}
