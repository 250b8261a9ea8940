/** Turning technical indicators into one signal by averaging bullish and bearish scores. */
module TechnicalScore {
  import opened Prelude
  import opened Messages
  import opened WeightedVote

  const MIN_CANDLES := 30

  const MAX_CANDLES := 200

  const AMPLIFIER := 1.2

  /** The latest indicator values; any of them may be missing. */
  datatype Indicators = Indicators(
    rsi: Option<real>, macdHistogram: Option<real>,
    currentPrice: Option<real>, bbLower: Option<real>, bbUpper: Option<real>,
    emaShort: Option<real>, emaLong: Option<real>,
    currentVolume: Option<real>, volumeSma: Option<real>)

  function RsiScore(r: real): real {
    if r < 30.0 then 0.8
    else if r > 70.0 then -0.8
    else if r < 45.0 then 0.3
    else if r > 55.0 then -0.3
    else 0.0
  }

  function RsiPart(ind: Indicators): seq<real> {
    if ind.rsi.Some? then [RsiScore(ind.rsi.value)] else []
  }

  function MacdPart(ind: Indicators): seq<real> {
    if ind.macdHistogram.None? || ind.macdHistogram.value == 0.0 then []
    else if ind.macdHistogram.value > 0.0 then [0.6] else [-0.6]
  }

  predicate BandsSeen(ind: Indicators) {
    Truthy(ind.currentPrice) && Truthy(ind.bbLower) && Truthy(ind.bbUpper)
  }

  function BandPart(ind: Indicators): seq<real> {
    if !BandsSeen(ind) then []
    else if ind.currentPrice.value <= ind.bbLower.value then [0.7]
    else if ind.currentPrice.value >= ind.bbUpper.value then [-0.7]
    else [0.0]
  }

  predicate EmasSeen(ind: Indicators) {
    ind.emaShort.Some? && ind.emaLong.Some?
  }

  function EmaPart(ind: Indicators): seq<real> {
    if !EmasSeen(ind) then []
    else if ind.emaShort.value > ind.emaLong.value then [0.5] else [-0.5]
  }

  function BaseScores(ind: Indicators): seq<real> {
    RsiPart(ind) + MacdPart(ind) + BandPart(ind) + EmaPart(ind)
  }

  predicate HighVolume(ind: Indicators) {
    && Truthy(ind.currentVolume) && Truthy(ind.volumeSma) && ind.volumeSma.value > 0.0
    && ind.currentVolume.value / ind.volumeSma.value > 1.5
  }

  function Times(x: real, c: real): real {
    x * c
  }

  function Scaled(scores: seq<real>, c: real): (r: seq<real>)
    ensures |r| == |scores|
  {
    seq(|scores|, i requires 0 <= i < |scores| => Times(scores[i], c))
  }

  function Scores(ind: Indicators): seq<real> {
    if HighVolume(ind) then Scaled(BaseScores(ind), AMPLIFIER) else BaseScores(ind)
  }

  function Sum(scores: seq<real>): real {
    if scores == [] then 0.0 else Sum(scores[..|scores| - 1]) + scores[|scores| - 1]
  }

  function Average(scores: seq<real>): real
    requires scores != []
  {
    Sum(scores) / |scores| as real
  }

  function Verdict(scores: seq<real>): (Direction, real) {
    if scores == [] then (Hold, 0.0)
    else
      var avg := Average(scores);
      if avg > 0.1 then (Buy, Min(Abs(avg), 1.0))
      else if avg < -0.1 then (Sell, Min(Abs(avg), 1.0))
      else (Hold, 0.0)
  }

  /** The scores of the indicators that are present, in the order they are looked at. */
  method CollectScores(ind: Indicators) returns (scores: seq<real>)
    ensures scores == BaseScores(ind)
  {
    scores := [];
    if ind.rsi.Some? {
      var rsi := ind.rsi.value;
      if rsi < 30.0 { scores := scores + [0.8]; }
      else if rsi > 70.0 { scores := scores + [-0.8]; }
      else if rsi < 45.0 { scores := scores + [0.3]; }
      else if rsi > 55.0 { scores := scores + [-0.3]; }
      else { scores := scores + [0.0]; }
    }
    assert scores == RsiPart(ind);
    if ind.macdHistogram.Some? {
      if ind.macdHistogram.value > 0.0 { scores := scores + [0.6]; }
      else if ind.macdHistogram.value < 0.0 { scores := scores + [-0.6]; }
    }
    assert scores == RsiPart(ind) + MacdPart(ind);
    if Truthy(ind.currentPrice) && Truthy(ind.bbLower) && Truthy(ind.bbUpper) {
      if ind.currentPrice.value <= ind.bbLower.value { scores := scores + [0.7]; }
      else if ind.currentPrice.value >= ind.bbUpper.value { scores := scores + [-0.7]; }
      else { scores := scores + [0.0]; }
    }
    assert scores == RsiPart(ind) + MacdPart(ind) + BandPart(ind);
    if ind.emaShort.Some? && ind.emaLong.Some? {
      if ind.emaShort.value > ind.emaLong.value { scores := scores + [0.5]; }
      else { scores := scores + [-0.5]; }
    }
  }

  /** The loop that multiplies each score where it stands. */
  method Amplify(scores: seq<real>) returns (r: seq<real>)
    ensures r == Scaled(scores, AMPLIFIER)
  {
    r := scores;
    for i := 0 to |r|
      invariant |r| == |scores|
      invariant forall j | 0 <= j < i :: r[j] == Scaled(scores, AMPLIFIER)[j]
      invariant forall j | i <= j < |scores| :: r[j] == scores[j]
    {
      r := r[i := r[i] * AMPLIFIER];
    }
  }

  method GenerateSignal(ind: Indicators) returns (direction: Direction, confidence: real)
    ensures (direction, confidence) == Verdict(Scores(ind))
  {
    hide BaseScores;
    var scores := CollectScores(ind);
    if Truthy(ind.currentVolume) && Truthy(ind.volumeSma) && ind.volumeSma.value > 0.0 {
      var volRatio := ind.currentVolume.value / ind.volumeSma.value;
      if volRatio > 1.5 { scores := Amplify(scores); }
    }
    hide Scores;
    if scores == [] { return Hold, 0.0; }
    var avgScore := Sum(scores) / |scores| as real;
    if avgScore > 0.1 {
      return Buy, Min(Abs(avgScore), 1.0);
    } else if avgScore < -0.1 {
      return Sell, Min(Abs(avgScore), 1.0);
    } else {
      return Hold, 0.0;
    }
  }

  // ---- bulls and bears are treated alike

  function Subtract(from: real, x: Option<real>): Option<real> {
    if x.Some? then Some(from - x.value) else None
  }

  /** The market seen in a mirror: momentum negated, prices and bands reflected about c, averages swapped. */
  function Mirror(ind: Indicators, c: real): Indicators {
    ind.(rsi := Subtract(100.0, ind.rsi),
         macdHistogram := Subtract(0.0, ind.macdHistogram),
         currentPrice := Subtract(2.0 * c, ind.currentPrice),
         bbLower := Subtract(2.0 * c, ind.bbUpper),
         bbUpper := Subtract(2.0 * c, ind.bbLower),
         emaShort := ind.emaLong,
         emaLong := ind.emaShort)
  }

  predicate EqualEmas(ind: Indicators) {
    EmasSeen(ind) && ind.emaShort.value == ind.emaLong.value
  }

  predicate OnBothBands(ind: Indicators) {
    BandsSeen(ind) && ind.bbUpper.value <= ind.currentPrice.value <= ind.bbLower.value
  }

  /** No tie that the code breaks in favour of one side: equal averages, or a price on both bands at once. */
  predicate EvenHanded(ind: Indicators) {
    !EqualEmas(ind) && !OnBothBands(ind)
  }

  lemma PartsMirror(ind: Indicators, c: real)
    requires BandsSeen(ind) == BandsSeen(Mirror(ind, c))
    ensures var m := Mirror(ind, c);
            && RsiPart(m) == Scaled(RsiPart(ind), -1.0)
            && MacdPart(m) == Scaled(MacdPart(ind), -1.0)
            && |BandPart(m)| == |BandPart(ind)|
            && |EmaPart(m)| == |EmaPart(ind)|
            && (BandPart(m) == Scaled(BandPart(ind), -1.0) <==> !OnBothBands(ind))
            && (EmaPart(m) == Scaled(EmaPart(ind), -1.0) <==> !EqualEmas(ind))
  {
    var m := Mirror(ind, c);
    if EmaPart(ind) != [] { assert Scaled(EmaPart(ind), -1.0)[0] == EmaPart(ind)[0] * -1.0; }
    if BandPart(ind) != [] { assert Scaled(BandPart(ind), -1.0)[0] == BandPart(ind)[0] * -1.0; }
  }

  lemma ScaledConcat(a: seq<real>, b: seq<real>, c: real)
    ensures Scaled(a + b, c) == Scaled(a, c) + Scaled(b, c)
  {
    hide Times;
  }

  lemma EqualParts(a: seq<real>, a': seq<real>, b: seq<real>, b': seq<real>)
    requires |a| == |a'|
    ensures a + b == a' + b' <==> a == a' && b == b'
  {
    if a + b == a' + b' {
      assert a == (a + b)[..|a|] && a' == (a' + b')[..|a|];
      assert b == (a + b)[|a|..] && b' == (a' + b')[|a|..];
    }
  }

  /** Reflecting the market negates every score exactly when no such tie occurs. */
  lemma ScoresMirrorIff(ind: Indicators, c: real)
    requires BandsSeen(ind) == BandsSeen(Mirror(ind, c))
    ensures BaseScores(Mirror(ind, c)) == Scaled(BaseScores(ind), -1.0) <==> EvenHanded(ind)
  {
    var m := Mirror(ind, c);
    PartsMirror(ind, c);
    var p, p' := RsiPart(ind) + MacdPart(ind), RsiPart(m) + MacdPart(m);
    ScaledConcat(RsiPart(ind), MacdPart(ind), -1.0);
    ScaledConcat(p, BandPart(ind), -1.0);
    ScaledConcat(p + BandPart(ind), EmaPart(ind), -1.0);
    hide Scaled, RsiPart, MacdPart, BandPart, EmaPart;
    EqualParts(p', Scaled(p, -1.0), BandPart(m), Scaled(BandPart(ind), -1.0));
    EqualParts(p' + BandPart(m), Scaled(p + BandPart(ind), -1.0), EmaPart(m), Scaled(EmaPart(ind), -1.0));
  }

  lemma Adds(a: real, b: real, c: real)
    ensures Times(a + b, c) == Times(a, c) + Times(b, c)
    ensures Times(0.0, c) == 0.0
  {
  }

  lemma {:induction false} SumScales(s: seq<real>, c: real)
    ensures Sum(Scaled(s, c)) == Times(Sum(s), c)
  {
    if s == [] {
      assert Scaled(s, c) == [];
    } else {
      var n := |s| - 1;
      SumScales(s[..n], c);
      Adds(Sum(s[..n]), s[n], c);
      hide Times;
      assert Scaled(s, c)[..n] == Scaled(s[..n], c);
    }
  }

  lemma QuotientScales(x: real, n: real, c: real)
    requires n > 0.0
    ensures Times(x, c) / n == x / n * c
  {
    assert x / n * c * n == x * c;
  }

  lemma AverageScales(s: seq<real>, c: real)
    requires s != []
    ensures Scaled(s, c) != [] && Average(Scaled(s, c)) == Average(s) * c
  {
    SumScales(s, c);
    var n := |s| as real;
    QuotientScales(Sum(s), n, c);
    assert |Scaled(s, c)| as real == n;
    hide Scaled, Sum, Times;
    assert Average(Scaled(s, c)) == Times(Sum(s), c) / n;
  }

  lemma ScaledTwice(s: seq<real>, c: real, d: real)
    ensures Scaled(Scaled(s, c), d) == Scaled(Scaled(s, d), c)
  {
    forall i | 0 <= i < |s| ensures Times(Times(s[i], c), d) == Times(Times(s[i], d), c) { }
    hide Times;
  }

  lemma NegatedVerdict(s: seq<real>)
    ensures Verdict(Scaled(s, -1.0)) == (Opposite(Verdict(s).0), Verdict(s).1)
  {
    if s != [] {
      AverageScales(s, -1.0);
      hide Average;
      var avg := Average(s);
      assert Average(Scaled(s, -1.0)) == -avg;
    }
  }

  /** The mirrored market gets the opposite signal with the same confidence. */
  lemma SignalMirrors(ind: Indicators, c: real)
    requires BandsSeen(ind) == BandsSeen(Mirror(ind, c)) && EvenHanded(ind)
    ensures Verdict(Scores(Mirror(ind, c))) == (Opposite(Verdict(Scores(ind)).0), Verdict(Scores(ind)).1)
  {
    ScoresMirrorIff(ind, c);
    ScaledTwice(BaseScores(ind), -1.0, AMPLIFIER);
    assert HighVolume(Mirror(ind, c)) == HighVolume(ind);
    NegatedVerdict(Scores(ind));
  }

  /** Equal moving averages are read as bearish, so a calm market and its mirror image both get SELL. */
  lemma EqualAveragesLeanBearish(price: real)
    ensures var calm := Indicators(None, None, None, None, None, Some(price), Some(price), None, None);
            Verdict(Scores(calm)) == (Sell, 0.5) && Verdict(Scores(Mirror(calm, price))) == (Sell, 0.5)
  {
    var calm := Indicators(None, None, None, None, None, Some(price), Some(price), None, None);
    assert BaseScores(calm) == [-0.5];
    assert Mirror(calm, price) == calm;
    assert [-0.5][..0] == [];
    assert Sum([-0.5]) == -0.5;
  }

  // ---- amplification

  /** Volume never turns one side into the other; it can only lift a HOLD over the line, and does so
      exactly when the plain average was already beyond a twelfth. */
  lemma AmplifiedVerdict(s: seq<real>)
    requires s != []
    ensures var (d, amplified) := (Verdict(s).0, Verdict(Scaled(s, AMPLIFIER)).0);
            && (amplified == Buy <==> Average(s) > 1.0 / 12.0)
            && (amplified == Sell <==> Average(s) < -1.0 / 12.0)
            && (d != Hold ==> amplified == d)
  {
    AverageScales(s, AMPLIFIER);
    hide Average;
  }

  predicate Within(s: seq<real>, b: real) {
    forall i | 0 <= i < |s| :: -b <= s[i] <= b
  }

  lemma {:induction false} SumWithin(s: seq<real>, b: real)
    requires Within(s, b) && b >= 0.0
    ensures -b * |s| as real <= Sum(s) <= b * |s| as real
  {
    if s != [] {
      SumWithin(s[..|s| - 1], b);
    }
  }

  lemma QuotientWithin(x: real, n: real, b: real)
    requires n > 0.0 && -b * n <= x <= b * n
    ensures -b <= x / n <= b
  {
  }

  lemma AverageWithin(s: seq<real>, b: real)
    requires s != [] && Within(s, b) && b >= 0.0
    ensures -b <= Average(s) <= b
  {
    SumWithin(s, b);
    QuotientWithin(Sum(s), |s| as real, b);
  }

  lemma ScoresWithin(ind: Indicators)
    ensures Within(BaseScores(ind), 0.8) && Within(Scores(ind), 0.96)
  {
    assert Within(RsiPart(ind), 0.8) && Within(MacdPart(ind), 0.8);
    assert Within(BandPart(ind), 0.8) && Within(EmaPart(ind), 0.8);
  }

  /** Confidence never exceeds 0.96, so the cap at 1 is never reached: what is reported is the average itself. */
  lemma ConfidenceBelowCap(ind: Indicators)
    ensures 0.0 <= Verdict(Scores(ind)).1 <= 0.96
    ensures Verdict(Scores(ind)).0 != Hold ==> 0.1 < Verdict(Scores(ind)).1 == Abs(Average(Scores(ind)))
  {
    ScoresWithin(ind);
    hide Scores;
    if Scores(ind) != [] {
      AverageWithin(Scores(ind), 0.96);
      hide Average;
    }
  }

  /** The bound is attained, by an oversold coin at high volume. */
  lemma ConfidenceBoundAttained()
    ensures Verdict(Scores(Indicators(Some(10.0), None, None, None, None, None, None, Some(2.0), Some(1.0)))) == (Buy, 0.96)
  {
    var ind := Indicators(Some(10.0), None, None, None, None, None, None, Some(2.0), Some(1.0));
    assert BaseScores(ind) == [0.8];
    assert Scores(ind) == [0.96];
    assert [0.96][..0] == [];
    assert Sum([0.96]) == 0.96;
  }

  // ---- what each indicator contributes

  const NOTHING := Indicators(None, None, None, None, None, None, None, None, None)

  function OnlyRsi(ind: Indicators): Indicators {
    NOTHING.(rsi := ind.rsi)
  }

  function OnlyMacd(ind: Indicators): Indicators {
    NOTHING.(macdHistogram := ind.macdHistogram)
  }

  function OnlyBands(ind: Indicators): Indicators {
    NOTHING.(currentPrice := ind.currentPrice, bbLower := ind.bbLower, bbUpper := ind.bbUpper)
  }

  function OnlyEmas(ind: Indicators): Indicators {
    NOTHING.(emaShort := ind.emaShort, emaLong := ind.emaLong)
  }

  lemma VerdictOfOne(x: real)
    ensures -1.0 <= x <= 1.0 ==>
              Verdict([x]) == if x > 0.1 then (Buy, x) else if x < -0.1 then (Sell, -x) else (Hold, 0.0)
  {
    assert [x][..0] == [];
    assert Sum([x]) == Sum([]) + x;
    assert Average([x]) == x;
    hide Sum, Average;
  }

  lemma OneScore(ind: Indicators, x: real)
    requires BaseScores(ind) == [x] && !HighVolume(ind) && -1.0 <= x <= 1.0
    ensures Verdict(Scores(ind)) == if x > 0.1 then (Buy, x) else if x < -0.1 then (Sell, -x) else (Hold, 0.0)
  {
    VerdictOfOne(x);
    hide BaseScores, HighVolume, Verdict;
  }

  lemma SilentVerdict(ind: Indicators)
    requires BaseScores(ind) == []
    ensures Verdict(Scores(ind)) == (Hold, 0.0)
  {
    hide BaseScores, HighVolume;
  }

  /** The relative strength index alone: oversold below 30, overbought above 70, leaning outside 45 to 55. */
  lemma RsiAlone(r: real)
    ensures Verdict(Scores(NOTHING.(rsi := Some(r))))
         == if r < 30.0 then (Buy, 0.8) else if r < 45.0 then (Buy, 0.3) else if r <= 55.0 then (Hold, 0.0)
            else if r <= 70.0 then (Sell, 0.3) else (Sell, 0.8)
  {
    OneScore(NOTHING.(rsi := Some(r)), RsiScore(r));
    hide Verdict, Scores;
  }

  /** The histogram alone: its sign decides, and zero counts as missing. */
  lemma MacdAlone(h: real)
    ensures Verdict(Scores(NOTHING.(macdHistogram := Some(h))))
         == if h > 0.0 then (Buy, 0.6) else if h < 0.0 then (Sell, 0.6) else (Hold, 0.0)
  {
    if h != 0.0 { OneScore(NOTHING.(macdHistogram := Some(h)), if h > 0.0 then 0.6 else -0.6); }
    if h == 0.0 { assert Scores(NOTHING.(macdHistogram := Some(h))) == []; }
    hide Scores;
  }

  /** The bands alone: a price on or below the lower band buys, one on or above the upper band sells; a zero among the three
      counts as missing. */
  lemma BandsAlone(price: real, lower: real, upper: real)
    ensures Verdict(Scores(NOTHING.(currentPrice := Some(price), bbLower := Some(lower), bbUpper := Some(upper))))
         == if price == 0.0 || lower == 0.0 || upper == 0.0 then (Hold, 0.0)
            else if price <= lower then (Buy, 0.7) else if price >= upper then (Sell, 0.7) else (Hold, 0.0)
  {
    var ind := NOTHING.(currentPrice := Some(price), bbLower := Some(lower), bbUpper := Some(upper));
    if price == 0.0 || lower == 0.0 || upper == 0.0 {
      SilentVerdict(ind);
    } else {
      OneScore(ind, if price <= lower then 0.7 else if price >= upper then -0.7 else 0.0);
    }
    hide Verdict, Scores;
  }

  /** The averages alone: the short one has to be above the long one to buy. */
  lemma EmasAlone(short: real, long: real)
    ensures Verdict(Scores(NOTHING.(emaShort := Some(short), emaLong := Some(long))))
         == if short > long then (Buy, 0.5) else (Sell, 0.5)
  {
    OneScore(NOTHING.(emaShort := Some(short), emaLong := Some(long)), if short > long then 0.5 else -0.5);
    hide Verdict, Scores;
  }

  /** A verdict as a signed number. */
  function Pull(ind: Indicators): real {
    var (d, confidence) := Verdict(Scores(ind));
    if d == Buy then confidence else if d == Sell then -confidence else 0.0
  }

  /** How many of the indicators are there to be heard. */
  function Heard(ind: Indicators): nat {
    (if ind.rsi.Some? then 1 else 0)
    + (if ind.macdHistogram.Some? && ind.macdHistogram.value != 0.0 then 1 else 0)
    + (if Truthy(ind.currentPrice) && Truthy(ind.bbLower) && Truthy(ind.bbUpper) then 1 else 0)
    + (if ind.emaShort.Some? && ind.emaLong.Some? then 1 else 0)
  }

  lemma {:induction false} SumConcat(a: seq<real>, b: seq<real>)
    ensures Sum(a + b) == Sum(a) + Sum(b)
  {
    if b == [] {
      assert a + b == a;
    } else {
      assert (a + b)[..|a + b| - 1] == a + b[..|b| - 1];
      SumConcat(a, b[..|b| - 1]);
    }
  }

  lemma AtMostOne(s: seq<real>)
    requires |s| <= 1
    ensures Sum(s) == if |s| == 1 then s[0] else 0.0
  {
    if |s| == 1 { assert s[..0] == []; }
  }

  lemma PullOfPart(ind: Indicators, part: seq<real>)
    requires BaseScores(ind) == part && |part| <= 1 && !HighVolume(ind)
    requires part != [] ==> -1.0 <= part[0] <= 1.0 && (part[0] > 0.1 || part[0] < -0.1 || part[0] == 0.0)
    ensures Pull(ind) == Sum(part)
  {
    AtMostOne(part);
    if part != [] {
      assert part == [part[0]];
      OneScore(ind, part[0]);
    }
    hide Sum, BaseScores, HighVolume;
  }

  lemma PullsArePartSums(ind: Indicators)
    ensures Pull(OnlyRsi(ind)) == Sum(RsiPart(ind)) && Pull(OnlyMacd(ind)) == Sum(MacdPart(ind))
    ensures Pull(OnlyBands(ind)) == Sum(BandPart(ind)) && Pull(OnlyEmas(ind)) == Sum(EmaPart(ind))
  {
    assert BaseScores(OnlyRsi(ind)) == RsiPart(ind) && BaseScores(OnlyMacd(ind)) == MacdPart(ind);
    assert BaseScores(OnlyBands(ind)) == BandPart(ind) && BaseScores(OnlyEmas(ind)) == EmaPart(ind);
    hide Pull, Sum, BaseScores;
    PullOfPart(OnlyRsi(ind), RsiPart(ind));
    PullOfPart(OnlyMacd(ind), MacdPart(ind));
    PullOfPart(OnlyBands(ind), BandPart(ind));
    PullOfPart(OnlyEmas(ind), EmaPart(ind));
  }

  lemma PartsHeard(ind: Indicators)
    ensures |RsiPart(ind)| + |MacdPart(ind)| + |BandPart(ind)| + |EmaPart(ind)| == Heard(ind)
  {
  }

  lemma SumOfFour(a: seq<real>, b: seq<real>, c: seq<real>, d: seq<real>)
    ensures Sum(a + b + c + d) == Sum(a) + Sum(b) + Sum(c) + Sum(d)
  {
    SumConcat(a + b + c, d);
    SumConcat(a + b, c);
    SumConcat(a, b);
    hide Sum;
  }

  lemma SumOfPulls(ind: Indicators)
    ensures |BaseScores(ind)| == Heard(ind)
    ensures Sum(BaseScores(ind))
         == Pull(OnlyRsi(ind)) + Pull(OnlyMacd(ind)) + Pull(OnlyBands(ind)) + Pull(OnlyEmas(ind))
  {
    hide Pull, Sum, RsiPart, MacdPart, BandPart, EmaPart, Heard, OnlyRsi, OnlyMacd, OnlyBands, OnlyEmas;
    PullsArePartSums(ind);
    PartsHeard(ind);
    SumOfFour(RsiPart(ind), MacdPart(ind), BandPart(ind), EmaPart(ind));
  }

  lemma RatioAbove(v: real, t: real, r: real)
    requires t > 0.0
    ensures v / t > r <==> v > r * t
  {
    assert v / t * t == v;
    if v / t > r { MulPositive(v / t - r, t); }
    if v / t <= r { MulMonotone(v / t, r, t); }
  }

  lemma LoudIff(ind: Indicators)
    ensures HighVolume(ind)
       <==> Truthy(ind.currentVolume) && ind.volumeSma.Some? && ind.volumeSma.value > 0.0
            && ind.currentVolume.value > 1.5 * ind.volumeSma.value
  {
    if ind.currentVolume.Some? && ind.volumeSma.Some? && ind.volumeSma.value > 0.0 {
      RatioAbove(ind.currentVolume.value, ind.volumeSma.value, 1.5);
    }
  }

  lemma VerdictOfMean(ind: Indicators, mean: real, x: real)
    requires BaseScores(ind) != [] && mean == Average(BaseScores(ind))
    requires x == if HighVolume(ind) then mean * 1.2 else mean
    ensures Verdict(Scores(ind)) == if x > 0.1 then (Buy, x) else if x < -0.1 then (Sell, -x) else (Hold, 0.0)
  {
    AverageScales(BaseScores(ind), 1.2);
    ConfidenceBelowCap(ind);
    assert Scores(ind) != [] && Average(Scores(ind)) == x;
    hide Average, Scores, BaseScores, HighVolume;
  }

  /** All indicators together: the mean of what each says alone over those that are heard, times 1.2 when the volume is more
      than one and a half times its average; beyond a tenth it is a signal of that strength. */
  lemma VerdictIsMeanOfPulls(ind: Indicators, loud: bool, mean: real, x: real)
    requires loud == (Truthy(ind.currentVolume) && ind.volumeSma.Some? && ind.volumeSma.value > 0.0
                      && ind.currentVolume.value > 1.5 * ind.volumeSma.value)
    requires mean == if Heard(ind) == 0 then 0.0
                     else (Pull(OnlyRsi(ind)) + Pull(OnlyMacd(ind)) + Pull(OnlyBands(ind)) + Pull(OnlyEmas(ind)))
                          / Heard(ind) as real
    requires x == if loud then mean * 1.2 else mean
    ensures Verdict(Scores(ind)) == if x > 0.1 then (Buy, x) else if x < -0.1 then (Sell, -x) else (Hold, 0.0)
  {
    SumOfPulls(ind);
    LoudIff(ind);
    hide Verdict, Pull, Sum, BaseScores, Heard, HighVolume, Scores;
    if Heard(ind) == 0 {
      SilentVerdict(ind);
    } else {
      VerdictOfMean(ind, mean, x);
    }
  }

  // ---- the agent

  datatype Candle = Candle(open: real, high: real, low: real, close: real, volume: real)

  function CandlesOf(candles: map<string, seq<Candle>>, market: string): seq<Candle> {
    if market in candles then candles[market] else []
  }

  class TechnicalStrategy {
    var candles: map<string, seq<Candle>>
    ghost var log: map<string, seq<Candle>>

    /** Each buffer is the last 200 candles ever received for its market. */
    ghost predicate Valid()
      reads this
    {
      forall m :: CandlesOf(candles, m) == LastN(CandlesOf(log, m), 200)
    }

    constructor ()
      ensures Valid() && log == map[]
    {
      candles, log := map[], map[];
    }

    method OnMessage(market: string, candle: Candle)
      requires Valid()
      modifies this
      ensures Valid()
      ensures log == old(log)[market := CandlesOf(old(log), market) + [candle]]
    {
      var buffer := CandlesOf(candles, market) + [candle];
      ghost var full := CandlesOf(log, market);
      LastNAppend(full, candle, MAX_CANDLES);
      ghost var candles0, log0 := candles, log;
      candles := candles[market := if |buffer| > MAX_CANDLES then buffer[|buffer| - MAX_CANDLES..] else buffer];
      log := log[market := full + [candle]];
      forall m ensures CandlesOf(candles, m) == LastN(CandlesOf(log, m), MAX_CANDLES) {
        if m != market { assert CandlesOf(candles0, m) == LastN(CandlesOf(log0, m), MAX_CANDLES); }
      }
    }

    /** A signal is published once 30 candles have been received, unless the indicator library raises. */
    method Evaluate(market: string, indicators: Option<Indicators>) returns (signal: Option<Signal>)
      requires Valid()
      ensures signal.Some? <==> |CandlesOf(log, market)| >= 30 && indicators.Some?
      ensures signal.Some? ==>
                var (d, conf) := Verdict(Scores(indicators.value));
                signal.value == SignalMessage(market, d, conf, "ta")
    {
      assert CandlesOf(candles, market) == LastN(CandlesOf(log, market), MAX_CANDLES);
      if |CandlesOf(candles, market)| < MIN_CANDLES { return None; }
      if indicators.None? { return None; }
      ConfidenceBelowCap(indicators.value);
      var direction, confidence := GenerateSignal(indicators.value);
      hide Scores, Verdict;
      return Some(SignalMessage(market, direction, confidence, "ta"));
    }
  }
}
