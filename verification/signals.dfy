/** The signal engine: the priority-ordered decision table over the Tor-node
    change, the percentage change and the confidence level, and the analysis
    of a snapshot window that feeds it. */
module Signals {
  import opened Snapshot
  import opened Confidence

  datatype Signal = StrongSell | StrongBuy | Sell | Buy | SlightSell | SlightBuy | Hold | InsufficientData

  datatype Bias =
    | HighlyBearish | HighlyBullish | Bearish | Bullish
    | SlightlyBearish | SlightlyBullish | Neutral | NeedMoreData

  /** The rationale of a decision: which branch produced it, with the figures
      the branch reports. Its display formatting is not modelled. */
  datatype Reasoning =
    | LargeIncrease(torChange: int, percentageChange: real)
    | LargeDecrease(torChange: int, percentageChange: real)
    | ModerateIncrease(torChange: int, percentageChange: real)
    | ModerateDecrease(torChange: int, percentageChange: real)
    | SmallIncrease(torChange: int)
    | SmallDecrease(torChange: int)
    | MinimalChange(torChange: int)
    | NeedTwoDataPoints

  datatype Decision = Decision(signal: Signal, bias: Bias, reasoning: Reasoning)

  /** What the analysis reports beyond the signal when both slots are filled. */
  datatype Details = Details(confidenceFactors: seq<Factor>, totalNodes: int, activeRatio: real)

  datatype SignalResult = SignalResult(
    currentTor: int,
    previousTor: int,
    torChange: int,
    percentageChange: real,
    signal: Signal,
    confidence: Level,
    bias: Bias,
    reasoning: Reasoning,
    details: Option<Details>)

  /** The bias that goes with each signal: a bearish bias exactly for the
      sell family, a bullish one exactly for the buy family, NEUTRAL for HOLD
      and NEED MORE DATA for missing data. */
  function BiasOf(s: Signal): (b: Bias)
    ensures IsSellFamily(s) <==> b in {HighlyBearish, Bearish, SlightlyBearish}
    ensures IsBuyFamily(s) <==> b in {HighlyBullish, Bullish, SlightlyBullish}
    ensures b == Neutral <==> s == Hold
    ensures b == NeedMoreData <==> s == InsufficientData
  {
    match s
    case StrongSell => HighlyBearish
    case StrongBuy => HighlyBullish
    case Sell => Bearish
    case Buy => Bullish
    case SlightSell => SlightlyBearish
    case SlightBuy => SlightlyBullish
    case Hold => Neutral
    case InsufficientData => NeedMoreData
  }

  /** Distinct signals have distinct biases, so the bias alone tells the signal. */
  lemma BiasIdentifiesSignal(s: Signal, t: Signal)
    ensures BiasOf(s) == BiasOf(t) <==> s == t
  {
  }

  predicate IsSellFamily(s: Signal) { s == StrongSell || s == Sell || s == SlightSell }

  predicate IsBuyFamily(s: Signal) { s == StrongBuy || s == Buy || s == SlightBuy }

  /** Relative change of the Tor-node count in percent; 0 when the previous
      count is not positive, so the division never faults. */
  function PercentageChangeOf(torChange: int, previousTor: int): (p: real)
    ensures previousTor <= 0 ==> p == 0.0
    ensures previousTor > 0 ==> p * previousTor as real == torChange as real * 100.0
  {
    if previousTor > 0 then (torChange as real / previousTor as real) * 100.0 else 0.0
  }

  /** Against a positive baseline the percentage change has the sign of the
      node change. */
  lemma PercentageSign(torChange: int, previousTor: int)
    requires previousTor > 0
    ensures PercentageChangeOf(torChange, previousTor) > 0.0 <==> torChange > 0
    ensures PercentageChangeOf(torChange, previousTor) < 0.0 <==> torChange < 0
  {
  }

  /** Against a fixed baseline, a larger node change in magnitude gives a
      percentage change at least as large in magnitude. */
  lemma PercentageMonotone(tc1: int, tc2: int, previousTor: int)
    requires Abs(tc1) <= Abs(tc2)
    ensures AbsReal(PercentageChangeOf(tc1, previousTor)) <= AbsReal(PercentageChangeOf(tc2, previousTor))
  {
    if previousTor > 0 {
      var k := 100.0 / previousTor as real;
      var p1, p2 := PercentageChangeOf(tc1, previousTor), PercentageChangeOf(tc2, previousTor);
      var x1, x2 := tc1 as real, tc2 as real;
      assert p1 == x1 * k && p2 == x2 * k;
      ScaledAbs(x1, k);
      ScaledAbs(x2, k);
      assert AbsReal(x1) <= AbsReal(x2);
      calc {
        AbsReal(p1);
        AbsReal(x1) * k;
      <= { ScaleMonotone(AbsReal(x1), AbsReal(x2), k); }
        AbsReal(x2) * k;
        AbsReal(p2);
      }
    }
  }

  /** Scaling by a positive factor keeps the order of magnitudes. */
  lemma ScaleMonotone(a: real, b: real, k: real)
    requires 0.0 <= a <= b && k > 0.0
    ensures a * k <= b * k
  {
  }

  /** Scaling by a positive factor scales the magnitude by it. */
  lemma ScaledAbs(x: real, k: real)
    requires k > 0.0
    ensures AbsReal(x * k) == AbsReal(x) * k
  {
  }

  /** The decision table, first match wins: strong signals need HIGH
      confidence, plain SELL/BUY need MEDIUM or HIGH, any change beyond 10
      nodes otherwise gives a slight signal, and everything else is HOLD. */
  function Decide(torChange: int, percentageChange: real, confidence: Level): (d: Decision)
    ensures d.bias == BiasOf(d.signal) && d.signal != InsufficientData
    ensures (d.signal == StrongSell || d.signal == StrongBuy) ==> confidence == High
    ensures (d.signal == Sell || d.signal == Buy) ==> confidence != Low
    ensures d.signal == StrongSell ==> torChange > 50 && percentageChange > 5.0
    ensures d.signal == StrongBuy ==> torChange < -50 && percentageChange < -5.0
    ensures d.signal == Sell ==> torChange > 25 && percentageChange > 2.5
    ensures d.signal == Buy ==> torChange < -25 && percentageChange < -2.5
    ensures IsSellFamily(d.signal) ==> torChange > 10
    ensures IsBuyFamily(d.signal) ==> torChange < -10
    ensures d.signal == Hold <==> -10 <= torChange <= 10
    ensures !d.reasoning.NeedTwoDataPoints? && d.reasoning.torChange == torChange
    // Each row fires when its conditions hold and no earlier row's do.
    ensures torChange > 50 && percentageChange > 5.0 && confidence == High ==> d.signal == StrongSell
    ensures torChange < -50 && percentageChange < -5.0 && confidence == High ==> d.signal == StrongBuy
    ensures torChange > 25 && percentageChange > 2.5 && confidence == Mid ==> d.signal == Sell
    ensures torChange > 25 && percentageChange > 2.5 && confidence == High ==> d.signal in {StrongSell, Sell}
    ensures torChange < -25 && percentageChange < -2.5 && confidence == Mid ==> d.signal == Buy
    ensures torChange < -25 && percentageChange < -2.5 && confidence == High ==> d.signal in {StrongBuy, Buy}
    ensures torChange > 10 && !(torChange > 25 && percentageChange > 2.5 && confidence != Low) ==> d.signal == SlightSell
    ensures torChange < -10 && !(torChange < -25 && percentageChange < -2.5 && confidence != Low) ==> d.signal == SlightBuy
    // Each row reports its own rationale; the percentage-gated rows cite the percentage.
    ensures (d.signal == StrongSell <==> d.reasoning.LargeIncrease?) && (d.signal == StrongBuy <==> d.reasoning.LargeDecrease?)
    ensures (d.signal == Sell <==> d.reasoning.ModerateIncrease?) && (d.signal == Buy <==> d.reasoning.ModerateDecrease?)
    ensures (d.signal == SlightSell <==> d.reasoning.SmallIncrease?) && (d.signal == SlightBuy <==> d.reasoning.SmallDecrease?)
    ensures d.signal == Hold <==> d.reasoning.MinimalChange?
    ensures d.signal in {StrongSell, StrongBuy, Sell, Buy} ==> d.reasoning.percentageChange == percentageChange
  {
    if torChange > 50 && percentageChange > 5.0 && confidence == High then
      Decision(StrongSell, HighlyBearish, LargeIncrease(torChange, percentageChange))
    else if torChange < -50 && percentageChange < -5.0 && confidence == High then
      Decision(StrongBuy, HighlyBullish, LargeDecrease(torChange, percentageChange))
    else if torChange > 25 && percentageChange > 2.5 && (confidence == Mid || confidence == High) then
      Decision(Sell, Bearish, ModerateIncrease(torChange, percentageChange))
    else if torChange < -25 && percentageChange < -2.5 && (confidence == Mid || confidence == High) then
      Decision(Buy, Bullish, ModerateDecrease(torChange, percentageChange))
    else if torChange > 10 then
      Decision(SlightSell, SlightlyBearish, SmallIncrease(torChange))
    else if torChange < -10 then
      Decision(SlightBuy, SlightlyBullish, SmallDecrease(torChange))
    else
      Decision(Hold, Neutral, MinimalChange(torChange))
  }

  /** Priority: when the strong-sell conditions hold, STRONG SELL is chosen
      even though the SELL and SLIGHT SELL conditions hold as well. */
  lemma StrongSellTakesPriority(torChange: int, percentageChange: real)
    requires torChange > 50 && percentageChange > 5.0
    ensures Decide(torChange, percentageChange, High).signal == StrongSell
    ensures Decide(torChange, percentageChange, Mid).signal == Sell
    ensures Decide(torChange, percentageChange, Low).signal == SlightSell
  {
  }

  /** At LOW confidence the table reduces to its last three rows: however
      large the change, only a slight signal or HOLD can result. */
  lemma LowConfidenceFallsThrough(torChange: int, percentageChange: real)
    ensures Decide(torChange, percentageChange, Low).signal ==
      if torChange > 10 then SlightSell else if torChange < -10 then SlightBuy else Hold
  {
  }

  /** Comparison of two snapshots: the signed Tor-node change, the guarded
      percentage change, the four factors graded from them and the current
      snapshot, the confidence drawn from those factors, and the decision
      table's row for the change, the percentage and that confidence. */
  function Compare(cur: NodeSnapshot, prev: NodeSnapshot): (r: SignalResult)
    ensures r.currentTor == cur.torNodes && r.previousTor == prev.torNodes
    ensures r.torChange == cur.torNodes - prev.torNodes
    ensures r.percentageChange == PercentageChangeOf(r.torChange, prev.torNodes)
    ensures r.details == Some(Details(Factors(r.torChange, r.percentageChange, cur.totalNodes, cur.activeRatio),
                                      cur.totalNodes, cur.activeRatio))
    ensures r.confidence == LevelOf(r.details.value.confidenceFactors)
    ensures Decision(r.signal, r.bias, r.reasoning) == Decide(r.torChange, r.percentageChange, r.confidence)
    ensures r.signal != InsufficientData && r.bias == BiasOf(r.signal)
  {
    var torChange := cur.torNodes - prev.torNodes;
    var percentageChange := PercentageChangeOf(torChange, prev.torNodes);
    var factors := Factors(torChange, percentageChange, cur.totalNodes, cur.activeRatio);
    var confidence := LevelOf(factors);
    var d := Decide(torChange, percentageChange, confidence);
    SignalResult(cur.torNodes, prev.torNodes, torChange, percentageChange,
                 d.signal, confidence, d.bias, d.reasoning,
                 Some(Details(factors, cur.totalNodes, cur.activeRatio)))
  }

  /** Analysis of a window. With either slot empty it reports insufficient
      data at LOW confidence with zero changes, and the Tor counts of
      whichever slots are filled; otherwise it is the comparison of the
      current snapshot against the previous one. */
  function HighConfidenceSignal(current: Option<NodeSnapshot>, previous: Option<NodeSnapshot>): (r: SignalResult)
    ensures r.signal == InsufficientData <==> current.None? || previous.None?
    ensures r.currentTor == (if current.Some? then current.value.torNodes else 0)
    ensures r.previousTor == (if previous.Some? then previous.value.torNodes else 0)
    ensures r.bias == BiasOf(r.signal)
    ensures r.signal == InsufficientData ==>
      r.confidence == Low && r.torChange == 0 && r.percentageChange == 0.0 &&
      r.reasoning == NeedTwoDataPoints && r.details.None?
    ensures r.signal != InsufficientData ==> r == Compare(current.value, previous.value)
  {
    if current.None? || previous.None? then
      SignalResult(
        if current.Some? then current.value.torNodes else 0,
        if previous.Some? then previous.value.torNodes else 0,
        0, 0.0, InsufficientData, Low, NeedMoreData, NeedTwoDataPoints, None)
    else
      Compare(current.value, previous.value)
  }

  /** Without a positive previous Tor count the percentage change is 0, so the
      four percentage-gated rows never fire: only a slight signal or HOLD can
      result. */
  lemma NoBaselineOnlySlightSignals(cur: NodeSnapshot, prev: NodeSnapshot)
    requires prev.torNodes <= 0
    ensures HighConfidenceSignal(Some(cur), Some(prev)).signal in {SlightSell, SlightBuy, Hold}
  {
  }

  /** Raising the magnitude of the Tor-node change, with the previous count,
      the network size and the active ratio held fixed, never lowers the
      confidence: the percentage change grows with it. */
  lemma RaisingChangeNeverLowersConfidence(tc1: int, tc2: int, previousTor: int, totalNodes: int, activeRatio: real)
    requires Abs(tc1) <= Abs(tc2)
    ensures LevelRank(Classify(tc1, PercentageChangeOf(tc1, previousTor), totalNodes, activeRatio))
         <= LevelRank(Classify(tc2, PercentageChangeOf(tc2, previousTor), totalNodes, activeRatio))
  {
    PercentageMonotone(tc1, tc2, previousTor);
    ClassifyMonotone(tc1, PercentageChangeOf(tc1, previousTor), tc2, PercentageChangeOf(tc2, previousTor), totalNodes, activeRatio);
  }

  /** Worked case: 1000 to 1060 Tor nodes in a 9100-node network with an
      active ratio of 0.8 has three high factors and gives STRONG SELL. */
  lemma ScenarioStrongSell()
    ensures var r := HighConfidenceSignal(Some(Derive(9100, 7280, 1060)), Some(Derive(9000, 7200, 1000)));
      r.torChange == 60 && r.percentageChange == 6.0 && r.confidence == High &&
      r.signal == StrongSell && r.bias == HighlyBearish
  {
  }

  /** Worked case: 1000 to 970 Tor nodes gives a change of -30 and -3.0 percent;
      in a 9100-node network with an active ratio of 0.65 that is four medium
      factors, MEDIUM confidence and BUY. */
  lemma ScenarioBuy()
    ensures var r := HighConfidenceSignal(Some(Derive(9100, 5915, 970)), Some(Derive(9000, 5850, 1000)));
      r.torChange == -30 && r.percentageChange == -3.0 && r.confidence == Mid &&
      r.signal == Buy && r.bias == Bullish
  {
  }
}
