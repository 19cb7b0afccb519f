/** The confidence classifier: four ordinal factors graded from a snapshot
    pair's deltas and the current snapshot, and the aggregate confidence level
    derived from how many of them are strong. */
module Confidence {

  /** Grade of a change magnitude or of the network size. */
  datatype Size = Small | Medium | Large

  /** Grade of the active-node ratio. */
  datatype Health = Poor | Moderate | Healthy

  /** One confidence factor; the constructor says which dimension it grades. */
  datatype Factor =
    | TorChange(size: Size)
    | PercentageChange(size: Size)
    | Network(size: Size)
    | ActiveRatio(health: Health)

  datatype Level = Low | Mid | High

  function Abs(x: int): nat { if x < 0 then -x else x }

  function AbsReal(x: real): real { if x < 0.0 then -x else x }

  /** Magnitude of the signed Tor-node change; both thresholds are strict. */
  function GradeTorChange(torChange: int): (s: Size)
    ensures s == Large <==> Abs(torChange) > 50
    ensures s == Medium <==> 25 < Abs(torChange) <= 50
    ensures s == Small <==> Abs(torChange) <= 25
  {
    if Abs(torChange) > 50 then Large
    else if Abs(torChange) > 25 then Medium
    else Small
  }

  /** Magnitude of the percentage change; both thresholds are strict. */
  function GradePercentage(percentageChange: real): (s: Size)
    ensures s == Large <==> AbsReal(percentageChange) > 5.0
    ensures s == Medium <==> 2.5 < AbsReal(percentageChange) <= 5.0
    ensures s == Small <==> AbsReal(percentageChange) <= 2.5
  {
    if AbsReal(percentageChange) > 5.0 then Large
    else if AbsReal(percentageChange) > 2.5 then Medium
    else Small
  }

  /** Size of the network by its current total node count; strict thresholds. */
  function GradeNetwork(totalNodes: int): (s: Size)
    ensures s == Large <==> totalNodes > 10000
    ensures s == Medium <==> 8000 < totalNodes <= 10000
    ensures s == Small <==> totalNodes <= 8000
  {
    if totalNodes > 10000 then Large
    else if totalNodes > 8000 then Medium
    else Small
  }

  /** Health of the active ratio; both bands include their end points, and the
      moderate band is what remains of [0.6, 0.95] outside [0.7, 0.9]. */
  function GradeActiveRatio(activeRatio: real): (h: Health)
    ensures h == Healthy <==> 0.7 <= activeRatio <= 0.9
    ensures h == Moderate <==> (0.6 <= activeRatio < 0.7 || 0.9 < activeRatio <= 0.95)
    ensures h == Poor <==> (activeRatio < 0.6 || activeRatio > 0.95)
  {
    if 0.7 <= activeRatio <= 0.9 then Healthy
    else if 0.6 <= activeRatio <= 0.95 then Moderate
    else Poor
  }

  /** The four factors, in the fixed order magnitude, percentage, network size,
      active ratio, each counting as high or medium exactly at its thresholds. */
  function Factors(torChange: int, percentageChange: real, totalNodes: int, activeRatio: real): (fs: seq<Factor>)
    ensures |fs| == 4
    ensures fs[0].TorChange? && fs[1].PercentageChange? && fs[2].Network? && fs[3].ActiveRatio?
    ensures IsHigh(fs[0]) <==> Abs(torChange) > 50
    ensures IsMedium(fs[0]) <==> 25 < Abs(torChange) <= 50
    ensures IsHigh(fs[1]) <==> AbsReal(percentageChange) > 5.0
    ensures IsMedium(fs[1]) <==> 2.5 < AbsReal(percentageChange) <= 5.0
    ensures IsHigh(fs[2]) <==> totalNodes > 10000
    ensures IsMedium(fs[2]) <==> 8000 < totalNodes <= 10000
    ensures IsHigh(fs[3]) <==> 0.7 <= activeRatio <= 0.9
    ensures IsMedium(fs[3]) <==> (0.6 <= activeRatio < 0.7 || 0.9 < activeRatio <= 0.95)
  {
    [TorChange(GradeTorChange(torChange)),
     PercentageChange(GradePercentage(percentageChange)),
     Network(GradeNetwork(totalNodes)),
     ActiveRatio(GradeActiveRatio(activeRatio))]
  }

  /** Ordinal position of a factor's grade: 0 for the weakest, 2 for the strongest. */
  function Rank(f: Factor): nat
  {
    match f
    case TorChange(s) => SizeRank(s)
    case PercentageChange(s) => SizeRank(s)
    case Network(s) => SizeRank(s)
    case ActiveRatio(h) => if h == Healthy then 2 else if h == Moderate then 1 else 0
  }

  function SizeRank(s: Size): nat
  {
    match s
    case Small => 0
    case Medium => 1
    case Large => 2
  }

  /** A factor counts as high when it is a LARGE or HEALTHY grade: the
      strongest of its dimension's three grades. */
  predicate IsHigh(f: Factor)
    ensures IsHigh(f) <==> Rank(f) == 2
  {
    match f
    case TorChange(s) => s == Large
    case PercentageChange(s) => s == Large
    case Network(s) => s == Large
    case ActiveRatio(h) => h == Healthy
  }

  /** A factor counts as medium when it is a MEDIUM or MODERATE grade: the
      middle one of its dimension's three grades, so never also high. */
  predicate IsMedium(f: Factor)
    ensures IsMedium(f) <==> Rank(f) == 1
    ensures IsMedium(f) ==> !IsHigh(f)
  {
    match f
    case TorChange(s) => s == Medium
    case PercentageChange(s) => s == Medium
    case Network(s) => s == Medium
    case ActiveRatio(h) => h == Moderate
  }

  /** The number of high factors; never more than there are factors. */
  function HighCount(fs: seq<Factor>): (c: nat)
    ensures c <= |fs|
  {
    if fs == [] then 0 else (if IsHigh(fs[0]) then 1 else 0) + HighCount(fs[1..])
  }

  /** The number of medium factors; never more than there are factors. */
  function MediumCount(fs: seq<Factor>): (c: nat)
    ensures c <= |fs|
  {
    if fs == [] then 0 else (if IsMedium(fs[0]) then 1 else 0) + MediumCount(fs[1..])
  }

  /** Each count is zero exactly when no factor of its kind is present, and
      equals the length exactly when every factor is of its kind. */
  lemma {:induction false} CountsCharacterized(fs: seq<Factor>)
    ensures HighCount(fs) == 0 <==> forall i :: 0 <= i < |fs| ==> !IsHigh(fs[i])
    ensures MediumCount(fs) == 0 <==> forall i :: 0 <= i < |fs| ==> !IsMedium(fs[i])
    ensures HighCount(fs) == |fs| <==> forall i :: 0 <= i < |fs| ==> IsHigh(fs[i])
    ensures MediumCount(fs) == |fs| <==> forall i :: 0 <= i < |fs| ==> IsMedium(fs[i])
  {
    if fs != [] {
      CountsCharacterized(fs[1..]);
      assert forall i :: 1 <= i < |fs| ==> fs[i] == fs[1..][i - 1];
    }
  }

  /** No factor is both high and medium, so the two counts never exceed the
      number of factors between them. */
  lemma {:induction false} CountsBounded(fs: seq<Factor>)
    ensures HighCount(fs) + MediumCount(fs) <= |fs|
  {
    if fs != [] {
      CountsBounded(fs[1..]);
    }
  }

  /** The aggregate level: HIGH on three or more high factors, otherwise MEDIUM
      when high and medium factors together reach three, otherwise LOW. The
      bands are nested: any level above LOW has three factors that are at
      least medium. */
  function LevelOf(fs: seq<Factor>): (l: Level)
    ensures l != Low <==> HighCount(fs) + MediumCount(fs) >= 3
    ensures l == High ==> |fs| >= 3
  {
    if HighCount(fs) >= 3 then High
    else if HighCount(fs) + MediumCount(fs) >= 3 then Mid
    else Low
  }

  function LevelRank(l: Level): nat
  {
    match l
    case Low => 0
    case Mid => 1
    case High => 2
  }

  /** The confidence level of a snapshot pair. A level above LOW needs at least
      one of the two change factors to be MEDIUM or stronger, and HIGH needs at
      least one of them to be LARGE: network size and active ratio alone never
      lift the confidence. */
  function Classify(torChange: int, percentageChange: real, totalNodes: int, activeRatio: real): (l: Level)
    ensures var fs := Factors(torChange, percentageChange, totalNodes, activeRatio);
      (l == High <==> HighCount(fs) >= 3) &&
      (l == Mid <==> HighCount(fs) < 3 && HighCount(fs) + MediumCount(fs) >= 3) &&
      (l == Low <==> HighCount(fs) + MediumCount(fs) < 3)
    ensures l == High ==> Abs(torChange) > 50 || AbsReal(percentageChange) > 5.0
    ensures l != Low ==> Abs(torChange) > 25 || AbsReal(percentageChange) > 2.5
  {
    var fs := Factors(torChange, percentageChange, totalNodes, activeRatio);
    FourCounts(fs);
    LevelOf(fs)
  }

  /** The counts of a four-factor list, spelled out position by position. */
  lemma FourCounts(fs: seq<Factor>)
    requires |fs| == 4
    ensures HighCount(fs) == (if IsHigh(fs[0]) then 1 else 0) + (if IsHigh(fs[1]) then 1 else 0)
                           + (if IsHigh(fs[2]) then 1 else 0) + (if IsHigh(fs[3]) then 1 else 0)
    ensures MediumCount(fs) == (if IsMedium(fs[0]) then 1 else 0) + (if IsMedium(fs[1]) then 1 else 0)
                             + (if IsMedium(fs[2]) then 1 else 0) + (if IsMedium(fs[3]) then 1 else 0)
  {
    assert fs[1..][0] == fs[1] && fs[1..][1..] == fs[2..];
    assert fs[2..][0] == fs[2] && fs[2..][1..] == fs[3..];
    assert fs[3..][0] == fs[3] && fs[3..][1..] == [];
    assert HighCount(fs[3..]) == (if IsHigh(fs[3]) then 1 else 0);
    assert HighCount(fs[2..]) == (if IsHigh(fs[2]) then 1 else 0) + HighCount(fs[3..]);
    assert HighCount(fs[1..]) == (if IsHigh(fs[1]) then 1 else 0) + HighCount(fs[2..]);
    assert MediumCount(fs[3..]) == (if IsMedium(fs[3]) then 1 else 0);
    assert MediumCount(fs[2..]) == (if IsMedium(fs[2]) then 1 else 0) + MediumCount(fs[3..]);
    assert MediumCount(fs[1..]) == (if IsMedium(fs[1]) then 1 else 0) + MediumCount(fs[2..]);
  }

  /** The three levels partition the possible counts exactly as the thresholds
      say. */
  lemma LevelBands(fs: seq<Factor>)
    ensures LevelOf(fs) == High <==> HighCount(fs) >= 3
    ensures LevelOf(fs) == Mid <==> HighCount(fs) < 3 && HighCount(fs) + MediumCount(fs) >= 3
    ensures LevelOf(fs) == Low <==> HighCount(fs) + MediumCount(fs) < 3
  {
  }

  /** Raising any factor's grade, position by position, never lowers the
      level: both counts that the level is read from can only grow. */
  lemma {:induction false} LevelMonotone(fs: seq<Factor>, gs: seq<Factor>)
    requires |fs| == |gs|
    requires forall i :: 0 <= i < |fs| ==> Rank(fs[i]) <= Rank(gs[i])
    ensures HighCount(fs) <= HighCount(gs)
    ensures HighCount(fs) + MediumCount(fs) <= HighCount(gs) + MediumCount(gs)
    ensures LevelRank(LevelOf(fs)) <= LevelRank(LevelOf(gs))
  {
    if fs != [] {
      assert forall i :: 0 <= i < |fs[1..]| ==> Rank(fs[1..][i]) <= Rank(gs[1..][i]) by {
        forall i | 0 <= i < |fs[1..]| ensures Rank(fs[1..][i]) <= Rank(gs[1..][i]) {
          assert fs[1..][i] == fs[i + 1] && gs[1..][i] == gs[i + 1];
        }
      }
      LevelMonotone(fs[1..], gs[1..]);
      assert Rank(fs[0]) <= Rank(gs[0]);
    }
  }

  /** A larger change magnitude and a larger percentage magnitude, with the
      network size and the active ratio held fixed, never give a lower
      confidence. */
  lemma ClassifyMonotone(tc1: int, pct1: real, tc2: int, pct2: real, totalNodes: int, activeRatio: real)
    requires Abs(tc1) <= Abs(tc2) && AbsReal(pct1) <= AbsReal(pct2)
    ensures LevelRank(Classify(tc1, pct1, totalNodes, activeRatio)) <= LevelRank(Classify(tc2, pct2, totalNodes, activeRatio))
  {
    var fs := Factors(tc1, pct1, totalNodes, activeRatio);
    var gs := Factors(tc2, pct2, totalNodes, activeRatio);
    assert Rank(fs[0]) <= Rank(gs[0]);
    assert Rank(fs[1]) <= Rank(gs[1]);
    assert Rank(fs[2]) == Rank(gs[2]) && Rank(fs[3]) == Rank(gs[3]);
    LevelMonotone(fs, gs);
  }
}
