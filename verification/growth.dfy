/** The network-growth signal, read from the change in the total node count
    between the two snapshots of the window. */
module Growth {
  import opened Snapshot

  datatype NetworkSignal = StrongGrowth | Growing | Stable | Shrinking | InsufficientData

  datatype NetworkResult = NetworkResult(
    currentTotal: int,
    previousTotal: int,
    totalChange: int,
    networkSignal: NetworkSignal)

  /** Growth bands over the total-node change, all strict. A change of zero is
      not above any band and so reads as shrinking. */
  function GrowthOf(totalChange: int): (s: NetworkSignal)
    ensures s != InsufficientData
    ensures s == StrongGrowth <==> totalChange > 100
    ensures s == Growing <==> 50 < totalChange <= 100
    ensures s == Stable <==> 0 < totalChange <= 50
    ensures s == Shrinking <==> totalChange <= 0
  {
    if totalChange > 100 then StrongGrowth
    else if totalChange > 50 then Growing
    else if totalChange > 0 then Stable
    else Shrinking
  }

  function GrowthRank(s: NetworkSignal): nat
  {
    match s
    case InsufficientData => 0
    case Shrinking => 0
    case Stable => 1
    case Growing => 2
    case StrongGrowth => 3
  }

  /** A larger total-node change never gives a weaker growth signal. */
  lemma GrowthMonotone(c1: int, c2: int)
    requires c1 <= c2
    ensures GrowthRank(GrowthOf(c1)) <= GrowthRank(GrowthOf(c2))
  {
  }

  /** Analysis of a window. With either slot empty it reports insufficient
      data with a zero change and the totals of whichever slots are filled;
      otherwise the signed change of the total and its growth band. */
  function NetworkSignalOf(current: Option<NodeSnapshot>, previous: Option<NodeSnapshot>): (r: NetworkResult)
    ensures r.networkSignal == InsufficientData <==> current.None? || previous.None?
    ensures r.currentTotal == (if current.Some? then current.value.totalNodes else 0)
    ensures r.previousTotal == (if previous.Some? then previous.value.totalNodes else 0)
    ensures r.networkSignal == InsufficientData ==> r.totalChange == 0
    ensures r.networkSignal != InsufficientData ==>
      r.totalChange == r.currentTotal - r.previousTotal &&
      r.networkSignal == GrowthOf(r.totalChange) &&
      (r.networkSignal == Shrinking <==> r.currentTotal <= r.previousTotal)
  {
    if current.None? || previous.None? then
      NetworkResult(
        if current.Some? then current.value.totalNodes else 0,
        if previous.Some? then previous.value.totalNodes else 0,
        0, InsufficientData)
    else
      var totalChange := current.value.totalNodes - previous.value.totalNodes;
      NetworkResult(current.value.totalNodes, previous.value.totalNodes, totalChange, GrowthOf(totalChange))
  }

  /** Worked case: two snapshots with the same total of 9000 nodes read as
      shrinking, not stable. */
  lemma ScenarioUnchangedTotal(cur: NodeSnapshot, prev: NodeSnapshot)
    requires cur.totalNodes == 9000 && prev.totalNodes == 9000
    ensures NetworkSignalOf(Some(cur), Some(prev)).totalChange == 0
    ensures NetworkSignalOf(Some(cur), Some(prev)).networkSignal == Shrinking
  {
  }
}
