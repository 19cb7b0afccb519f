/** One telemetry reading of the peer network and the ratios derived from it. */
module Snapshot {

  datatype Option<+T> = None | Some(value: T)

  /** A node snapshot. The counts are plain integers as they arrive in JSON;
      the two ratios are exact rationals standing in for Python floats.
      The wall-clock timestamp is not part of the model. */
  datatype NodeSnapshot = NodeSnapshot(
    totalNodes: int,
    activeNodes: int,
    torNodes: int,
    torPercentage: real,
    activeRatio: real)

  /** Builds a snapshot from the three counts, deriving the Tor percentage and
      the active ratio, both guarded against a non-positive total. */
  function Derive(totalNodes: int, activeNodes: int, torNodes: int): (s: NodeSnapshot)
    ensures s.totalNodes == totalNodes && s.activeNodes == activeNodes && s.torNodes == torNodes
    ensures totalNodes <= 0 ==> s.torPercentage == 0.0 && s.activeRatio == 0.0
    ensures totalNodes > 0 ==> s.torPercentage * totalNodes as real == torNodes as real * 100.0
    ensures totalNodes > 0 ==> s.activeRatio * totalNodes as real == activeNodes as real
  {
    var torPercentage := if totalNodes > 0 then (torNodes as real / totalNodes as real) * 100.0 else 0.0;
    var activeRatio := if totalNodes > 0 then activeNodes as real / totalNodes as real else 0.0;
    NodeSnapshot(totalNodes, activeNodes, torNodes, torPercentage, activeRatio)
  }

  /** When the counts are consistent (no more active or Tor nodes than nodes
      overall), the derived ratios are proper fractions: the active ratio lies
      in [0, 1] and the Tor percentage in [0, 100]. */
  lemma DeriveBounds(totalNodes: int, activeNodes: int, torNodes: int)
    requires 0 <= activeNodes <= totalNodes && 0 <= torNodes <= totalNodes
    ensures 0.0 <= Derive(totalNodes, activeNodes, torNodes).activeRatio <= 1.0
    ensures 0.0 <= Derive(totalNodes, activeNodes, torNodes).torPercentage <= 100.0
  {
  }
}
