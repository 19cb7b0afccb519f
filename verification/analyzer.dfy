/** The analyzer object: the snapshot window held in two mutable slots, its
    rotation on a fetch, and the two analyses read from it. */
module Analyzer {
  import opened Snapshot
  import opened Window
  import opened Signals
  import opened Growth

  class CryptoAnalyzer {
    var currentData: Option<NodeSnapshot>
    var previousData: Option<NodeSnapshot>

    /** The window the two slots hold. */
    function Slots(): SnapshotWindow
      reads this
    {
      SnapshotWindow(currentData, previousData)
    }

    /** Starts from the state file: `None` stands for a file that is missing,
        unreadable or malformed, and gives an empty window. */
    constructor (file: Option<StoredState>)
      ensures Slots() == Load(file)
      ensures file.None? ==> currentData.None? && previousData.None?
    {
      match file {
        case None =>
          currentData := None;
          previousData := None;
        case Some(stored) =>
          currentData := stored.currentData;
          previousData := stored.previousData;
      }
    }

    /** The image written to the state file; writing it does not touch the
        in-memory window. */
    method SaveNodeData() returns (image: StoredState)
      ensures image == Save(Slots())
      ensures Load(Some(image)) == Slots()
    {
      image := StoredState(currentData, previousData);
    }

    /** Takes the outcome of one fetch. On failure nothing changes and false is
        returned; on success the current snapshot moves into the previous slot,
        the fetched one becomes current, the state is saved and true is
        returned. `written` is the image written to the state file, `None`
        when nothing is written. */
    method UpdateNodeData(fetched: Option<NodeSnapshot>) returns (updated: bool, written: Option<StoredState>)
      modifies this
      ensures (Slots(), updated) == Rotate(old(Slots()), fetched)
      ensures updated <==> fetched.Some?
      ensures !updated ==> currentData == old(currentData) && previousData == old(previousData)
      ensures updated ==> currentData == fetched && previousData == old(currentData)
      ensures written.None? <==> !updated
      ensures written.Some? ==> written.value == Save(Slots()) && Load(written) == Slots()
    {
      if fetched.None? {
        return false, None;
      }
      previousData := currentData;
      currentData := fetched;
      var image := SaveNodeData();
      return true, Some(image);
    }

    /** The Tor-node signal for the window as it stands. */
    method CalculateHighConfidenceSignal() returns (r: SignalResult)
      ensures r == HighConfidenceSignal(currentData, previousData)
      ensures r.signal == Signals.InsufficientData <==> currentData.None? || previousData.None?
    {
      r := HighConfidenceSignal(currentData, previousData);
    }

    /** The network-growth signal for the window as it stands. */
    method CalculateNetworkSignal() returns (r: NetworkResult)
      ensures r == NetworkSignalOf(currentData, previousData)
      ensures r.networkSignal == Growth.InsufficientData <==> currentData.None? || previousData.None?
    {
      r := NetworkSignalOf(currentData, previousData);
    }
  }

  /** The page's refresh cycle: every button press is a new run that builds a
      fresh analyzer from the state file. Starting without a file, one
      successful fetch saves a window that is not yet enough for a signal. A
      failed fetch in the next run changes nothing and saves nothing, so the
      run after it reloads the same file; a second successful fetch there
      gives a real signal comparing the second snapshot against the first. */
  method RerunsCarryTheWindow(first: NodeSnapshot, second: NodeSnapshot) returns (early: SignalResult, r: SignalResult)
    ensures early.signal == Signals.InsufficientData && early.currentTor == first.torNodes && early.previousTor == 0
    ensures r.signal != Signals.InsufficientData
    ensures r.currentTor == second.torNodes && r.previousTor == first.torNodes
    ensures r.torChange == second.torNodes - first.torNodes
    ensures r == HighConfidenceSignal(Some(second), Some(first))
  {
    var run1 := new CryptoAnalyzer(None);
    var ok, file := run1.UpdateNodeData(Some(first));
    early := run1.CalculateHighConfidenceSignal();
    var run2 := new CryptoAnalyzer(file);
    var written;
    ok, written := run2.UpdateNodeData(None);
    if written.Some? {
      file := written;
    }
    var run3 := new CryptoAnalyzer(file);
    ok, written := run3.UpdateNodeData(Some(second));
    r := run3.CalculateHighConfidenceSignal();
  }
}
