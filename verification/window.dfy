/** The two-slot snapshot window: its rotation on a fetch, and its image in
    the persisted state file. */
module Window {
  import opened Snapshot

  /** The two most recent snapshots; either slot may be empty. */
  datatype SnapshotWindow = SnapshotWindow(current: Option<NodeSnapshot>, previous: Option<NodeSnapshot>)

  /** What the state file holds, apart from its last-updated timestamp. */
  datatype StoredState = StoredState(currentData: Option<NodeSnapshot>, previousData: Option<NodeSnapshot>)

  /** The window both slots of which are empty: the start state when no usable
      state file exists. */
  function EmptyWindow(): (w: SnapshotWindow)
    ensures w.current.None? && w.previous.None?
  {
    SnapshotWindow(None, None)
  }

  /** Loading: a missing, unreadable or malformed file (`None`) yields the empty
      window; otherwise the two stored slots are taken as they are. */
  function Load(file: Option<StoredState>): (w: SnapshotWindow)
    ensures file.None? ==> w == EmptyWindow()
    ensures file.Some? ==> w.current == file.value.currentData && w.previous == file.value.previousData
  {
    match file
    case None => EmptyWindow()
    case Some(stored) => SnapshotWindow(stored.currentData, stored.previousData)
  }

  /** Saving: the image of the window that is written to the state file. */
  function Save(w: SnapshotWindow): (stored: StoredState)
    ensures Load(Some(stored)) == w
  {
    StoredState(w.current, w.previous)
  }

  /** Rotation after a fetch. A failed fetch (`None`) leaves the window as it was
      and reports false; a successful one moves the current snapshot into the
      previous slot, installs the fetched one as current and reports true. The
      old previous snapshot is dropped. */
  function Rotate(w: SnapshotWindow, fetched: Option<NodeSnapshot>): (r: (SnapshotWindow, bool))
    ensures r.1 <==> fetched.Some?
    ensures !r.1 ==> r.0 == w
    ensures r.1 ==> r.0.current == fetched && r.0.previous == w.current
  {
    match fetched
    case None => (w, false)
    case Some(s) => (SnapshotWindow(Some(s), w.current), true)
  }

  /** After a successful rotation nothing of the old previous slot survives:
      two windows that agree on their current slot rotate to the same window. */
  lemma RotateForgetsPrevious(w1: SnapshotWindow, w2: SnapshotWindow, s: NodeSnapshot)
    requires w1.current == w2.current
    ensures Rotate(w1, Some(s)) == Rotate(w2, Some(s))
  {
  }

  /** The window reached by applying the fetch results in order. */
  function Replay(w: SnapshotWindow, fetches: seq<Option<NodeSnapshot>>): SnapshotWindow
    decreases |fetches|
  {
    if fetches == [] then w
    else Rotate(Replay(w, fetches[..|fetches| - 1]), fetches[|fetches| - 1]).0
  }

  /** The snapshots of the successful fetches, in order. */
  function Successes(fetches: seq<Option<NodeSnapshot>>): (ok: seq<NodeSnapshot>)
    ensures |ok| <= |fetches|
    decreases |fetches|
  {
    if fetches == [] then []
    else
      var rest := Successes(fetches[..|fetches| - 1]);
      match fetches[|fetches| - 1]
      case None => rest
      case Some(s) => rest + [s]
  }

  /** The window keeps exactly the two latest successful snapshots: after any
      run of fetches, the current slot is the latest success and the previous
      slot the one before it, falling back on the starting window's slots
      when fewer than two fetches succeeded. */
  lemma {:induction false} ReplayKeepsLastTwo(w: SnapshotWindow, fetches: seq<Option<NodeSnapshot>>)
    ensures var ok := Successes(fetches);
      Replay(w, fetches) ==
        if |ok| == 0 then w
        else if |ok| == 1 then SnapshotWindow(Some(ok[0]), w.current)
        else SnapshotWindow(Some(ok[|ok| - 1]), Some(ok[|ok| - 2]))
    decreases |fetches|
  {
    if fetches != [] {
      ReplayKeepsLastTwo(w, fetches[..|fetches| - 1]);
    }
  }
}
