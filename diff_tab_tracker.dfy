// tools/DiffTabTracker: the pending-diff table, from tab name to the handler
// that answers when the diff is accepted or rejected. The Java class keeps
// one static map; here it is one object, and calls are sequential.
module DiffTabTracker {
  import opened Wrappers

  /** The table; `H` stands for the AsyncHandler objects it stores. */
  class Tracker<H(==)> {
    var pendingDiffs: map<string, H>

    constructor ()
      ensures pendingDiffs == map[]
    {
      pendingDiffs := map[];
    }

    /** register: the name now maps to `handler`, replacing any earlier one. */
    method Register(tabName: string, handler: H)
      modifies this
      ensures pendingDiffs == old(pendingDiffs)[tabName := handler]
      ensures IsTracked(tabName) && pendingDiffs[tabName] == handler
      ensures forall t :: t != tabName ==> (t in pendingDiffs <==> t in old(pendingDiffs))
    {
      pendingDiffs := pendingDiffs[tabName := handler];
    }

    /**
     * remove: hands back the handler registered under the name, if any, and
     * forgets it; other names keep their handlers.
     */
    method Remove(tabName: string) returns (r: Option<H>)
      modifies this
      ensures tabName in old(pendingDiffs) ==> r == Some(old(pendingDiffs)[tabName])
      ensures tabName !in old(pendingDiffs) ==> r == None && pendingDiffs == old(pendingDiffs)
      ensures !IsTracked(tabName)
      ensures pendingDiffs == old(pendingDiffs) - {tabName}
    {
      if tabName in pendingDiffs {
        r := Some(pendingDiffs[tabName]);
        pendingDiffs := pendingDiffs - {tabName};
      } else {
        r := None;
      }
    }

    /** isTracked: the name has a pending handler. */
    predicate IsTracked(tabName: string)
      reads this
    {
      tabName in pendingDiffs
    }
  }

  /**
   * Registering twice under one name and then removing twice: the first
   * remove gives the later handler, the second gives nothing.
   */
  method RegisterTwiceRemoveTwice<H(==)>(tracker: Tracker<H>, tabName: string, first: H, second: H)
    returns (removed: Option<H>, again: Option<H>)
    modifies tracker
    ensures removed == Some(second)
    ensures again == None
    ensures !tracker.IsTracked(tabName)
    ensures tracker.pendingDiffs == old(tracker.pendingDiffs) - {tabName}
  {
    tracker.Register(tabName, first);
    tracker.Register(tabName, second);
    removed := tracker.Remove(tabName);
    again := tracker.Remove(tabName);
  }
}
