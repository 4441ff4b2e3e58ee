// tools/CloseAllDiffTabs: close every open tab that looks like a diff
// viewer, by display name and, independently, by class name, counting each
// close() that does not throw, whether or not it is vetoed.
module CloseAllDiffTabs {
  import opened Wrappers
  import opened Text
  import opened Ide
  import opened MCPResponseBuilder
  import Seqs

  /** The display-name test: "diff" in any case, " vs " or " - ". */
  predicate DisplayLooksLikeDiff(displayName: Option<string>)
  {
    displayName.Some? &&
    (Contains(ToLower(displayName.value), "diff") ||
     Contains(displayName.value, " vs ") || Contains(displayName.value, " - "))
  }

  /** The class-name test: "diff" or "compare" in any case. */
  predicate ClassLooksLikeDiff(className: string)
  {
    Contains(ToLower(className), "diff") || Contains(ToLower(className), "compare")
  }

  /** At least one close() is called on the tab and does not throw. */
  predicate Counted(t: Tab)
  {
    t.closeFailure.None? && (DisplayLooksLikeDiff(t.displayName) || ClassLooksLikeDiff(t.className))
  }

  /** The tab is removed: it is counted and its close() is not vetoed. */
  predicate IsClosedBy(t: Tab)
  {
    Counted(t) && !t.closeVetoed
  }

  /**
   * How many of the (up to two) close() calls on `t` are counted. The tab's
   * one `closeFailure` stands for both calls: the second close(), on a
   * component the first may already have closed, throws exactly when the
   * first does.
   */
  function Closes(t: Tab): nat
  {
    if t.closeFailure.Some? then 0
    else (if DisplayLooksLikeDiff(t.displayName) then 1 else 0) + (if ClassLooksLikeDiff(t.className) then 1 else 0)
  }

  /** The count over a snapshot of the open tabs, in order. */
  function ClosedCount(tabs: seq<Tab>): nat
  {
    if |tabs| == 0 then 0 else ClosedCount(tabs[..|tabs| - 1]) + Closes(tabs[|tabs| - 1])
  }

  /** The tabs still open afterwards. */
  function Survivors(tabs: seq<Tab>): (r: seq<Tab>)
    ensures forall t :: t in r <==> t in tabs && !IsClosedBy(t)
  {
    if |tabs| == 0 then []
    else (if IsClosedBy(tabs[0]) then [] else [tabs[0]]) + Survivors(tabs[1..])
  }

  /** The tabs still open once the tabs of `done` have been processed. */
  function RemainingAfter(tabs: seq<Tab>, done: seq<Tab>): seq<Tab>
  {
    if |tabs| == 0 then []
    else (if tabs[0] in done && IsClosedBy(tabs[0]) then [] else [tabs[0]]) + RemainingAfter(tabs[1..], done)
  }

  lemma {:induction false} RemainingAfterNothing(tabs: seq<Tab>)
    ensures RemainingAfter(tabs, []) == tabs
  {
    if |tabs| > 0 {
      RemainingAfterNothing(tabs[1..]);
    }
  }

  lemma {:induction false} RemainingAfterAll(tabs: seq<Tab>, done: seq<Tab>)
    requires forall t :: t in tabs ==> t in done
    ensures RemainingAfter(tabs, done) == Survivors(tabs)
  {
    if |tabs| > 0 {
      RemainingAfterAll(tabs[1..], done);
    }
  }

  lemma {:induction false} RemainingAfterStep(tabs: seq<Tab>, done: seq<Tab>, t: Tab)
    ensures RemainingAfter(tabs, done + [t]) ==
      if IsClosedBy(t) then Without(RemainingAfter(tabs, done), t) else RemainingAfter(tabs, done)
  {
    if |tabs| > 0 {
      RemainingAfterStep(tabs[1..], done, t);
      var head := if tabs[0] in done && IsClosedBy(tabs[0]) then [] else [tabs[0]];
      var rest := RemainingAfter(tabs[1..], done);
      WithoutAppend(head, rest, t);
    }
  }

  lemma {:induction false} WithoutAppend(a: seq<Tab>, b: seq<Tab>, t: Tab)
    ensures Without(a + b, t) == Without(a, t) + Without(b, t)
  {
    if |a| > 0 {
      assert (a + b)[1..] == a[1..] + b;
      WithoutAppend(a[1..], b, t);
    } else {
      assert a + b == b;
    }
  }

  lemma {:induction false} WithoutAbsent(tabs: seq<Tab>, t: Tab)
    requires t !in tabs
    ensures Without(tabs, t) == tabs
  {
    if |tabs| > 0 {
      WithoutAbsent(tabs[1..], t);
    }
  }

  lemma ClosedCountStep(tabs: seq<Tab>, i: int)
    requires 0 <= i < |tabs|
    ensures ClosedCount(tabs[..i + 1]) == ClosedCount(tabs[..i]) + Closes(tabs[i])
  {
    Seqs.PrefixStep(tabs, i);
  }

  /** One more tab of the snapshot adds its closes to the count and removes it when it is closed. */
  lemma CloseAllStep(snapshot: seq<Tab>, i: int)
    requires 0 <= i < |snapshot|
    ensures ClosedCount(snapshot[..i + 1]) == ClosedCount(snapshot[..i]) + Closes(snapshot[i])
    ensures RemainingAfter(snapshot, snapshot[..i + 1]) ==
      if IsClosedBy(snapshot[i]) then Without(RemainingAfter(snapshot, snapshot[..i]), snapshot[i])
      else RemainingAfter(snapshot, snapshot[..i])
  {
    ClosedCountStep(snapshot, i);
    RemainingAfterStep(snapshot, snapshot[..i], snapshot[i]);
    Seqs.PrefixStep(snapshot, i);
  }

  /**
   * The body of the pass for one tab: close it when its display name looks
   * like a diff, close it again when its class name does, and count each
   * close() that does not throw; what close() answers is ignored.
   */
  method CloseIfDiff(reg: Registry, t: Tab) returns (n: nat)
    modifies reg
    ensures n == Closes(t)
    ensures reg.openTabs == if IsClosedBy(t) then Without(old(reg.openTabs), t) else old(reg.openTabs)
  {
    n := 0;
    if DisplayLooksLikeDiff(t.displayName) {
      var closed := reg.Close(t);
      if closed.Success? {
        n := n + 1;
      }
    }
    ghost var mid := reg.openTabs;
    if ClassLooksLikeDiff(t.className) {
      var closed := reg.Close(t);
      if closed.Success? {
        n := n + 1;
        if closed.value && DisplayLooksLikeDiff(t.displayName) {
          WithoutAbsent(mid, t);
        }
      }
    }
  }

  /**
   * closeAllDiffTabs: one pass over a snapshot of the open tabs, adding up
   * the counted closes.
   */
  method CloseAll(reg: Registry) returns (count: nat)
    modifies reg
    ensures count == ClosedCount(old(reg.openTabs))
    ensures reg.openTabs == Survivors(old(reg.openTabs))
  {
    var snapshot := reg.openTabs;
    count := 0;
    var i := 0;
    RemainingAfterNothing(snapshot);
    while i < |snapshot|
      invariant 0 <= i <= |snapshot|
      invariant count == ClosedCount(snapshot[..i])
      invariant reg.openTabs == RemainingAfter(snapshot, snapshot[..i])
    {
      var n := CloseIfDiff(reg, snapshot[i]);
      count := count + n;
      CloseAllStep(snapshot, i);
      i := i + 1;
    }
    assert snapshot[..i] == snapshot;
    RemainingAfterAll(snapshot, snapshot);
  }

  /** run: the count as "CLOSED_<n>_DIFF_TABS". */
  method Run(reg: Registry) returns (r: Reply)
    modifies reg
    ensures r == TextReply("CLOSED_" + NatToString(ClosedCount(old(reg.openTabs))) + "_DIFF_TABS")
    ensures reg.openTabs == Survivors(old(reg.openTabs))
  {
    var count := CloseAll(reg);
    r := TextReply("CLOSED_" + NatToString(count) + "_DIFF_TABS");
  }

  /** Each tab adds at most two to the count. */
  lemma {:induction false} ClosedCountAtMostTwicePerTab(tabs: seq<Tab>)
    ensures ClosedCount(tabs) <= 2 * |tabs|
  {
    if |tabs| > 0 {
      ClosedCountAtMostTwicePerTab(tabs[..|tabs| - 1]);
    }
  }

  /** The count is zero exactly when no close() on any tab of the snapshot is counted. */
  lemma {:induction false} CountZeroIffNoneCounted(tabs: seq<Tab>)
    ensures ClosedCount(tabs) == 0 <==> forall t :: t in tabs ==> !Counted(t)
  {
    if |tabs| > 0 {
      var init := tabs[..|tabs| - 1];
      var last := tabs[|tabs| - 1];
      CountZeroIffNoneCounted(init);
      assert tabs == init + [last];
      assert Closes(last) == 0 <==> !Counted(last);
      assert (forall t :: t in tabs ==> !Counted(t)) <==>
             (forall t :: t in init ==> !Counted(t)) && !Counted(last);
    }
  }

  /** Every tab stays open exactly when none of them gets closed. */
  lemma {:induction false} AllSurviveIffNoneClosed(tabs: seq<Tab>)
    ensures Survivors(tabs) == tabs <==> forall t :: t in tabs ==> !IsClosedBy(t)
  {
    if |tabs| > 0 {
      AllSurviveIffNoneClosed(tabs[1..]);
      if forall t :: t in tabs ==> !IsClosedBy(t) {
        assert forall t :: t in tabs[1..] ==> t in tabs;
        assert tabs == [tabs[0]] + tabs[1..];
      }
    }
  }

  /**
   * So a zero count means the pass left the open tabs as they were, and,
   * when no close() is vetoed, the converse holds too.
   */
  lemma CountZeroIffNothingClosed(tabs: seq<Tab>)
    ensures ClosedCount(tabs) == 0 ==> Survivors(tabs) == tabs
    ensures (forall t :: t in tabs ==> !t.closeVetoed) ==> (ClosedCount(tabs) == 0 <==> Survivors(tabs) == tabs)
  {
    CountZeroIffNoneCounted(tabs);
    AllSurviveIffNoneClosed(tabs);
  }

  /** A tab both named and classed as a diff viewer is counted twice. */
  lemma DiffViewerCountedTwice()
    ensures ClosedCount([Tab(1, Some("A vs B"), "DiffView", None, None, false)]) == 2
  {
    var t := Tab(1, Some("A vs B"), "DiffView", None, None, false);
    ContainsAt("A vs B", " vs ", 1);
    var lower := ToLower("DiffView");
    assert lower[..4] == "diff";
    ContainsAt(lower, "diff", 0);
    assert [t][..0] == [];
  }

  /** A diff viewer whose close() is vetoed is still counted, twice, and stays open. */
  lemma VetoedDiffViewerCountedButKept()
    ensures var t := Tab(1, Some("A vs B"), "DiffView", None, None, true);
      ClosedCount([t]) == 2 && Survivors([t]) == [t]
  {
    var t := Tab(1, Some("A vs B"), "DiffView", None, None, true);
    ContainsAt("A vs B", " vs ", 1);
    var lower := ToLower("DiffView");
    assert lower[..4] == "diff";
    ContainsAt(lower, "diff", 0);
    assert [t][..0] == [];
    assert [t][1..] == [];
  }
}
