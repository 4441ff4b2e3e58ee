// tools/CloseTab: find an open tab by display name, else by file name, and
// close it.
module CloseTab {
  import opened Wrappers
  import opened Text
  import opened Ide
  import opened MCPResponseBuilder

  /** The index of the first element satisfying `p`, or -1. */
  function FirstIndex<T>(s: seq<T>, p: T -> bool): (i: int)
    ensures -1 <= i < |s|
    ensures i >= 0 ==> p(s[i]) && forall j :: 0 <= j < i ==> !p(s[j])
    ensures i == -1 ==> forall j :: 0 <= j < |s| ==> !p(s[j])
  {
    if |s| == 0 then -1
    else if p(s[0]) then 0
    else
      var k := FirstIndex(s[1..], p);
      if k == -1 then -1 else k + 1
  }

  /** First pass: a non-null display name equal to the requested name. */
  predicate DisplayMatches(t: Tab, tabName: string)
  {
    t.displayName == Some(tabName)
  }

  /** Second pass: the first node's primary file is called `name` or `name.ext`. */
  predicate FileMatches(t: Tab, tabName: string)
  {
    t.nodes.Some? && |t.nodes.value| > 0 && t.nodes.value[0].dataObject.Some? &&
    var f := t.nodes.value[0].dataObject.value;
    f.name == tabName || f.name + "." + f.ext == tabName
  }

  /** findTopComponent: a display-name match wins; a file-name match is the fallback. */
  function FindTopComponent(tabs: seq<Tab>, tabName: string): (r: Option<Tab>)
    ensures r.Some? ==> r.value in tabs
    ensures r.Some? ==> (DisplayMatches(r.value, tabName) ||
      (FileMatches(r.value, tabName) && forall t :: t in tabs ==> !DisplayMatches(t, tabName)))
    ensures r.None? <==> forall t :: t in tabs ==> !DisplayMatches(t, tabName) && !FileMatches(t, tabName)
  {
    var d := FirstIndex(tabs, t => DisplayMatches(t, tabName));
    if d >= 0 then Some(tabs[d])
    else
      var f := FirstIndex(tabs, t => FileMatches(t, tabName));
      if f >= 0 then Some(tabs[f]) else None
  }

  /** The tab found is the first one, in registry order, of the pass that finds it. */
  lemma FoundIsFirstOfItsPass(tabs: seq<Tab>, tabName: string)
    ensures var d := FirstIndex(tabs, t => DisplayMatches(t, tabName));
      d >= 0 ==> FindTopComponent(tabs, tabName) == Some(tabs[d])
    ensures var d := FirstIndex(tabs, t => DisplayMatches(t, tabName));
      var f := FirstIndex(tabs, t => FileMatches(t, tabName));
      d < 0 && f >= 0 ==> FindTopComponent(tabs, tabName) == Some(tabs[f])
  {
  }

  /**
   * closeTopComponent: closes the tab findTopComponent finds and reports
   * whether there was one, ignoring what close() answers; a close() that
   * throws propagates. A vetoed close leaves the tab open.
   */
  method CloseTopComponent(reg: Registry, tabName: string) returns (r: Result<bool, ExceptionMessage>)
    modifies reg
    ensures var found := FindTopComponent(old(reg.openTabs), tabName);
      (found.None? ==> r == Success(false) && reg.openTabs == old(reg.openTabs)) &&
      (found.Some? && found.value.closeFailure.None? ==>
         r == Success(true) &&
         reg.openTabs == if found.value.closeVetoed then old(reg.openTabs) else Without(old(reg.openTabs), found.value)) &&
      (found.Some? && found.value.closeFailure.Some? ==>
         r == Failure(found.value.closeFailure.value) && reg.openTabs == old(reg.openTabs))
  {
    var found := FindTopComponent(reg.openTabs, tabName);
    if found.None? {
      return Success(false);
    }
    var closed := reg.Close(found.value);
    if closed.Failure? {
      return Failure(closed.error);
    }
    return Success(true);
  }

  /**
   * run: "TAB_CLOSED" whether or not a tab was found; a failing close is
   * rethrown as "Failed to close tab: <message>".
   */
  method Run(reg: Registry, tabName: string) returns (r: Result<Reply, string>)
    modifies reg
    ensures var found := FindTopComponent(old(reg.openTabs), tabName);
      (r.Success? <==> found.None? || found.value.closeFailure.None?) &&
      (r.Success? ==> r.value == TextReply("TAB_CLOSED")) &&
      (r.Failure? ==> r.error == "Failed to close tab: " + StringOf(found.value.closeFailure.value)) &&
      reg.openTabs == if found.Some? && found.value.closeFailure.None? && !found.value.closeVetoed
                      then Without(old(reg.openTabs), found.value)
                      else old(reg.openTabs)
  {
    var closed := CloseTopComponent(reg, tabName);
    if closed.Failure? {
      return Failure("Failed to close tab: " + StringOf(closed.error));
    }
    return Success(TextReply("TAB_CLOSED"));
  }
}
