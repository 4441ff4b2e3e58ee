// NbUtils: the selection snapshot of the focused editor and the workspace
// guard every file-touching tool applies before it acts.
module NbUtils {
  import opened Wrappers
  import opened Text
  import opened Json
  import opened Ide

  /** The file separator; the model describes a host whose File.separator is '/'. */
  const Separator: string := "/"

  /** NbUtils.SelectionData as the fields Jackson writes. */
  datatype SelectionData = SelectionData(
    text: string,
    filePath: Option<string>,
    startLine: int, startColumn: int,
    endLine: int, endColumn: int,
    isEmpty: bool)

  /**
   * The SelectionData constructor: a null selection reads as "" and the
   * selection is empty exactly when it is null or "".
   */
  function NewSelectionData(selectedText: Option<string>, filePath: Option<string>,
                            startLine: int, startColumn: int, endLine: int, endColumn: int): (d: SelectionData)
    ensures selectedText.Some? ==> d.text == selectedText.value
    ensures selectedText.None? ==> d.text == ""
    ensures d.isEmpty <==> d.text == ""
    ensures d.filePath == filePath
    ensures (d.startLine, d.startColumn, d.endLine, d.endColumn) == (startLine, startColumn, endLine, endColumn)
  {
    SelectionData(
      if selectedText.Some? then selectedText.value else "",
      filePath, startLine, startColumn, endLine, endColumn,
      selectedText.None? || selectedText.value == "")
  }

  /** The primary file's path of a node's DataObject, when it has one. */
  function NodeFilePath(node: Node): Option<string>
  {
    if node.dataObject.Some? then Some(node.dataObject.value.path) else None
  }

  /**
   * getCurrentSelectionData: the activated tab's first editor pane, when it
   * exists and shows a StyledDocument, with 1-based lines and 0-based columns.
   */
  function GetCurrentSelectionData(activated: Option<Tab>): Option<SelectionData>
  {
    if activated.None? then None
    else
      match FirstPane(activated.value)
      case None => None
      case Some((node, pane)) =>
        if pane.None? || !pane.value.styled then None
        else
          var c := pane.value;
          Some(NewSelectionData(c.selectedText, NodeFilePath(node),
                                c.startLine + 1, c.startColumn, c.endLine + 1, c.endColumn))
  }

  /** A selection is reported exactly for a focused styled editor pane, with 1-based lines. */
  lemma SelectionReportedForStyledPane(activated: Option<Tab>)
    ensures GetCurrentSelectionData(activated).Some? <==>
      activated.Some? && FirstPane(activated.value).Some? &&
      FirstPane(activated.value).value.1.Some? && FirstPane(activated.value).value.1.value.styled
    ensures GetCurrentSelectionData(activated).Some? ==>
      var c := FirstPane(activated.value).value.1.value;
      var d := GetCurrentSelectionData(activated).value;
      d.startLine == c.startLine + 1 && d.endLine == c.endLine + 1 &&
      d.startColumn == c.startColumn && d.endColumn == c.endColumn &&
      (d.isEmpty <==> c.selectedText.None? || c.selectedText.value == "")
  {
  }

  /** A canonical path lies in a project root: it is the root or below it. */
  predicate IsUnder(target: string, root: string)
  {
    StartsWith(target, root + Separator) || target == root
  }

  /**
   * The scan over the open projects: a project without a directory is
   * skipped, a root that cannot be canonicalised ends the scan with false
   * (IOException), and the first root containing the target gives true.
   */
  function WithinAny(target: string, projects: seq<Project>, canonical: map<string, string>): bool
  {
    if |projects| == 0 then false
    else if projects[0].dir.None? then WithinAny(target, projects[1..], canonical)
    else if projects[0].dir.value !in canonical then false
    else if IsUnder(target, canonical[projects[0].dir.value]) then true
    else WithinAny(target, projects[1..], canonical)
  }

  /** isPathWithinOpenProjects: the canonical target lies in an open project's canonical root. */
  function IsPathWithinOpenProjects(path: string, projects: seq<Project>, canonical: map<string, string>): bool
  {
    path in canonical && WithinAny(canonical[path], projects, canonical)
  }

  /** Every project before index `i` with a directory canonicalises. */
  predicate ResolvableBefore(projects: seq<Project>, canonical: map<string, string>, i: int)
    requires 0 <= i <= |projects|
  {
    forall j :: 0 <= j < i && projects[j].dir.Some? ==> projects[j].dir.value in canonical
  }

  /** Project `i` has a directory whose canonical form contains `target`. */
  predicate RootContains(projects: seq<Project>, canonical: map<string, string>, i: int, target: string)
    requires 0 <= i < |projects|
  {
    projects[i].dir.Some? && projects[i].dir.value in canonical &&
    IsUnder(target, canonical[projects[i].dir.value])
  }

  /** When the scan admits the target, some resolvable root contains it. */
  lemma {:induction false} AdmittedHasRoot(target: string, projects: seq<Project>, canonical: map<string, string>) returns (i: int)
    requires WithinAny(target, projects, canonical)
    ensures 0 <= i < |projects| && RootContains(projects, canonical, i, target)
    ensures ResolvableBefore(projects, canonical, i)
  {
    if RootContains(projects, canonical, 0, target) {
      i := 0;
    } else {
      var rest := projects[1..];
      var k := AdmittedHasRoot(target, rest, canonical);
      i := k + 1;
      assert RootContains(projects, canonical, i, target) by {
        assert projects[i] == rest[k];
      }
      forall j | 0 <= j < i && projects[j].dir.Some?
        ensures projects[j].dir.value in canonical
      {
        if j > 0 { assert projects[j] == rest[j - 1]; }
      }
    }
  }

  /** A resolvable root that contains the target makes the scan admit it. */
  lemma {:induction false} RootAdmits(target: string, projects: seq<Project>, canonical: map<string, string>, i: int)
    requires 0 <= i < |projects| && RootContains(projects, canonical, i, target)
    requires ResolvableBefore(projects, canonical, i)
    ensures WithinAny(target, projects, canonical)
  {
    if i > 0 && !RootContains(projects, canonical, 0, target) {
      var rest := projects[1..];
      assert RootContains(rest, canonical, i - 1, target) by {
        assert rest[i - 1] == projects[i];
      }
      forall j | 0 <= j < i - 1 && rest[j].dir.Some?
        ensures rest[j].dir.value in canonical
      {
        assert rest[j] == projects[j + 1];
      }
      RootAdmits(target, rest, canonical, i - 1);
    }
  }

  /**
   * The guard admits a path exactly when its canonical form lies in some
   * project root and every root scanned before that one could be resolved.
   */
  lemma WithinAnyIff(target: string, projects: seq<Project>, canonical: map<string, string>)
    ensures WithinAny(target, projects, canonical) <==>
      exists i :: 0 <= i < |projects| && RootContains(projects, canonical, i, target) &&
                  ResolvableBefore(projects, canonical, i)
  {
    if WithinAny(target, projects, canonical) {
      var i := AdmittedHasRoot(target, projects, canonical);
    }
    if exists i :: 0 <= i < |projects| && RootContains(projects, canonical, i, target) &&
                   ResolvableBefore(projects, canonical, i) {
      var i :| 0 <= i < |projects| && RootContains(projects, canonical, i, target) &&
               ResolvableBefore(projects, canonical, i);
      RootAdmits(target, projects, canonical, i);
    }
  }

  /** The full guard as a statement about the open projects. */
  lemma PathGuardIff(path: string, projects: seq<Project>, canonical: map<string, string>)
    ensures IsPathWithinOpenProjects(path, projects, canonical) <==>
      path in canonical &&
      exists i :: 0 <= i < |projects| && RootContains(projects, canonical, i, canonical[path]) &&
                  ResolvableBefore(projects, canonical, i)
  {
    if path in canonical {
      WithinAnyIff(canonical[path], projects, canonical);
    }
  }

  /** A path that cannot be canonicalised is refused (fail closed). */
  lemma UnresolvableTargetRefused(path: string, projects: seq<Project>, canonical: map<string, string>)
    requires path !in canonical
    ensures !IsPathWithinOpenProjects(path, projects, canonical)
  {
  }

  /** With no project that has a directory, nothing is admitted. */
  lemma {:induction false} NoProjectDirectoriesRefuses(target: string, projects: seq<Project>, canonical: map<string, string>)
    requires forall i :: 0 <= i < |projects| ==> projects[i].dir.None?
    ensures !WithinAny(target, projects, canonical)
  {
    if |projects| > 0 {
      NoProjectDirectoriesRefuses(target, projects[1..], canonical);
    }
  }

  /** A sibling whose name extends the root's name is not inside the root. */
  lemma SiblingPrefixRefused()
    ensures !IsUnder("/work/app-evil/x.txt", "/work/app")
    ensures IsUnder("/work/app/x.txt", "/work/app")
    ensures IsUnder("/work/app", "/work/app")
  {
    assert "/work/app-evil/x.txt"[..|"/work/app/"|] != "/work/app/" by {
      assert "/work/app-evil/x.txt"[9] == '-';
    }
    assert "/work/app/x.txt"[..|"/work/app/"|] == "/work/app/";
  }
}
