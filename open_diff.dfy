// tools/OpenDiff: show two versions of a workspace file side by side. Paths
// left out default to the focused editor's file, whose unsaved buffer then
// stands in for the disk contents.
module OpenDiff {
  import opened Wrappers
  import opened Text
  import opened Json
  import opened Ide
  import opened MCPResponseBuilder
  import opened NbUtils
  import CloseAllDiffTabs

  const NoEditor: string := "No active editor found. Please specify file paths or open a file in the editor."
  const OldDenied: string := "File access denied: old_file_path is not within any open project directory: "
  const NewDenied: string := "File access denied: new_file_path is not within any open project directory: "

  /** The tool's arguments; each may be absent. */
  datatype Params = Params(
    oldFilePath: Option<string>,
    newFilePath: Option<string>,
    newFileContents: Option<string>,
    tabName: Option<string>)

  /** What the diff view is built from once every check has passed. */
  datatype Plan = Plan(oldPath: string, newPath: string, oldText: string, newText: string, tabName: string)

  /**
   * The two paths compared: each supplied path as given, a missing one
   * replaced by the focused editor's file; nothing when a path is missing
   * and no editor has focus.
   */
  function FinalPaths(p: Params, ide: Ide): (r: Option<(string, string)>)
    ensures r.None? <==> (p.oldFilePath.None? || p.newFilePath.None?) && ide.activeEditorPath.None?
    ensures r.Some? ==> r.value.0 == if p.oldFilePath.Some? then p.oldFilePath.value else ide.activeEditorPath.value
    ensures r.Some? ==> r.value.1 == if p.newFilePath.Some? then p.newFilePath.value else ide.activeEditorPath.value
  {
    if p.oldFilePath.None? || p.newFilePath.None? then
      if ide.activeEditorPath.None? then None
      else
        var current := ide.activeEditorPath.value;
        Some((p.oldFilePath.GetOr(current), p.newFilePath.GetOr(current)))
    else Some((p.oldFilePath.value, p.newFilePath.value))
  }

  /** The text of a file read from disk, or the reply that ends the run. */
  function DiskContents(path: string, isOld: bool, ide: Ide): (r: Result<string, string>)
    ensures r.Success? <==> FileAt(ide, path).onDisk && FileAt(ide, path).contents.Success?
    ensures r.Success? ==> r.value == FileAt(ide, path).contents.value
  {
    var f := FileAt(ide, path);
    if !f.onDisk then Failure((if isOld then "Old" else "New") + " file does not exist: " + path)
    else if f.contents.Failure? then
      Failure("Failed to read " + (if isOld then "old" else "new") + " file: " + StringOf(f.contents.error))
    else Success(f.contents.value)
  }

  /**
   * The editor's buffer stands in for a side only when that side's path was
   * left out (so it is the editor's file) and the buffer could be read.
   */
  predicate BufferStandsIn(omitted: bool, ide: Ide)
  {
    omitted && ide.activeEditorPath.Some? && ide.activeEditorContent.Some?
  }

  /** The default tab title: "Diff: <old name> vs <new name>". */
  function DefaultTabName(oldPath: string, newPath: string): string
  {
    "Diff: " + BaseName(oldPath) + " vs " + BaseName(newPath)
  }

  /** The old side's text: the editor buffer when it stands in, the disk contents otherwise. */
  function OldText(p: Params, oldPath: string, ide: Ide): Result<string, string>
  {
    if BufferStandsIn(p.oldFilePath.None?, ide) then Success(ide.activeEditorContent.value)
    else DiskContents(oldPath, true, ide)
  }

  /** The new side's text: the supplied contents, else the buffer when it stands in, else the disk. */
  function NewText(p: Params, newPath: string, ide: Ide): Result<string, string>
  {
    if p.newFileContents.Some? then Success(p.newFileContents.value)
    else if BufferStandsIn(p.newFilePath.None?, ide) then Success(ide.activeEditorContent.value)
    else DiskContents(newPath, false, ide)
  }

  /**
   * The checks of run before the diff service is consulted, in order: the
   * paths, the guard on each (old first), the old text, the new text. A
   * failure is the text the run replies with.
   */
  function MakePlan(p: Params, ide: Ide): (r: Result<Plan, string>)
    ensures r.Success? ==> FinalPaths(p, ide) == Some((r.value.oldPath, r.value.newPath))
    ensures r.Success? ==> IsPathWithinOpenProjects(r.value.oldPath, ide.projects, ide.canonical) &&
                           IsPathWithinOpenProjects(r.value.newPath, ide.projects, ide.canonical)
    ensures r.Success? ==>
      r.value.tabName == (if p.tabName.Some? then p.tabName.value else DefaultTabName(r.value.oldPath, r.value.newPath))
    ensures r.Success? ==> OldText(p, r.value.oldPath, ide) == Success(r.value.oldText)
    ensures r.Success? ==> NewText(p, r.value.newPath, ide) == Success(r.value.newText)
  {
    match FinalPaths(p, ide)
    case None => Failure(NoEditor)
    case Some((oldPath, newPath)) =>
      if !IsPathWithinOpenProjects(oldPath, ide.projects, ide.canonical) then
        Failure("Error opening diff: " + OldDenied + oldPath)
      else if !IsPathWithinOpenProjects(newPath, ide.projects, ide.canonical) then
        Failure("Error opening diff: " + NewDenied + newPath)
      else
        var oldText := OldText(p, oldPath, ide);
        if oldText.Failure? then Failure(oldText.error)
        else
          var newText := NewText(p, newPath, ide);
          if newText.Failure? then Failure(newText.error)
          else
            var tab := if p.tabName.Some? then p.tabName.value else DefaultTabName(oldPath, newPath);
            Success(Plan(oldPath, newPath, oldText.value, newText.value, tab))
  }

  /** The object run replies with once a view exists. */
  function OpenedJson(plan: Plan): Json
  {
    JObj([("success", JBool(true)), ("tabName", JStr(plan.tabName)), ("oldFile", JStr(plan.oldPath)),
          ("newFile", JStr(plan.newPath)), ("message", JStr("Diff viewer opened successfully"))])
  }

  /**
   * run: every outcome is a reply, never a thrown exception. The diff is
   * shown, under its tab name, only when the service gives a TopComponent;
   * any other non-null component gives the success object. No service, no
   * view, a failed creation and a null component each answer with their
   * own text and show nothing.
   */
  function Run(p: Params, ide: Ide): (r: Outcome<string>)
    ensures r.result.Success?
    ensures MakePlan(p, ide).Failure? ==> r == Outcome(Success(TextReply(MakePlan(p, ide).error)), [])
    ensures MakePlan(p, ide).Success? ==>
      var plan := MakePlan(p, ide).value;
      (r.result.value == DataReply(OpenedJson(plan)) <==>
         ide.diffService.DiffService? && (ide.diffService.view.TopComponentView? || ide.diffService.view.OtherComponentView?)) &&
      (r.effects == if ide.diffService == DiffService(TopComponentView)
                    then [ShowedDiff(plan.tabName, plan.oldText, plan.newText)] else [])
    ensures MakePlan(p, ide).Success? && ide.diffService == NoDiffService ==>
      r == Outcome(Success(TextReply("Diff service not available")), [])
    ensures MakePlan(p, ide).Success? && ide.diffService == DiffService(NullView) ==>
      r == Outcome(Success(TextReply("Failed to create diff view")), [])
    ensures MakePlan(p, ide).Success? && ide.diffService.DiffService? && ide.diffService.view.CreateFails? ==>
      r == Outcome(Success(TextReply("Error creating diff: " + StringOf(ide.diffService.view.message))), [])
    ensures MakePlan(p, ide).Success? && ide.diffService.DiffService? && ide.diffService.view.CreateThrows? ==>
      r == Outcome(Success(TextReply("Error opening diff: " + StringOf(ide.diffService.view.message))), [])
    ensures MakePlan(p, ide).Success? && ide.diffService == DiffService(NullComponentView) ==>
      r == Outcome(Success(TextReply("Error opening diff: " + StringOf(ide.npeText))), [])
  {
    match MakePlan(p, ide)
    case Failure(text) => Outcome(Success(TextReply(text)), [])
    case Success(plan) =>
      match ide.diffService
      case NoDiffService => Outcome(Success(TextReply("Diff service not available")), [])
      case DiffService(NullView) => Outcome(Success(TextReply("Failed to create diff view")), [])
      case DiffService(CreateFails(m)) => Outcome(Success(TextReply("Error creating diff: " + StringOf(m))), [])
      // any other exception escapes to the outer catch
      case DiffService(CreateThrows(m)) => Outcome(Success(TextReply("Error opening diff: " + StringOf(m))), [])
      // logging component.getClass() dereferences the null component
      case DiffService(NullComponentView) => Outcome(Success(TextReply("Error opening diff: " + StringOf(ide.npeText))), [])
      case DiffService(OtherComponentView) => Outcome(Success(DataReply(OpenedJson(plan))), [])
      case DiffService(TopComponentView) =>
        Outcome(Success(DataReply(OpenedJson(plan))), [ShowedDiff(plan.tabName, plan.oldText, plan.newText)])
  }

  /** Leaving out a path with no focused editor ends the run with the no-editor text. */
  lemma NoEditorNoDiff(p: Params, ide: Ide)
    requires p.oldFilePath.None? || p.newFilePath.None?
    requires ide.activeEditorPath.None?
    ensures Run(p, ide) == Outcome(Success(TextReply(NoEditor)), [])
  {
  }

  /** The guard looks at the old path first: when both are outside, the old one is named. */
  lemma OldPathGuardedFirst(p: Params, ide: Ide)
    requires FinalPaths(p, ide).Some?
    requires !IsPathWithinOpenProjects(FinalPaths(p, ide).value.0, ide.projects, ide.canonical)
    ensures Run(p, ide).result.value == TextReply("Error opening diff: " + OldDenied + FinalPaths(p, ide).value.0)
    ensures Run(p, ide).effects == []
  {
  }

  /**
   * The old side's text: the editor buffer exactly when old_file_path was
   * left out and the buffer is there, the disk contents otherwise.
   */
  lemma OldTextSource(p: Params, ide: Ide)
    requires MakePlan(p, ide).Success?
    ensures var plan := MakePlan(p, ide).value;
      if p.oldFilePath.None? && ide.activeEditorContent.Some? then plan.oldText == ide.activeEditorContent.value
      else plan.oldText == FileAt(ide, plan.oldPath).contents.value && FileAt(ide, plan.oldPath).onDisk
  {
  }

  /**
   * The new side's text: the supplied contents verbatim, else the editor
   * buffer when new_file_path was left out, else the disk contents.
   */
  lemma NewTextSource(p: Params, ide: Ide)
    requires MakePlan(p, ide).Success?
    ensures var plan := MakePlan(p, ide).value;
      if p.newFileContents.Some? then plan.newText == p.newFileContents.value
      else if p.newFilePath.None? && ide.activeEditorContent.Some? then plan.newText == ide.activeEditorContent.value
      else plan.newText == FileAt(ide, plan.newPath).contents.value && FileAt(ide, plan.newPath).onDisk
  {
  }

  /** A missing old file on disk is reported by path when the buffer does not stand in. */
  lemma MissingOldFileReported(p: Params, ide: Ide)
    requires FinalPaths(p, ide).Some?
    requires var (o, n) := FinalPaths(p, ide).value;
      IsPathWithinOpenProjects(o, ide.projects, ide.canonical) && IsPathWithinOpenProjects(n, ide.projects, ide.canonical)
    requires !BufferStandsIn(p.oldFilePath.None?, ide)
    requires !FileAt(ide, FinalPaths(p, ide).value.0).onDisk
    ensures Run(p, ide) == Outcome(Success(TextReply("Old file does not exist: " + FinalPaths(p, ide).value.0)), [])
  {
    assert "Old" + " file does not exist: " + FinalPaths(p, ide).value.0 ==
           "Old file does not exist: " + FinalPaths(p, ide).value.0;
  }

  /** A tab opened under the default title is one closeAllDiffTabs recognises. */
  lemma DefaultTabNameLooksLikeDiff(oldPath: string, newPath: string)
    ensures CloseAllDiffTabs.DisplayLooksLikeDiff(Some(DefaultTabName(oldPath, newPath)))
  {
    var name := DefaultTabName(oldPath, newPath);
    var i := |"Diff: " + BaseName(oldPath)|;
    assert name == ("Diff: " + BaseName(oldPath)) + " vs " + BaseName(newPath);
    assert name[i..i + 4] == " vs ";
    ContainsAt(name, " vs ", i);
  }
}
