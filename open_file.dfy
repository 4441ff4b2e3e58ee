// tools/OpenFile (and the handler's handleOpenFile, which is the same code):
// open a workspace file in the editor.
module OpenFile {
  import opened Wrappers
  import opened Text
  import opened Ide
  import opened MCPResponseBuilder
  import opened NbUtils

  const Denied: string := "File open denied: Path is not within any open project directory: "

  /** Why opening failed, before run wraps it as "Failed to open file: ...". */
  function OpenFailure(path: string, ide: Ide): Option<ExceptionMessage>
  {
    var f := FileAt(ide, path);
    if !IsPathWithinOpenProjects(path, ide.projects, ide.canonical) then Some(Some(Denied + path))
    else if !f.onDisk then Some(Some("File does not exist: " + path))
    else if f.managed && f.data.NotFound? then Some(f.data.message)
    else if !f.managed || f.data.cookie.None? then Some(Some("Failed to open file in editor"))
    else None
  }

  /**
   * run: guard, existence, then DataObject and EditorCookie; the editor is
   * opened only when every step passes, and every failure is rethrown as
   * "Failed to open file: <cause>". `preview` is read (default false) and
   * not used further.
   */
  function Run(path: string, preview: Option<bool>, ide: Ide): (r: Outcome<string>)
    ensures r.result.Success? <==> OpenFailure(path, ide).None?
    ensures r.result.Success? ==>
      r.result.value == TextReply("File opened successfully: " + path) && r.effects == [OpenedInEditor(path)]
    ensures r.result.Failure? ==>
      r.effects == [] && r.result.error == "Failed to open file: " + StringOf(OpenFailure(path, ide).value)
  {
    var _ := preview.GetOr(false);
    match OpenFailure(path, ide)
    case Some(cause) => Outcome(Failure("Failed to open file: " + StringOf(cause)), [])
    case None => Outcome(Success(TextReply("File opened successfully: " + path)), [OpenedInEditor(path)])
  }

  /** A path outside the workspace is refused with the guard's message and opens nothing. */
  lemma OutsideWorkspaceRefused(path: string, preview: Option<bool>, ide: Ide)
    requires !IsPathWithinOpenProjects(path, ide.projects, ide.canonical)
    ensures Run(path, preview, ide) == Outcome(Failure("Failed to open file: " + Denied + path), [])
  {
    assert "Failed to open file: " + (Denied + path) == "Failed to open file: " + Denied + path;
  }

  /** The editor is opened only for a workspace file that exists and has an EditorCookie. */
  lemma OpensOnlyEditableWorkspaceFiles(path: string, preview: Option<bool>, ide: Ide)
    ensures Run(path, preview, ide).effects != [] <==>
      IsPathWithinOpenProjects(path, ide.projects, ide.canonical) &&
      FileAt(ide, path).onDisk && FileAt(ide, path).managed &&
      FileAt(ide, path).data.Found? && FileAt(ide, path).data.cookie.Some?
  {
  }
}
