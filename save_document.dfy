// tools/SaveDocument: save a workspace document through its EditorCookie.
// Every failure propagates to the caller as an exception.
module SaveDocument {
  import opened Wrappers
  import opened Json
  import opened Ide
  import opened MCPResponseBuilder
  import opened NbUtils

  const Denied: string := "File save denied: Path is not within any open project directory: "
  const NotEditableMessage: string := "File is not editable or not currently managed by an editor"

  /** The exceptions run throws, by class. */
  datatype SaveError =
    | SecurityDenied(path: string)            // SecurityException
    | FileNotFound(path: string)              // FileNotFoundException(path)
    | NoDataObject(cause: ExceptionMessage)   // DataObjectNotFoundException
    | NotEditable                             // IllegalStateException
    | SaveFailed(cause: ExceptionMessage)     // IOException from saveDocument()

  /** getMessage() of each exception. */
  function Message(e: SaveError): ExceptionMessage
  {
    match e
    case SecurityDenied(p) => Some(Denied + p)
    case FileNotFound(p) => Some(p)
    case NoDataObject(m) => m
    case NotEditable => Some(NotEditableMessage)
    case SaveFailed(m) => m
  }

  /** The object run returns after a save. */
  function SavedJson(path: string): Json
  {
    JObj([("filePath", JStr(path)), ("saved", JBool(true)), ("message", JStr("Document saved successfully"))])
  }

  /** The checks run makes, in order, before saving. */
  function SaveCheck(path: string, ide: Ide): Option<SaveError>
  {
    var f := FileAt(ide, path);
    if !IsPathWithinOpenProjects(path, ide.projects, ide.canonical) then Some(SecurityDenied(path))
    else if !f.managed then Some(FileNotFound(path))
    else if f.data.NotFound? then Some(NoDataObject(f.data.message))
    else if f.data.cookie.None? then Some(NotEditable)
    else if f.data.cookie.value.saveFailure.Some? then Some(SaveFailed(f.data.cookie.value.saveFailure.value))
    else None
  }

  /**
   * run: the document is saved only after the guard, the FileObject, the
   * DataObject and the EditorCookie are all there, and the result is the
   * saved-document object; otherwise the first failing check is thrown.
   */
  function Run(path: string, ide: Ide): (r: Outcome<SaveError>)
    ensures r.result.Success? <==> SaveCheck(path, ide).None?
    ensures r.result.Success? ==> r.result.value == DataReply(SavedJson(path)) && r.effects == [Saved(path)]
    ensures r.result.Failure? ==> r.result.error == SaveCheck(path, ide).value && r.effects == []
  {
    match SaveCheck(path, ide)
    case Some(e) => Outcome(Failure(e), [])
    case None => Outcome(Success(DataReply(SavedJson(path))), [Saved(path)])
  }

  /**
   * A path outside the workspace throws SecurityException whatever the files
   * say: the refusal comes before any file lookup.
   */
  lemma SecurityBeforeLookup(path: string, ide: Ide, files: map<string, FileEntry>)
    requires !IsPathWithinOpenProjects(path, ide.projects, ide.canonical)
    ensures Run(path, ide) == Run(path, ide.(files := files))
    ensures Run(path, ide).result == Failure(SecurityDenied(path))
  {
  }

  /** A document is saved exactly when it is an editable workspace document whose save succeeds. */
  lemma SavedOnlyWhenEditable(path: string, ide: Ide)
    ensures Saved(path) in Run(path, ide).effects <==>
      IsPathWithinOpenProjects(path, ide.projects, ide.canonical) &&
      FileAt(ide, path).managed && FileAt(ide, path).data.Found? &&
      FileAt(ide, path).data.cookie.Some? && FileAt(ide, path).data.cookie.value.saveFailure.None?
  {
  }
}
