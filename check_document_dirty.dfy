// tools/CheckDocumentDirty (and the handler's handleCheckDocumentDirty,
// which is the same code): report whether a workspace document has unsaved
// changes and whether an editor shows it.
module CheckDocumentDirty {
  import opened Wrappers
  import opened Json
  import opened Ide
  import opened MCPResponseBuilder
  import opened NbUtils

  const Denied: string := "File access denied: Path is not within any open project directory: "
  const NotManagedNote: string := "File not found or not currently managed by NetBeans"

  /** An editor shows the document: the cookie has a non-empty list of opened panes. */
  predicate IsOpen(cookie: Option<Cookie>)
  {
    cookie.Some? && cookie.value.panes.Some? && |cookie.value.panes.value| > 0
  }

  function StateJson(path: string, isDirty: bool, isOpen: bool): Json
  {
    JObj([("filePath", JStr(path)), ("isDirty", JBool(isDirty)), ("isOpen", JBool(isOpen))])
  }

  function UnmanagedJson(path: string): Json
  {
    JObj([("filePath", JStr(path)), ("isDirty", JBool(false)), ("isOpen", JBool(false)), ("note", JStr(NotManagedNote))])
  }

  /**
   * run: outside the workspace the SecurityException is reported as text;
   * a file the data system knows reports its modified flag and whether it is
   * open; anything else reports clean, closed and a note.
   */
  function Run(path: string, ide: Ide): (r: Reply)
    ensures !IsPathWithinOpenProjects(path, ide.projects, ide.canonical) ==>
      r == TextReply("Error checking document dirty state: " + Denied + path)
    ensures IsPathWithinOpenProjects(path, ide.projects, ide.canonical) ==> r.DataReply?
  {
    var f := FileAt(ide, path);
    if !IsPathWithinOpenProjects(path, ide.projects, ide.canonical) then
      assert "Error checking document dirty state: " + (Denied + path) ==
             "Error checking document dirty state: " + Denied + path;
      TextReply("Error checking document dirty state: " + (Denied + path))
    else if f.managed && f.data.Found? then
      DataReply(StateJson(path, f.data.modified, IsOpen(f.data.cookie)))
    else
      DataReply(UnmanagedJson(path))
  }

  /**
   * The reply echoes the path; a file the data system knows reports exactly
   * its modified flag and whether an editor pane shows it, with no note;
   * any other file reports clean and closed, with the not-managed note.
   */
  lemma ReportsOnlyWhatTheDataSystemSays(path: string, ide: Ide)
    requires Run(path, ide).DataReply?
    ensures var d := Run(path, ide).data; var f := FileAt(ide, path);
      Get(d, "filePath") == Some(JStr(path)) &&
      (f.managed && f.data.Found? ==>
        Get(d, "isDirty") == Some(JBool(f.data.modified)) &&
        Get(d, "isOpen") == Some(JBool(IsOpen(f.data.cookie))) &&
        Get(d, "note") == None) &&
      (!(f.managed && f.data.Found?) ==>
        Get(d, "isDirty") == Some(JBool(false)) &&
        Get(d, "isOpen") == Some(JBool(false)) &&
        Get(d, "note") == Some(JStr(NotManagedNote)))
  {
    var f := FileAt(ide, path);
    var d := Run(path, ide).data;
    LookupAt(d.fields, "filePath", 0);
    LookupAt(d.fields, "isDirty", 1);
    LookupAt(d.fields, "isOpen", 2);
    if f.managed && f.data.Found? {
      LookupMissing(d.fields, "note");
    } else {
      LookupAt(d.fields, "note", 3);
    }
  }
}
