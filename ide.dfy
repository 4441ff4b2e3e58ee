// What the plugin reads from, and does to, the NetBeans platform: open
// projects, the window system's tabs and their nodes, editor cookies and
// documents, files on disk and in the data system. Each platform call the
// plugin makes is answered by a field of these values.
module Ide {
  import opened Wrappers
  import opened Json
  import opened MCPResponseBuilder

  /** The message of a thrown exception; Java allows it to be null. */
  type ExceptionMessage = Option<string>

  /**
   * A Swing text component in an editor pane: its identity and, resolved
   * through NbDocument, the 0-based line and column of the selection ends.
   */
  datatype TextComp = TextComp(
    id: nat,
    styled: bool,                    // its document is a StyledDocument
    selectedText: Option<string>,    // getSelectedText()
    startLine: int, startColumn: int,
    endLine: int, endColumn: int)

  /** An editor annotation: getShortDescription() and getAnnotationType(). */
  datatype Annotation = Annotation(shortDescription: Option<string>, annotationType: Option<string>)

  /**
   * One line visited by the getNextLineWithAnnotation chain: its 0-based
   * number, the active annotation and the passive ones. `failsAfter` marks
   * a line whose reads throw: Some(k) when the active annotation (read 0),
   * the passive list and its members (reads 1, 2, ...) and finally the next
   * line's number are read in that order and the read after the first k
   * annotations throws. A k past the last annotation stands for
   * getNextLineWithAnnotation throwing.
   */
  datatype AnnotatedLine = AnnotatedLine(
    line: int,
    active: Option<Annotation>,
    passive: Option<seq<Option<Annotation>>>,
    failsAfter: Option<nat>)

  /** A StyledDocument and its Annotations property (null when absent). */
  datatype Doc = Doc(annotations: Option<seq<AnnotatedLine>>)

  /** An EditorCookie. */
  datatype Cookie = Cookie(
    panes: Option<seq<Option<TextComp>>>,   // getOpenedPanes()
    document: Option<Doc>,                  // getDocument()
    saveFailure: Option<ExceptionMessage>)  // saveDocument() throws IOException

  /** DataObject.find: throws DataObjectNotFoundException, or finds one. */
  datatype DataLookup =
    | NotFound(message: ExceptionMessage)
    | Found(modified: bool, cookie: Option<Cookie>)

  /** A DataObject's primary FileObject. */
  datatype FileObj = FileObj(
    path: string, name: string, ext: string,
    diskPath: Option<string>)   // FileUtil.toFile(..).getAbsolutePath(), null when not on disk

  /** A node of a tab: its EditorCookie and DataObject lookups. */
  datatype Node = Node(cookie: Option<Cookie>, dataObject: Option<FileObj>)

  /**
   * A TopComponent: identity, display name, class name, activated nodes,
   * when close() throws, the exception's message, and whether close() is
   * vetoed (a cancelled save prompt) so that it answers false.
   */
  datatype Tab = Tab(
    id: nat,
    displayName: Option<string>,
    className: string,
    nodes: Option<seq<Node>>,
    closeFailure: Option<ExceptionMessage>,
    closeVetoed: bool)

  /** A child of a project folder (FileObject.getChildren()). */
  datatype TreeEntry = TreeEntry(name: string, isFolder: bool, children: seq<TreeEntry>)

  /** An entry of File.listFiles(). */
  datatype ListedFile = ListedFile(name: string, absolutePath: string, isDirectory: bool, size: int)

  /** Everything the plugin can learn about one path. */
  datatype FileEntry = FileEntry(
    onDisk: bool,                                // File.exists()
    managed: bool,                               // FileUtil.toFileObject(..) != null
    name: string,                                // FileObject.getName()
    children: seq<TreeEntry>,                    // FileObject.getChildren()
    data: DataLookup,                            // DataObject.find(..)
    contents: Result<string, ExceptionMessage>,  // Files.readString(..)
    writeFailure: Option<ExceptionMessage>,      // Files.writeString(..) throws
    listing: Option<seq<ListedFile>>)            // File.listFiles()

  /** A path nothing is known about: it does not exist anywhere. */
  function Absent(path: string): FileEntry
  {
    FileEntry(false, false, "", [], NotFound(None), Failure(Some(path)), None, None)
  }

  /** An open project: its directory's path (null when it has none) and display name. */
  datatype Project = Project(dir: Option<string>, displayName: string)

  /**
   * What org.netbeans.api.diff.Diff.createDiff gives back: no view, a view
   * whose component is a TopComponent, some other component or none at all,
   * or an exception (an IOException, or any other exception).
   */
  datatype DiffView =
    | NullView
    | TopComponentView
    | OtherComponentView
    | NullComponentView
    | CreateFails(message: ExceptionMessage)
    | CreateThrows(message: ExceptionMessage)

  /** The org.netbeans.api.diff.Diff service, when one is installed. */
  datatype DiffService = NoDiffService | DiffService(view: DiffView)

  /** A snapshot of the IDE as the plugin's calls observe it. */
  datatype Ide = Ide(
    projects: seq<Project>,              // OpenProjects.getOpenProjects()
    canonical: map<string, string>,      // File.getCanonicalFile(); a missing key throws IOException
    files: map<string, FileEntry>,       // per-path answers; a missing key is Absent
    tabs: seq<Tab>,                      // TopComponent.Registry.getOpened()
    activated: Option<Tab>,              // TopComponent.Registry.getActivated()
    openDocuments: seq<Json>,            // the getOpenEditors query's answer
    activeEditorPath: Option<string>,    // path of the focused editor's file
    activeEditorContent: Option<string>, // text of the focused editor's buffer
    diffService: DiffService,
    runtimeBefore: seq<(string, Json)>,  // JVM and OS figures reported by getDiagnostics
    runtimeAfter: seq<(string, Json)>,   // memory figures reported by getDiagnostics
    npeText: ExceptionMessage)           // the message of a NullPointerException

  function FileAt(ide: Ide, path: string): FileEntry
  {
    if path in ide.files then ide.files[path] else Absent(path)
  }

  /** An action the plugin performs on the IDE beyond closing tabs. */
  datatype Effect =
    | OpenedInEditor(path: string)
    | Saved(path: string)
    | Wrote(path: string, content: string)
    | ShowedDiff(tabName: string, oldText: string, newText: string)

  /** What a tool run gives back (a reply or a thrown exception) and what it did. */
  datatype Outcome<E> = Outcome(result: Result<Reply, E>, effects: seq<Effect>)

  /** The tabs left after closing `t`: every occurrence of that TopComponent goes. */
  function Without(tabs: seq<Tab>, t: Tab): (r: seq<Tab>)
    ensures t !in r
    ensures |r| <= |tabs|
  {
    if |tabs| == 0 then []
    else if tabs[0] == t then Without(tabs[1..], t)
    else [tabs[0]] + Without(tabs[1..], t)
  }

  /** Closing `t` keeps every other tab. */
  lemma {:induction false} WithoutKeepsOthers(tabs: seq<Tab>, t: Tab, x: Tab)
    requires x != t
    ensures x in Without(tabs, t) <==> x in tabs
  {
    if |tabs| > 0 {
      WithoutKeepsOthers(tabs[1..], t, x);
    }
  }

  /**
   * The first pane of a tab's first node: the activated nodes are non-null
   * and non-empty, the node has an EditorCookie, and its opened panes are
   * non-null and non-empty. The pane itself may be null.
   */
  function FirstPane(t: Tab): Option<(Node, Option<TextComp>)>
  {
    if t.nodes.None? || |t.nodes.value| == 0 then None
    else
      var node := t.nodes.value[0];
      if node.cookie.None? then None
      else
        var panes := node.cookie.value.panes;
        if panes.None? || |panes.value| == 0 then None
        else Some((node, panes.value[0]))
  }

  /** The window system's list of opened TopComponents, closed in place. */
  class Registry {
    var openTabs: seq<Tab>

    constructor (tabs: seq<Tab>)
      ensures openTabs == tabs
    {
      openTabs := tabs;
    }

    /**
     * TopComponent.close(): throws with the tab's failure message, or
     * answers whether the tab closed. Only a close that answers true
     * removes the tab; a vetoed one answers false and leaves it open.
     */
    method Close(t: Tab) returns (r: Result<bool, ExceptionMessage>)
      modifies this
      ensures r.Success? <==> t.closeFailure.None?
      ensures r.Failure? ==> r.error == t.closeFailure.value
      ensures r.Success? ==> r.value == !t.closeVetoed
      ensures openTabs == if r == Success(true) then Without(old(openTabs), t) else old(openTabs)
    {
      if t.closeFailure.Some? {
        r := Failure(t.closeFailure.value);
      } else if t.closeVetoed {
        r := Success(false);
      } else {
        openTabs := Without(openTabs, t);
        r := Success(true);
      }
    }
  }
}
