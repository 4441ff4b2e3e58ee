// The tools half of NetBeansMCPHandler: the advertised tool list built by
// createTool, the handler's own (older) copies of the tools, and the
// tools/call switch that routes to them. A tool failure never becomes a
// protocol error: it is reported as the tool result "Error: <message>".
module HandlerTools {
  import opened Wrappers
  import opened Text
  import opened Json
  import opened Ide
  import opened MCPResponseBuilder
  import opened NbUtils
  import OpenFile
  import GetCurrentSelection
  import CheckDocumentDirty
  import SaveDocument
  import CloseTab
  import CloseAllDiffTabs
  import OpenDiff
  import Seqs

  // ---------------------------------------------------------------------
  // createTool and the tool list

  /** One entry of a tool's `properties`. */
  function ParamJson(paramType: string, description: string): Json
  {
    JObj([("type", JStr(paramType)), ("description", JStr(description))])
  }

  /**
   * A varargs list createTool can walk: whole (name, type, description)
   * triples, possibly ending in a (name, type) pair.
   */
  predicate Triples(params: seq<string>)
    decreases |params|
  {
    |params| == 0 || |params| == 2 || (|params| >= 3 && Triples(params[3..]))
  }

  /** These are exactly the lists whose length is not 3k+1. */
  lemma {:induction false} TriplesLength(params: seq<string>)
    ensures Triples(params) <==> |params| % 3 != 1
    decreases |params|
  {
    if |params| >= 3 {
      TriplesLength(params[3..]);
      ModThree(|params|);
    }
  }

  lemma ModThree(n: nat)
    requires n >= 3
    ensures (n - 3) % 3 == n % 3
  {
  }

  /** The triple after the first one; a trailing (name, type) pair has nothing after it. */
  function RestTriples(params: seq<string>): (r: seq<string>)
    requires Triples(params) && |params| > 0
    ensures Triples(r) && |r| < |params|
  {
    if |params| >= 3 then params[3..] else []
  }

  /** The description of the first triple: "" when the varargs stop after its type. */
  function FirstDescription(params: seq<string>): string
    requires |params| >= 2
  {
    if 2 < |params| then params[2] else ""
  }

  /** The parameter names: the first element of each triple. */
  function NamesOf(params: seq<string>): (r: seq<string>)
    requires Triples(params)
    ensures 3 * |r| - 1 <= |params| <= 3 * |r|
    decreases |params|
  {
    if |params| == 0 then [] else [params[0]] + NamesOf(RestTriples(params))
  }

  /** The k-th name is the first element of the k-th triple. */
  lemma {:induction false} NamesOfAt(params: seq<string>, k: nat)
    requires Triples(params)
    requires k < |NamesOf(params)|
    ensures 3 * k < |params| && NamesOf(params)[k] == params[3 * k]
    decreases |params|
  {
    if k > 0 {
      RestTripleAt(params, k);
      NamesOfAt(RestTriples(params), k - 1);
    }
  }

  /**
   * The loop of createTool over (name, type, description) triples, each one
   * `properties.set(name, {type, description})` on the object built so far.
   */
  function PutParams(props: seq<(string, Json)>, params: seq<string>): seq<(string, Json)>
    requires Triples(params)
    decreases |params|
  {
    if |params| == 0 then props
    else PutParams(Put(props, params[0], ParamJson(params[1], FirstDescription(params))), RestTriples(params))
  }

  /**
   * createTool: name, description and an object input schema whose
   * `properties` and `required` come from the triples. A varargs list of
   * length 3k+1 reads past its end in the source, so it is excluded.
   */
  function CreateTool(name: string, description: string, params: seq<string>): Json
    requires |params| % 3 != 1
  {
    TriplesLength(params);
    JObj([("name", JStr(name)), ("description", JStr(description)),
          ("inputSchema", JObj([("type", JStr("object")),
                                ("properties", JObj(PutParams([], params))),
                                ("required", JArr(Strings(NamesOf(params))))]))])
  }

  /** Every name given becomes a property, and no other key appears. */
  lemma {:induction false} PutParamsKeys(props: seq<(string, Json)>, params: seq<string>)
    requires Triples(params)
    ensures forall x :: x in Keys(PutParams(props, params)) <==> x in Keys(props) || x in NamesOf(params)
    decreases |params|
  {
    if |params| > 0 {
      var next := Put(props, params[0], ParamJson(params[1], FirstDescription(params)));
      PutParamsKeys(next, RestTriples(params));
      assert NamesOf(params) == [params[0]] + NamesOf(RestTriples(params));
    }
  }

  /** No name occurs twice. */
  predicate Distinct(s: seq<string>)
    decreases |s|
  {
    |s| == 0 || (s[0] !in s[1..] && Distinct(s[1..]))
  }

  /** The names of a non-empty list: its first name, then the names of the rest. */
  lemma NamesOfStep(params: seq<string>)
    requires Triples(params) && |params| > 0
    ensures NamesOf(params) == [params[0]] + NamesOf(RestTriples(params))
  {
  }

  /** Past the first triple the names stay distinct and no longer hold the first name. */
  lemma DistinctRest(params: seq<string>)
    requires Triples(params) && |params| > 0
    requires Distinct(NamesOf(params))
    ensures Distinct(NamesOf(RestTriples(params))) && params[0] !in NamesOf(RestTriples(params))
  {
    NamesOfStep(params);
    assert NamesOf(params)[1..] == NamesOf(RestTriples(params));
  }

  /** The first triple's name is not yet a key, so it is appended. */
  lemma PutParamsNewKey(props: seq<(string, Json)>, params: seq<string>)
    requires Triples(params) && |params| > 0
    requires forall x :: x in NamesOf(params) ==> x !in Keys(props)
    ensures Keys(Put(props, params[0], ParamJson(params[1], FirstDescription(params)))) == Keys(props) + [params[0]]
  {
    NamesOfStep(params);
    assert params[0] in NamesOf(params);
  }

  /** After one triple, the remaining names are still not keys. */
  lemma PutParamsFreshStep(props: seq<(string, Json)>, params: seq<string>)
    requires Triples(params) && |params| > 0
    requires params[0] !in NamesOf(RestTriples(params))
    requires forall x :: x in NamesOf(params) ==> x !in Keys(props)
    ensures forall x :: x in NamesOf(RestTriples(params)) ==>
      x !in Keys(Put(props, params[0], ParamJson(params[1], FirstDescription(params))))
  {
    PutParamsNewKey(props, params);
    NamesOfStep(params);
    forall x | x in NamesOf(RestTriples(params))
      ensures x !in Keys(props) + [params[0]]
    {
      assert x in NamesOf(params);
    }
  }

  /** After one triple, the keys so far followed by the remaining names are unchanged. */
  lemma PutParamsOrderStep(props: seq<(string, Json)>, params: seq<string>)
    requires Triples(params) && |params| > 0
    requires forall x :: x in NamesOf(params) ==> x !in Keys(props)
    ensures Keys(props) + NamesOf(params) ==
      Keys(Put(props, params[0], ParamJson(params[1], FirstDescription(params)))) + NamesOf(RestTriples(params))
  {
    PutParamsNewKey(props, params);
    NamesOfStep(params);
    Seqs.Assoc(Keys(props), [params[0]], NamesOf(RestTriples(params)));
  }

  /** With distinct names the properties appear in input order after the existing keys. */
  lemma {:induction false} PutParamsOrder(props: seq<(string, Json)>, params: seq<string>)
    requires Triples(params)
    requires Distinct(NamesOf(params))
    requires forall x :: x in NamesOf(params) ==> x !in Keys(props)
    ensures Keys(PutParams(props, params)) == Keys(props) + NamesOf(params)
    decreases |params|
  {
    if |params| > 0 {
      DistinctRest(params);
      PutParamsFreshStep(props, params);
      PutParamsOrderStep(props, params);
      PutParamsOrder(Put(props, params[0], ParamJson(params[1], FirstDescription(params))), RestTriples(params));
    }
  }

  /** A name that the remaining triples do not mention keeps its value. */
  lemma {:induction false} PutParamsOther(props: seq<(string, Json)>, params: seq<string>, name: string)
    requires Triples(params)
    requires name !in NamesOf(params)
    ensures Lookup(PutParams(props, params), name) == Lookup(props, name)
    decreases |params|
  {
    if |params| > 0 {
      var next := Put(props, params[0], ParamJson(params[1], FirstDescription(params)));
      NamesOfStep(params);
      PutParamsOther(next, RestTriples(params), name);
      LookupPutOther(props, params[0], ParamJson(params[1], FirstDescription(params)), name);
    }
  }

  /** Past the first triple, the k-th triple is the (k-1)-th of the rest. */
  lemma RestTripleAt(params: seq<string>, k: nat)
    requires Triples(params)
    requires 0 < k < |NamesOf(params)|
    ensures |params| > 3 && RestTriples(params) == params[3..]
    ensures k - 1 < |NamesOf(RestTriples(params))|
    ensures 3 * k + 1 < |params|
  {
    NamesOfStep(params);
  }

  /** The k-th (name, type, description) triple, with "" for a missing description. */
  function TripleAt(params: seq<string>, k: nat): (string, string, string)
    requires 3 * k + 1 < |params|
  {
    (params[3 * k], params[3 * k + 1], if 3 * k + 2 < |params| then params[3 * k + 2] else "")
  }

  /** With distinct names, the first property holds the first triple's type and description. */
  lemma PutParamsValueFirst(props: seq<(string, Json)>, params: seq<string>)
    requires Triples(params) && |params| > 0
    requires Distinct(NamesOf(params))
    ensures var t := TripleAt(params, 0); Lookup(PutParams(props, params), t.0) == Some(ParamJson(t.1, t.2))
  {
    var next := Put(props, params[0], ParamJson(params[1], FirstDescription(params)));
    DistinctRest(params);
    PutParamsOther(next, RestTriples(params), params[0]);
    LookupPutSame(props, params[0], ParamJson(params[1], FirstDescription(params)));
  }

  /** With distinct names, the k-th property holds the k-th triple's type and description. */
  lemma {:induction false} PutParamsValue(props: seq<(string, Json)>, params: seq<string>, k: nat)
    requires Triples(params)
    requires Distinct(NamesOf(params))
    requires k < |NamesOf(params)|
    ensures 3 * k + 1 < |params|
    ensures var t := TripleAt(params, k); Lookup(PutParams(props, params), t.0) == Some(ParamJson(t.1, t.2))
    decreases |params|
  {
    if k == 0 {
      PutParamsValueFirst(props, params);
    } else {
      var rest := RestTriples(params);
      var next := Put(props, params[0], ParamJson(params[1], FirstDescription(params)));
      DistinctRest(params);
      TripleShift(params, k);
      PutParamsValue(next, rest, k - 1);
      assert PutParams(props, params) == PutParams(next, rest);
    }
  }

  /** The k-th triple of a list is the (k-1)-th triple of its rest. */
  lemma TripleShift(params: seq<string>, k: nat)
    requires Triples(params)
    requires 0 < k < |NamesOf(params)|
    ensures k - 1 < |NamesOf(RestTriples(params))| && 3 * k + 1 < |params|
    ensures 3 * (k - 1) + 1 < |RestTriples(params)|
    ensures TripleAt(RestTriples(params), k - 1) == TripleAt(params, k)
  {
    RestTripleAt(params, k);
  }

  /** A tool definition: the arguments handleToolsList passes to createTool. */
  datatype ToolSpec = ToolSpec(name: string, description: string, params: seq<string>)

  /** The thirteen tools handleToolsList advertises, in its order. */
  const Tools: seq<ToolSpec> := [
    ToolSpec("openFile", "Opens a file in the editor",
      ["path", "string", "Path to the file to open",
       "preview", "boolean", "Whether to open in preview mode"]),
    ToolSpec("getWorkspaceFolders", "Get list of workspace folders (open projects)", []),
    ToolSpec("getOpenEditors", "Get list of currently open editor tabs", []),
    ToolSpec("getCurrentSelection", "Get the current text selection in the active editor", []),
    ToolSpec("read_file", "Read file contents (within open projects only)",
      ["path", "string", "Path to the file to read (must be within an open project)"]),
    ToolSpec("write_file", "Write file contents (within open projects only)",
      ["path", "string", "Path to the file to write (must be within an open project)",
       "content", "string", "Content to write to the file"]),
    ToolSpec("list_files", "List files in directory (within open projects only)",
      ["path", "string", "Directory path to list (must be within an open project)"]),
    ToolSpec("close_tab", "Close an open editor tab",
      ["tab_name", "string", "Name of the tab to close"]),
    ToolSpec("getDiagnostics", "Get diagnostics information about the IDE and environment", []),
    ToolSpec("checkDocumentDirty", "Check if a document has unsaved changes",
      ["filePath", "string", "Path to the file to check"]),
    ToolSpec("saveDocument", "Save a document to disk",
      ["filePath", "string", "Path to the file to save"]),
    ToolSpec("closeAllDiffTabs", "Close all diff viewer tabs", []),
    ToolSpec("openDiff", "Open a diff viewer comparing two files",
      ["old_file_path", "string", "Path to the original file",
       "new_file_path", "string", "Path to the modified file",
       "new_file_contents", "string", "Contents of the modified file",
       "tab_name", "string", "Name for the diff tab (optional)"])
  ]

  /** The tool names tools/call recognises. */
  const KnownTools: set<string> := {
    "openFile", "getWorkspaceFolders", "getOpenEditors", "getCurrentSelection", "read_file",
    "write_file", "list_files", "close_tab", "getDiagnostics", "checkDocumentDirty",
    "saveDocument", "closeAllDiffTabs", "openDiff"}

  function ToolObjects(specs: seq<ToolSpec>): (r: seq<Json>)
    requires forall i :: 0 <= i < |specs| ==> |specs[i].params| % 3 != 1
    ensures |r| == |specs|
    ensures forall i :: 0 <= i < |specs| ==> r[i] == CreateTool(specs[i].name, specs[i].description, specs[i].params)
  {
    seq(|specs|, i requires 0 <= i < |specs| => CreateTool(specs[i].name, specs[i].description, specs[i].params))
  }

  /** Every advertised tool passes createTool whole triples, or a final (name, type) pair. */
  lemma ToolParamsAreTriples()
    ensures forall i :: 0 <= i < |Tools| ==> |Tools[i].params| % 3 != 1
  {
    assert |Tools| == 13;
    assert |Tools[0].params| == 6 && |Tools[4].params| == 3 && |Tools[5].params| == 6;
    assert |Tools[6].params| == 3 && |Tools[7].params| == 3 && |Tools[9].params| == 3;
    assert |Tools[10].params| == 3 && |Tools[12].params| == 12;
  }

  /** handleToolsList: `{tools: [...]}`. */
  function ToolsListResult(): Json
  {
    ToolParamsAreTriples();
    JObj([("tools", JArr(ToolObjects(Tools)))])
  }

  /** Every advertised tool is one the tools/call switch routes. */
  lemma AdvertisedToolsAreRouted()
    ensures |Tools| == 13
    ensures forall t :: t in Tools ==> t.name in KnownTools
  {
  }

  // ---------------------------------------------------------------------
  // The handler's copies of the tools

  /** What one tools/call does: a reply or an exception's message, the tabs left open, the other effects. */
  datatype ToolRun = ToolRun(result: Result<Reply, ExceptionMessage>, tabs: seq<Tab>, effects: seq<Effect>)

  const ReadDenied: string := "File read denied: Path is not within any open project directory: "
  const WriteDenied: string := "File write denied: Path is not within any open project directory: "
  const ListDenied: string := "Directory listing denied: Path is not within any open project directory: "

  /** handleReadFile: the guard, then the file's text; a read failure propagates. */
  function ReadFile(path: string, ide: Ide): (r: Result<Reply, ExceptionMessage>)
    ensures !IsPathWithinOpenProjects(path, ide.projects, ide.canonical) ==> r == Failure(Some(ReadDenied + path))
    ensures r.Success? ==> FileAt(ide, path).contents.Success? && r.value == TextReply(FileAt(ide, path).contents.value)
    ensures IsPathWithinOpenProjects(path, ide.projects, ide.canonical) ==>
      r == (if FileAt(ide, path).contents.Success? then Success(TextReply(FileAt(ide, path).contents.value))
            else Failure(FileAt(ide, path).contents.error))
  {
    if !IsPathWithinOpenProjects(path, ide.projects, ide.canonical) then Failure(Some(ReadDenied + path))
    else
      match FileAt(ide, path).contents
      case Success(text) => Success(TextReply(text))
      case Failure(m) => Failure(m)
  }

  /** handleWriteFile: the guard, then the write; the file is written only past the guard. */
  function WriteFile(path: string, content: string, ide: Ide): (r: Outcome<ExceptionMessage>)
    ensures r.effects != [] <==>
      IsPathWithinOpenProjects(path, ide.projects, ide.canonical) && FileAt(ide, path).writeFailure.None?
    ensures r.effects != [] ==>
      r.effects == [Wrote(path, content)] && r.result == Success(TextReply("File written successfully: " + path))
    ensures !IsPathWithinOpenProjects(path, ide.projects, ide.canonical) ==> r.result == Failure(Some(WriteDenied + path))
  {
    if !IsPathWithinOpenProjects(path, ide.projects, ide.canonical) then Outcome(Failure(Some(WriteDenied + path)), [])
    else
      match FileAt(ide, path).writeFailure
      case Some(m) => Outcome(Failure(m), [])
      case None => Outcome(Success(TextReply("File written successfully: " + path)), [Wrote(path, content)])
  }

  function ListedJson(f: ListedFile): Json
  {
    JObj([("name", JStr(f.name)), ("path", JStr(f.absolutePath)),
          ("isDirectory", JBool(f.isDirectory)), ("size", JInt(f.size))])
  }

  function ListedJsons(fs: seq<ListedFile>): (r: seq<Json>)
    ensures |r| == |fs|
    ensures forall i :: 0 <= i < |fs| ==> r[i] == ListedJson(fs[i])
  {
    if |fs| == 0 then [] else [ListedJson(fs[0])] + ListedJsons(fs[1..])
  }

  /** handleListFiles: the guard, then one entry per listed file; no listing gives []. */
  function ListFiles(path: string, ide: Ide): (r: Result<Reply, ExceptionMessage>)
    ensures r.Success? <==> IsPathWithinOpenProjects(path, ide.projects, ide.canonical)
    ensures r.Failure? ==> r.error == Some(ListDenied + path)
    ensures r.Success? ==> (r.value.DataReply? && r.value.data.JArr? &&
      |r.value.data.items| == (if FileAt(ide, path).listing.Some? then |FileAt(ide, path).listing.value| else 0))
    ensures r.Success? ==>
      r.value.data.items == (if FileAt(ide, path).listing.Some? then ListedJsons(FileAt(ide, path).listing.value) else [])
  {
    if !IsPathWithinOpenProjects(path, ide.projects, ide.canonical) then Failure(Some(ListDenied + path))
    else
      var listing := FileAt(ide, path).listing;
      Success(DataReply(JArr(if listing.Some? then ListedJsons(listing.value) else [])))
  }

  /** The folder object of a project with a directory: its display name and its "file://" uri. */
  function FolderJson(p: Project): Json
    requires p.dir.Some?
  {
    JObj([("name", JStr(p.displayName)), ("uri", JStr("file://" + p.dir.value))])
  }

  /** handleGetWorkspaceFolders: name and "file://" uri of each project; a project without a directory throws. */
  function WorkspaceFolders(projects: seq<Project>, npe: ExceptionMessage): (r: Result<seq<Json>, ExceptionMessage>)
    ensures r.Success? <==> forall i :: 0 <= i < |projects| ==> projects[i].dir.Some?
    ensures r.Failure? ==> r.error == npe
    ensures r.Success? ==> |r.value| == |projects|
    ensures r.Success? ==> forall i :: 0 <= i < |projects| ==> r.value[i] == FolderJson(projects[i])
  {
    if |projects| == 0 then Success([])
    else if projects[0].dir.None? then Failure(npe)
    else
      match WorkspaceFolders(projects[1..], npe)
      case Failure(m) => Failure(m)
      case Success(rest) =>
        Success([FolderJson(projects[0])] + rest)
  }

  /**
   * The first pass of handleCloseTab: the first tab whose display name
   * equals the name. It calls equals on each display name in turn, so a
   * null display name met first throws.
   */
  function DisplayPass(tabs: seq<Tab>, tabName: string): (r: Result<Option<Tab>, ()>)
    ensures r.Success? && r.value.Some? ==> r.value.value in tabs && r.value.value.displayName == Some(tabName)
    ensures (forall t :: t in tabs ==> t.displayName.Some?) ==> r.Success?
  {
    if |tabs| == 0 then Success(None)
    else if tabs[0].displayName.None? then Failure(())
    else if tabs[0].displayName.value == tabName then Success(Some(tabs[0]))
    else DisplayPass(tabs[1..], tabName)
  }

  /** When no display name is null, the first pass finds what CloseTab's first pass finds. */
  lemma {:induction false} DisplayPassAgrees(tabs: seq<Tab>, tabName: string)
    requires forall t :: t in tabs ==> t.displayName.Some?
    ensures var d := CloseTab.FirstIndex(tabs, t => CloseTab.DisplayMatches(t, tabName));
      DisplayPass(tabs, tabName) == Success(if d >= 0 then Some(tabs[d]) else None)
  {
    if |tabs| > 0 && tabs[0].displayName.value != tabName {
      DisplayPassAgrees(tabs[1..], tabName);
      var p := (t: Tab) => CloseTab.DisplayMatches(t, tabName);
      var k := CloseTab.FirstIndex(tabs[1..], p);
      assert !p(tabs[0]);
      assert CloseTab.FirstIndex(tabs, p) == if k == -1 then -1 else k + 1;
    }
  }

  /**
   * Closes `t`: the tabs without it (unchanged when the close is vetoed),
   * or the close failure's message.
   */
  function CloseOne(tabs: seq<Tab>, t: Tab, tabName: string): ToolRun
  {
    if t.closeFailure.Some? then ToolRun(Failure(Some("Failed to close tab: " + StringOf(t.closeFailure.value))), tabs, [])
    else ToolRun(Success(TextReply("Tab closed successfully: " + tabName)), if t.closeVetoed then tabs else Without(tabs, t), [])
  }

  /** The tab handleCloseTab picks: the first display-name match, else the first file-name match. */
  predicate Picks(tabs: seq<Tab>, tabName: string, t: Tab)
  {
    DisplayPass(tabs, tabName) == Success(Some(t)) ||
    (DisplayPass(tabs, tabName) == Success(None) &&
     var f := CloseTab.FirstIndex(tabs, t => CloseTab.FileMatches(t, tabName));
     0 <= f < |tabs| && tabs[f] == t)
  }

  /**
   * handleCloseTab: by display name, else by file name; a miss is the text
   * "Tab not currently open: <name>", and any exception (a null display
   * name included) is rethrown as "Failed to close tab: <message>".
   */
  function InlineCloseTab(tabs: seq<Tab>, tabName: string, npe: ExceptionMessage): (r: ToolRun)
    ensures DisplayPass(tabs, tabName).Failure? ==>
      r == ToolRun(Failure(Some("Failed to close tab: " + StringOf(npe))), tabs, [])
    ensures forall t {:trigger Picks(tabs, tabName, t)} :: Picks(tabs, tabName, t) ==>
      (t.closeFailure.Some? ==>
         r == ToolRun(Failure(Some("Failed to close tab: " + StringOf(t.closeFailure.value))), tabs, [])) &&
      (t.closeFailure.None? ==>
         r.result == Success(TextReply("Tab closed successfully: " + tabName)) && r.effects == [] &&
         r.tabs == (if t.closeVetoed then tabs else Without(tabs, t)))
    ensures DisplayPass(tabs, tabName) == Success(None) && CloseTab.FirstIndex(tabs, t => CloseTab.FileMatches(t, tabName)) < 0 ==>
      r == ToolRun(Success(TextReply("Tab not currently open: " + tabName)), tabs, [])
    ensures r.result.Success? && r.tabs == tabs ==>
      r.result.value == TextReply("Tab not currently open: " + tabName) ||
      exists t :: (t in tabs && t.closeVetoed && (t.displayName == Some(tabName) || CloseTab.FileMatches(t, tabName)))
    ensures r.tabs != tabs ==>
      exists t :: (t in tabs && r.tabs == Without(tabs, t) &&
                   (t.displayName == Some(tabName) || CloseTab.FileMatches(t, tabName)))
  {
    match DisplayPass(tabs, tabName)
    case Failure(_) => ToolRun(Failure(Some("Failed to close tab: " + StringOf(npe))), tabs, [])
    case Success(Some(t)) => WithoutRemoves(tabs, t); CloseOne(tabs, t, tabName)
    case Success(None) =>
      var f := CloseTab.FirstIndex(tabs, t => CloseTab.FileMatches(t, tabName));
      if f >= 0 then WithoutRemoves(tabs, tabs[f]); CloseOne(tabs, tabs[f], tabName)
      else ToolRun(Success(TextReply("Tab not currently open: " + tabName)), tabs, [])
  }

  /** Closing an open tab changes the list. */
  lemma WithoutRemoves(tabs: seq<Tab>, t: Tab)
    requires t in tabs
    ensures Without(tabs, t) != tabs
  {
  }

  /**
   * Where neither copy throws, the handler's close_tab closes the same tab
   * as CloseTab; only the reply text differs.
   */
  lemma InlineCloseTabAgrees(tabs: seq<Tab>, tabName: string, npe: ExceptionMessage)
    requires forall t :: t in tabs ==> t.displayName.Some?
    ensures var found := CloseTab.FindTopComponent(tabs, tabName);
      InlineCloseTab(tabs, tabName, npe).tabs ==
        if found.Some? && found.value.closeFailure.None? && !found.value.closeVetoed then Without(tabs, found.value) else tabs
  {
    DisplayPassAgrees(tabs, tabName);
  }

  /** handleSaveDocument: the same checks as SaveDocument, each answered with text instead of thrown. */
  function InlineSave(path: string, ide: Ide): (r: Outcome<ExceptionMessage>)
    ensures r.result.Success?
    ensures SaveDocument.Run(path, ide).result == Failure(SaveDocument.SecurityDenied(path)) ==>
      r == Outcome(Success(TextReply("Error saving document: " + SaveDocument.Denied + path)), [])
    ensures SaveDocument.Run(path, ide).result == Failure(SaveDocument.FileNotFound(path)) ==>
      r == Outcome(Success(TextReply("File not found: " + path)), [])
    ensures forall m :: SaveDocument.Run(path, ide).result == Failure(SaveDocument.NoDataObject(m)) ==>
      r == Outcome(Success(TextReply("Error saving document: " + StringOf(m))), [])
    ensures SaveDocument.Run(path, ide).result == Failure(SaveDocument.NotEditable) ==>
      r == Outcome(Success(TextReply(SaveDocument.NotEditableMessage)), [])
    ensures forall m :: SaveDocument.Run(path, ide).result == Failure(SaveDocument.SaveFailed(m)) ==>
      r == Outcome(Success(TextReply("Error saving document: " + StringOf(m))), [])
  {
    var f := FileAt(ide, path);
    if !IsPathWithinOpenProjects(path, ide.projects, ide.canonical) then
      Outcome(Success(TextReply("Error saving document: " + SaveDocument.Denied + path)), [])
    else if !f.managed then Outcome(Success(TextReply("File not found: " + path)), [])
    else if f.data.NotFound? then Outcome(Success(TextReply("Error saving document: " + StringOf(f.data.message))), [])
    else if f.data.cookie.None? then Outcome(Success(TextReply(SaveDocument.NotEditableMessage)), [])
    else if f.data.cookie.value.saveFailure.Some? then
      Outcome(Success(TextReply("Error saving document: " + StringOf(f.data.cookie.value.saveFailure.value))), [])
    else Outcome(Success(DataReply(SaveDocument.SavedJson(path))), [Saved(path)])
  }

  /**
   * The handler's save saves exactly when SaveDocument does, with the same
   * result object; every failure SaveDocument throws is text here.
   */
  lemma InlineSaveAgrees(path: string, ide: Ide)
    ensures InlineSave(path, ide).effects == SaveDocument.Run(path, ide).effects
    ensures InlineSave(path, ide).result.value.DataReply? <==> SaveDocument.Run(path, ide).result.Success?
    ensures SaveDocument.Run(path, ide).result.Success? ==>
      InlineSave(path, ide).result.value == SaveDocument.Run(path, ide).result.value
  {
  }

  /** A tab shows a file: its first activated node has a DataObject. */
  predicate ShowsFile(t: Tab)
  {
    t.nodes.Some? && |t.nodes.value| > 0 && t.nodes.value[0].dataObject.Some?
  }

  /** The open_editors_count loop: tabs whose first node has a DataObject. */
  function OpenEditorsCount(tabs: seq<Tab>): (n: nat)
    ensures n <= |tabs|
    ensures n == 0 <==> forall t :: t in tabs ==> !ShowsFile(t)
  {
    if |tabs| == 0 then 0
    else OpenEditorsCount(tabs[..|tabs| - 1]) + (if ShowsFile(tabs[|tabs| - 1]) then 1 else 0)
  }

  /**
   * handleGetDiagnostics: the IDE, JVM and OS figures (taken as given),
   * the plugin and protocol versions, the project and editor counts, then
   * the memory figures.
   */
  function InlineDiagnostics(ide: Ide): (j: Json)
  {
    JObj(ide.runtimeBefore +
         [("plugin_version", JStr("1.0.7")), ("mcp_protocol_version", JStr("2024-11-05")),
          ("open_projects_count", JInt(|ide.projects|)), ("open_editors_count", JInt(OpenEditorsCount(ide.tabs)))] +
         ide.runtimeAfter)
  }

  /** The protocol version the diagnostics report is the one initialize announces. */
  lemma InlineDiagnosticsVersion(ide: Ide)
    requires forall i :: 0 <= i < |ide.runtimeBefore| ==> ide.runtimeBefore[i].0 != "mcp_protocol_version"
    ensures Get(InlineDiagnostics(ide), "mcp_protocol_version") == Some(JStr("2024-11-05"))
  {
    var fields := InlineDiagnostics(ide).fields;
    LookupAt(fields, "mcp_protocol_version", |ide.runtimeBefore| + 1);
  }

  /** handleCloseAllDiffTabs: the same pass as CloseAllDiffTabs, answered with an object. */
  function InlineCloseAllDiffTabs(tabs: seq<Tab>): (r: ToolRun)
    ensures r.tabs == CloseAllDiffTabs.Survivors(tabs)
    ensures r.result.Success? && r.result.value.DataReply?
  {
    var n := CloseAllDiffTabs.ClosedCount(tabs);
    ToolRun(Success(DataReply(JObj([("closedCount", JInt(n)),
                                    ("message", JStr("Closed " + NatToString(n) + " diff viewer tabs"))]))),
            CloseAllDiffTabs.Survivors(tabs), [])
  }

  // ---------------------------------------------------------------------
  // The tools/call switch

  /**
   * A required argument: `arguments.get(key)`, which throws when there are
   * no arguments at all, and the "Missing required parameter" exception
   * when the key is absent.
   */
  function Required(arguments: Option<Json>, key: string, npe: ExceptionMessage): (r: Result<string, ExceptionMessage>)
    ensures arguments.None? ==> r == Failure(npe)
    ensures arguments.Some? && !Has(arguments.value, key) ==> r == Failure(Some("Missing required parameter: " + key))
    ensures arguments.Some? && Has(arguments.value, key) ==> r == Success(AsText(Get(arguments.value, key).value))
  {
    if arguments.None? then Failure(npe)
    else
      match Get(arguments.value, key)
      case None => Failure(Some("Missing required parameter: " + key))
      case Some(v) => Success(AsText(v))
  }

  function Fail(m: ExceptionMessage, ide: Ide): ToolRun
  {
    ToolRun(Failure(m), ide.tabs, [])
  }

  function FromOutcome(o: Outcome<ExceptionMessage>, ide: Ide): ToolRun
  {
    ToolRun(o.result, ide.tabs, o.effects)
  }

  /** The message of the IllegalArgumentException for a missing argument. */
  function MissingMessage(key: string): ExceptionMessage
  {
    Some("Missing required parameter: " + key)
  }

  /** case "openFile": the path and the preview flag (false when absent) go to handleOpenFile. */
  function OpenFileCase(arguments: Option<Json>, ide: Ide): (r: ToolRun)
    ensures r.tabs == ide.tabs
    ensures arguments.None? || !Has(arguments.value, "path") ==> r == Fail(ide.npeText, ide)
  {
    if arguments.None? || !Has(arguments.value, "path") then Fail(ide.npeText, ide)
    else
      var path := AsText(Get(arguments.value, "path").value);
      var preview := Some(if Has(arguments.value, "preview") then AsBoolean(Get(arguments.value, "preview").value) else false);
      var o := OpenFile.Run(path, preview, ide);
      ToolRun(if o.result.Success? then Success(o.result.value) else Failure(Some(o.result.error)), ide.tabs, o.effects)
  }

  /** case "getWorkspaceFolders". */
  function WorkspaceFoldersCase(ide: Ide): (r: ToolRun)
    ensures r.tabs == ide.tabs && r.effects == []
  {
    match WorkspaceFolders(ide.projects, ide.npeText)
    case Failure(m) => Fail(m, ide)
    case Success(folders) => ToolRun(Success(DataReply(JArr(folders))), ide.tabs, [])
  }

  /** case "read_file": a missing path is reported before anything is read. */
  function ReadFileCase(arguments: Option<Json>, ide: Ide): (r: ToolRun)
    ensures r.tabs == ide.tabs && r.effects == []
    ensures arguments.Some? && !Has(arguments.value, "path") ==> r.result == Failure(MissingMessage("path"))
  {
    match Required(arguments, "path", ide.npeText)
    case Failure(m) => Fail(m, ide)
    case Success(path) => ToolRun(ReadFile(path, ide), ide.tabs, [])
  }

  /** case "write_file": the path is checked before the content. */
  function WriteFileCase(arguments: Option<Json>, ide: Ide): (r: ToolRun)
    ensures r.tabs == ide.tabs
    ensures arguments.Some? && !Has(arguments.value, "path") ==> r.result == Failure(MissingMessage("path"))
  {
    match Required(arguments, "path", ide.npeText)
    case Failure(m) => Fail(m, ide)
    case Success(path) =>
      match Required(arguments, "content", ide.npeText)
      case Failure(m) => Fail(m, ide)
      case Success(content) => FromOutcome(WriteFile(path, content, ide), ide)
  }

  /** case "list_files". */
  function ListFilesCase(arguments: Option<Json>, ide: Ide): (r: ToolRun)
    ensures r.tabs == ide.tabs && r.effects == []
    ensures arguments.Some? && !Has(arguments.value, "path") ==> r.result == Failure(MissingMessage("path"))
  {
    match Required(arguments, "path", ide.npeText)
    case Failure(m) => Fail(m, ide)
    case Success(path) => ToolRun(ListFiles(path, ide), ide.tabs, [])
  }

  /** case "close_tab". */
  function CloseTabCase(arguments: Option<Json>, ide: Ide): (r: ToolRun)
    ensures r.effects == []
    ensures arguments.Some? && !Has(arguments.value, "tab_name") ==>
      r.result == Failure(MissingMessage("tab_name")) && r.tabs == ide.tabs
  {
    match Required(arguments, "tab_name", ide.npeText)
    case Failure(m) => Fail(m, ide)
    case Success(name) => InlineCloseTab(ide.tabs, name, ide.npeText)
  }

  /** case "checkDocumentDirty". */
  function CheckDocumentDirtyCase(arguments: Option<Json>, ide: Ide): (r: ToolRun)
    ensures r.tabs == ide.tabs && r.effects == []
    ensures arguments.Some? && !Has(arguments.value, "filePath") ==> r.result == Failure(MissingMessage("filePath"))
  {
    match Required(arguments, "filePath", ide.npeText)
    case Failure(m) => Fail(m, ide)
    case Success(path) => ToolRun(Success(CheckDocumentDirty.Run(path, ide)), ide.tabs, [])
  }

  /** case "saveDocument". */
  function SaveDocumentCase(arguments: Option<Json>, ide: Ide): (r: ToolRun)
    ensures r.tabs == ide.tabs
    ensures arguments.Some? && !Has(arguments.value, "filePath") ==> r.result == Failure(MissingMessage("filePath"))
  {
    match Required(arguments, "filePath", ide.npeText)
    case Failure(m) => Fail(m, ide)
    case Success(path) => FromOutcome(InlineSave(path, ide), ide)
  }

  /** case "openDiff": old path, new path and new contents are required in that order; tab_name is optional. */
  function OpenDiffCase(arguments: Option<Json>, ide: Ide): (r: ToolRun)
    ensures r.tabs == ide.tabs
    ensures arguments.Some? && !Has(arguments.value, "old_file_path") ==>
      r.result == Failure(MissingMessage("old_file_path"))
  {
    match Required(arguments, "old_file_path", ide.npeText)
    case Failure(m) => Fail(m, ide)
    case Success(oldPath) =>
      match Required(arguments, "new_file_path", ide.npeText)
      case Failure(m) => Fail(m, ide)
      case Success(newPath) =>
        match Required(arguments, "new_file_contents", ide.npeText)
        case Failure(m) => Fail(m, ide)
        case Success(contents) =>
          var tab := if Has(arguments.value, "tab_name") then Some(AsText(Get(arguments.value, "tab_name").value)) else None;
          var o := OpenDiff.Run(OpenDiff.Params(Some(oldPath), Some(newPath), Some(contents), tab), ide);
          ToolRun(Success(o.result.value), ide.tabs, o.effects)
  }

  /** handleToolsCall's switch on the tool name. */
  function CallTool(toolName: string, arguments: Option<Json>, ide: Ide): (r: ToolRun)
    ensures toolName !in KnownTools ==> r == ToolRun(Failure(Some("Unknown tool: " + toolName)), ide.tabs, [])
    ensures r.tabs != ide.tabs ==> toolName == "close_tab" || toolName == "closeAllDiffTabs"
    ensures r.effects != [] ==> toolName in {"openFile", "write_file", "saveDocument", "openDiff"}
  {
    match toolName
    case "openFile" => OpenFileCase(arguments, ide)
    case "getWorkspaceFolders" => WorkspaceFoldersCase(ide)
    case "getOpenEditors" => ToolRun(Success(DataReply(JArr(ide.openDocuments))), ide.tabs, [])
    case "getCurrentSelection" =>
      ToolRun(Success(GetCurrentSelection.Run(Success(GetCurrentSelectionData(ide.activated)))), ide.tabs, [])
    case "read_file" => ReadFileCase(arguments, ide)
    case "write_file" => WriteFileCase(arguments, ide)
    case "list_files" => ListFilesCase(arguments, ide)
    case "close_tab" => CloseTabCase(arguments, ide)
    case "getDiagnostics" => ToolRun(Success(DataReply(InlineDiagnostics(ide))), ide.tabs, [])
    case "checkDocumentDirty" => CheckDocumentDirtyCase(arguments, ide)
    case "saveDocument" => SaveDocumentCase(arguments, ide)
    case "closeAllDiffTabs" => InlineCloseAllDiffTabs(ide.tabs)
    case "openDiff" => OpenDiffCase(arguments, ide)
    case _ => Fail(Some("Unknown tool: " + toolName), ide)
  }

  /** handleToolsCall's result: the tool's reply, or "Error: <message>" for anything thrown. */
  function ToolResult(run: ToolRun, ser: Serializer): (j: Json)
    ensures run.result.Failure? ==> ContentTexts(j) == Some(["Error: " + StringOf(run.result.error)])
  {
    match run.result
    case Success(reply) => ToolResponseFor(reply, ser)
    case Failure(m) => CreateToolResponse("Error: " + StringOf(m))
  }

  /** The first argument each tool reads with a "Missing required parameter" check. */
  predicate FirstRequired(toolName: string, key: string)
  {
    || (toolName == "read_file" && key == "path")
    || (toolName == "write_file" && key == "path")
    || (toolName == "list_files" && key == "path")
    || (toolName == "close_tab" && key == "tab_name")
    || (toolName == "checkDocumentDirty" && key == "filePath")
    || (toolName == "saveDocument" && key == "filePath")
    || (toolName == "openDiff" && key == "old_file_path")
  }

  /** A missing required argument is reported as a tool result, never thrown further. */
  lemma MissingArgumentIsToolError(toolName: string, key: string, arguments: Json, ide: Ide, ser: Serializer)
    requires FirstRequired(toolName, key)
    requires !Has(arguments, key)
    ensures ContentTexts(ToolResult(CallTool(toolName, Some(arguments), ide), ser)) ==
      Some(["Error: " + "Missing required parameter: " + key])
  {
    assert CallTool(toolName, Some(arguments), ide).result == Failure(MissingMessage(key));
    Seqs.Assoc("Error: ", "Missing required parameter: ", key);
  }

  /** An unknown tool is reported as the tool result "Error: Unknown tool: <name>". */
  lemma UnknownToolIsToolError(toolName: string, arguments: Option<Json>, ide: Ide, ser: Serializer)
    requires toolName !in KnownTools
    ensures ContentTexts(ToolResult(CallTool(toolName, arguments, ide), ser)) == Some(["Error: " + "Unknown tool: " + toolName])
  {
    Seqs.Assoc("Error: ", "Unknown tool: ", toolName);
  }

  /** The handler's openDiff is OpenDiff's run with every path and the new contents supplied. */
  lemma InlineOpenDiffIsToolWithAllArguments(oldPath: string, newPath: string, contents: string, ide: Ide)
    ensures var o := OpenDiff.Run(OpenDiff.Params(Some(oldPath), Some(newPath), Some(contents), None), ide);
      CallTool("openDiff", Some(JObj([("old_file_path", JStr(oldPath)), ("new_file_path", JStr(newPath)),
                                      ("new_file_contents", JStr(contents))])), ide) ==
        ToolRun(Success(o.result.value), ide.tabs, o.effects)
  {
    var fields := [("old_file_path", JStr(oldPath)), ("new_file_path", JStr(newPath)), ("new_file_contents", JStr(contents))];
    LookupAt(fields, "old_file_path", 0);
    LookupAt(fields, "new_file_path", 1);
    LookupAt(fields, "new_file_contents", 2);
    LookupMissing(fields, "tab_name");
  }
}
