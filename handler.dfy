// NetBeansMCPHandler.handleMessage: one JSON-RPC 2.0 request in, one
// response tree out. Known methods answer with a result under the request's
// id; an unknown method is the error -32601; anything thrown on the way is
// the error -32603 without an id.
module NetBeansMCPHandler {
  import opened Wrappers
  import opened Text
  import opened Json
  import opened Ide
  import opened MCPResponseBuilder
  import opened HandlerTools

  const ProtocolVersion: string := "2024-11-05"

  /** The methods handleMessage answers with a result. */
  const KnownMethods: set<string> :=
    {"initialize", "tools/list", "tools/call", "resources/list", "resources/read", "prompts/list"}

  /** handleInitialize: protocol version, capabilities and server info. */
  function InitializeResult(): Json
  {
    JObj([("protocolVersion", JStr(ProtocolVersion)),
          ("capabilities", JObj([("tools", JObj([("listChanged", JBool(true))])),
                                 ("resources", JObj([("subscribe", JBool(true)), ("listChanged", JBool(true))])),
                                 ("prompts", JObj([("listChanged", JBool(true))]))])),
          ("serverInfo", JObj([("name", JStr("netbeans-mcp-server")), ("version", JStr("1.0.0"))]))])
  }

  /**
   * The version initialize announces is the one the handler's diagnostics
   * report, whatever runtime figures come before it.
   */
  lemma AnnouncedVersionIsReported(ide: Ide)
    requires forall i :: 0 <= i < |ide.runtimeBefore| ==> ide.runtimeBefore[i].0 != "mcp_protocol_version"
    ensures Get(InitializeResult(), "protocolVersion") == Get(InlineDiagnostics(ide), "mcp_protocol_version")
  {
    InlineDiagnosticsVersion(ide);
  }

  /** handlePromptsList: the single code_review prompt. */
  function PromptsListResult(): Json
  {
    JObj([("prompts", JArr([JObj([("name", JStr("code_review")), ("description", JStr("Review code in NetBeans project"))])]))])
  }

  function ResourceJson(dir: string, displayName: string): Json
  {
    JObj([("uri", JStr("project://" + dir)), ("name", JStr(displayName)),
          ("description", JStr("NetBeans project: " + displayName)), ("mimeType", JStr("application/json"))])
  }

  /** handleResourcesList's loop: one project:// resource per open project; a project without a directory throws. */
  function Resources(projects: seq<Project>, npe: ExceptionMessage): (r: Result<seq<Json>, ExceptionMessage>)
    ensures r.Success? <==> forall i :: 0 <= i < |projects| ==> projects[i].dir.Some?
    ensures r.Success? ==> |r.value| == |projects|
    ensures r.Success? ==> forall i :: 0 <= i < |projects| ==>
      r.value[i] == ResourceJson(projects[i].dir.value, projects[i].displayName)
  {
    if |projects| == 0 then Success([])
    else if projects[0].dir.None? then Failure(npe)
    else
      match Resources(projects[1..], npe)
      case Failure(m) => Failure(m)
      case Success(rest) => Success([ResourceJson(projects[0].dir.value, projects[0].displayName)] + rest)
  }

  // ---------------------------------------------------------------------
  // collectProjectFiles

  /** The path of a child relative to the project: its name, below the parent's path when there is one. */
  function ChildPath(relativePath: string, name: string): string
  {
    if relativePath == "" then name else relativePath + "/" + name
  }

  function FileInfoJson(name: string, path: string, isFolder: bool): Json
  {
    JObj([("name", JStr(name)), ("path", JStr(path)), ("isFolder", JBool(isFolder))])
  }

  /** The entries collectProjectFiles appends for `children`, in order (pre-order over the tree). */
  function ProjectFiles(children: seq<TreeEntry>, relativePath: string): seq<Json>
    decreases children
  {
    if |children| == 0 then []
    else ProjectFiles(children[..|children| - 1], relativePath) + EntryFiles(children[|children| - 1], relativePath)
  }

  /** One child's entry, followed by its folder's entries. */
  function EntryFiles(child: TreeEntry, relativePath: string): seq<Json>
    decreases child
  {
    var path := ChildPath(relativePath, child.name);
    [FileInfoJson(child.name, path, child.isFolder)] +
    (if child.isFolder then ProjectFiles(child.children, path) else [])
  }

  /** The number of entries below a folder: every child, and the entries of each child folder. */
  function TreeSize(children: seq<TreeEntry>): nat
    decreases children
  {
    if |children| == 0 then 0 else EntrySize(children[0]) + TreeSize(children[1..])
  }

  function EntrySize(child: TreeEntry): nat
    decreases child
  {
    1 + (if child.isFolder then TreeSize(child.children) else 0)
  }

  lemma {:induction false} TreeSizeSnoc(children: seq<TreeEntry>)
    requires |children| > 0
    ensures TreeSize(children) == TreeSize(children[..|children| - 1]) + EntrySize(children[|children| - 1])
    decreases |children|
  {
    if |children| > 1 {
      var front := children[..|children| - 1];
      assert children[1..][..|children[1..]| - 1] == front[1..];
      TreeSizeSnoc(children[1..]);
      assert front[0] == children[0];
    }
  }

  /** Every child of every visited folder is listed exactly once. */
  lemma {:induction false} ProjectFilesCount(children: seq<TreeEntry>, relativePath: string)
    ensures |ProjectFiles(children, relativePath)| == TreeSize(children)
    decreases children
  {
    if |children| > 0 {
      var last := children[|children| - 1];
      ProjectFilesCount(children[..|children| - 1], relativePath);
      EntryFilesCount(last, relativePath);
      TreeSizeSnoc(children);
    }
  }

  lemma {:induction false} EntryFilesCount(child: TreeEntry, relativePath: string)
    ensures |EntryFiles(child, relativePath)| == EntrySize(child)
    decreases child
  {
    if child.isFolder {
      ProjectFilesCount(child.children, ChildPath(relativePath, child.name));
    }
  }

  /** The relative path an entry carries. */
  predicate PathStartsWith(entry: Json, prefix: string)
  {
    var p := Get(entry, "path");
    p.Some? && p.value.JStr? && StartsWith(p.value.s, prefix)
  }

  lemma FileInfoPath(name: string, path: string, isFolder: bool)
    ensures Get(FileInfoJson(name, path, isFolder), "path") == Some(JStr(path))
  {
    LookupAt(FileInfoJson(name, path, isFolder).fields, "path", 1);
  }

  lemma StartsWithTrans(s: string, p: string, q: string)
    requires StartsWith(s, p) && StartsWith(p, q)
    ensures StartsWith(s, q)
  {
    assert s[..|q|] == s[..|p|][..|q|];
  }

  /** Below a folder with a relative path, every entry's path extends that path by "/". */
  lemma {:induction false} ProjectFilesUnder(children: seq<TreeEntry>, relativePath: string)
    requires relativePath != ""
    ensures forall j :: j in ProjectFiles(children, relativePath) ==> PathStartsWith(j, relativePath + "/")
    decreases children
  {
    if |children| > 0 {
      ProjectFilesUnder(children[..|children| - 1], relativePath);
      EntryFilesUnder(children[|children| - 1], relativePath);
    }
  }

  lemma {:induction false} EntryFilesUnder(child: TreeEntry, relativePath: string)
    requires relativePath != ""
    ensures forall j :: j in EntryFiles(child, relativePath) ==> PathStartsWith(j, relativePath + "/")
    decreases child
  {
    var path := ChildPath(relativePath, child.name);
    var prefix := relativePath + "/";
    assert path == prefix + child.name;
    assert StartsWith(path, prefix) by {
      assert path[..|prefix|] == prefix;
    }
    FileInfoPath(child.name, path, child.isFolder);
    if child.isFolder {
      ProjectFilesUnder(child.children, path);
      forall j | j in ProjectFiles(child.children, path)
        ensures PathStartsWith(j, prefix)
      {
        var p := Get(j, "path").value.s;
        assert StartsWith(p, path + "/");
        assert StartsWith(path + "/", path) by {
          assert (path + "/")[..|path|] == path;
        }
        StartsWithTrans(p, path + "/", path);
        StartsWithTrans(p, path, prefix);
      }
    }
  }

  /** An ArrayNode being filled in place. */
  class FileList {
    var items: seq<Json>

    constructor ()
      ensures items == []
    {
      items := [];
    }
  }

  /**
   * collectProjectFiles: appends an entry per child of the folder and,
   * for each child folder, its own entries straight after it.
   */
  method CollectProjectFiles(children: seq<TreeEntry>, files: FileList, relativePath: string)
    modifies files
    ensures files.items == old(files.items) + ProjectFiles(children, relativePath)
    decreases children
  {
    for i := 0 to |children|
      invariant files.items == old(files.items) + ProjectFiles(children[..i], relativePath)
    {
      var child := children[i];
      var childPath := if relativePath == "" then child.name else relativePath + "/" + child.name;
      files.items := files.items + [FileInfoJson(child.name, childPath, child.isFolder)];
      if child.isFolder {
        CollectProjectFiles(child.children, files, childPath);
      }
      assert children[..i + 1][..i] == children[..i];
    }
    assert children[..|children|] == children;
  }

  /** getProjectInfo: path, folder name and files of a project directory, or "Project not found". */
  method ProjectInfo(projectPath: string, ide: Ide) returns (r: Result<Json, ExceptionMessage>)
    ensures !FileAt(ide, projectPath).managed ==> r == Failure(Some("Project not found: " + projectPath))
    ensures FileAt(ide, projectPath).managed ==> r == Success(ProjectInfoJson(projectPath, ide))
  {
    var dir := FileAt(ide, projectPath);
    if !dir.managed {
      return Failure(Some("Project not found: " + projectPath));
    }
    var files := new FileList();
    CollectProjectFiles(dir.children, files, "");
    assert files.items == ProjectFiles(dir.children, "");
    return Success(JObj([("path", JStr(projectPath)), ("name", JStr(dir.name)), ("files", JArr(files.items))]));
  }

  /** The object getProjectInfo builds for a managed directory. */
  function ProjectInfoJson(projectPath: string, ide: Ide): Json
  {
    var dir := FileAt(ide, projectPath);
    JObj([("path", JStr(projectPath)), ("name", JStr(dir.name)), ("files", JArr(ProjectFiles(dir.children, "")))])
  }

  /** A project's file list counts every file and folder below it. */
  lemma ProjectInfoListsWholeTree(projectPath: string, ide: Ide)
    ensures |ProjectInfoJson(projectPath, ide).fields[2].1.items| == TreeSize(FileAt(ide, projectPath).children)
  {
    ProjectFilesCount(FileAt(ide, projectPath).children, "");
  }

  /**
   * handleResourcesRead: the uri is required; a project:// uri names a
   * project directory, anything else is an unknown resource.
   */
  function ResourcesRead(params: Option<Json>, ide: Ide): (r: Result<Json, ExceptionMessage>)
    ensures (params.None? || !Has(params.value, "uri")) ==> r == Failure(ide.npeText)
    ensures params.Some? && Has(params.value, "uri") && !StartsWith(AsText(Get(params.value, "uri").value), "project://") ==>
      r == Failure(Some("Unknown resource URI: " + AsText(Get(params.value, "uri").value)))
  {
    if params.None? || !Has(params.value, "uri") then Failure(ide.npeText)
    else
      var uri := AsText(Get(params.value, "uri").value);
      if StartsWith(uri, "project://") then
        var projectPath := uri[|"project://"|..];
        if !FileAt(ide, projectPath).managed then Failure(Some("Project not found: " + projectPath))
        else Success(ProjectInfoJson(projectPath, ide))
      else Failure(Some("Unknown resource URI: " + uri))
  }

  // ---------------------------------------------------------------------
  // handleMessage

  /**
   * What handleMessage produces: the response tree, the tabs still open,
   * the other effects on the IDE, and whether notifications/initialized is
   * due.
   */
  datatype Handled = Handled(response: Json, tabs: seq<Tab>, effects: seq<Effect>, initialized: bool)

  /** The request id: `asInt()` of the id member when there is one. */
  function RequestId(msg: Json): (id: Option<int>)
    ensures id.Some? <==> Has(msg, "id")
    ensures id.Some? ==> -0x8000_0000 <= id.value < 0x8000_0000
  {
    if Has(msg, "id") then Some(AsInt(Get(msg, "id").value)) else None
  }

  /** The response object with its result: jsonrpc, the id when there is one, result. */
  function ResultResponse(id: Option<int>, result: Json): Json
  {
    JObj([("jsonrpc", JStr("2.0"))] + IdField(id) + [("result", result)])
  }

  /** The catch block of handleMessage: -32603 with the exception's message and no id. */
  function InternalError(m: ExceptionMessage, ide: Ide): Handled
  {
    Handled(CreateErrorResponse(None, -32603, "Internal error", m, false), ide.tabs, [], false)
  }

  /** What a known method answers with: its result, the tabs still open, the other effects. */
  datatype Answer = Answer(result: Json, tabs: seq<Tab>, effects: seq<Effect>)

  /** handleToolsCall: the tool name is required; everything the tool does is in its result. */
  function ToolsCall(params: Option<Json>, ide: Ide, ser: Serializer): (r: Result<Answer, ExceptionMessage>)
    ensures r.Failure? <==> params.None? || !Has(params.value, "name")
    ensures r.Failure? ==> r.error == ide.npeText
  {
    if params.None? || !Has(params.value, "name") then Failure(ide.npeText)
    else
      var run := CallTool(AsText(Get(params.value, "name").value), Get(params.value, "arguments"), ide);
      Success(Answer(ToolResult(run, ser), run.tabs, run.effects))
  }

  /** The methods handleMessage's switch recognises. */
  datatype Method = Initialize | ToolsList | ToolsCallMethod | ResourcesList | ResourcesReadMethod | PromptsList

  /** The switch's labels. */
  function MethodOf(methodName: string): (m: Option<Method>)
    ensures m.Some? <==> methodName in KnownMethods
    ensures m == Some(Initialize) <==> methodName == "initialize"
    ensures m == Some(ToolsCallMethod) <==> methodName == "tools/call"
    ensures m == Some(ResourcesReadMethod) <==> methodName == "resources/read"
  {
    match methodName
    case "initialize" => Some(Initialize)
    case "tools/list" => Some(ToolsList)
    case "tools/call" => Some(ToolsCallMethod)
    case "resources/list" => Some(ResourcesList)
    case "resources/read" => Some(ResourcesReadMethod)
    case "prompts/list" => Some(PromptsList)
    case _ => None
  }

  /** The result of a known method, or the message of what it threw. */
  function MethodResult(m: Method, params: Option<Json>, ide: Ide, ser: Serializer): (r: Result<Answer, ExceptionMessage>)
    ensures r.Success? && m != ToolsCallMethod ==> r.value.tabs == ide.tabs && r.value.effects == []
  {
    match m
    case ToolsCallMethod => ToolsCall(params, ide, ser)
    case ResourcesList =>
      (match Resources(ide.projects, ide.npeText)
       case Failure(e) => Failure(e)
       case Success(rs) => Success(Answer(JObj([("resources", JArr(rs))]), ide.tabs, [])))
    case ResourcesReadMethod =>
      (match ResourcesRead(params, ide)
       case Failure(e) => Failure(e)
       case Success(info) => Success(Answer(info, ide.tabs, [])))
    case Initialize => Success(Answer(InitializeResult(), ide.tabs, []))
    case ToolsList => Success(Answer(ToolsListResult(), ide.tabs, []))
    case PromptsList => Success(Answer(PromptsListResult(), ide.tabs, []))
  }

  /**
   * handleMessage: the method is required (a missing one throws); a known
   * method answers with its result under the request id, an unknown one
   * with "Method not found", and anything thrown with "Internal error".
   */
  function HandleMessage(msg: Json, ide: Ide, ser: Serializer): (r: Handled)
    ensures r.initialized <==> Get(msg, "method").Some? && AsText(Get(msg, "method").value) == "initialize"
    ensures r.tabs != ide.tabs || r.effects != [] ==>
      Get(msg, "method").Some? && AsText(Get(msg, "method").value) == "tools/call"
  {
    match Get(msg, "method")
    case None => InternalError(ide.npeText, ide)
    case Some(m) =>
      var methodName := AsText(m);
      var id := RequestId(msg);
      match MethodOf(methodName)
      case None => Handled(CreateErrorResponse(id, -32601, "Method not found", Some(methodName), false), ide.tabs, [], false)
      case Some(known) =>
        match MethodResult(known, Get(msg, "params"), ide, ser)
        case Failure(e) => InternalError(e, ide)
        case Success(run) => Handled(ResultResponse(id, run.result), run.tabs, run.effects, known == Initialize)
  }

  /** Whether a response is a success, and under which id. */
  function ResultOf(r: Json): Option<(Option<int>, Json)>
  {
    var result := Get(r, "result");
    if Get(r, "jsonrpc") != Some(JStr("2.0")) || result.None? then None
    else
      var id := Get(r, "id");
      Some((if id.Some? && id.value.JInt? then Some(id.value.n) else None, result.value))
  }

  lemma ResultOfResultResponse(id: Option<int>, result: Json)
    ensures ResultOf(ResultResponse(id, result)) == Some((id, result))
    ensures ErrorOf(ResultResponse(id, result)).None?
  {
    var fields := [("jsonrpc", JStr("2.0"))] + IdField(id) + [("result", result)];
    LookupAt(fields, "result", |fields| - 1);
    LookupMissing(fields, "error");
    if id.Some? {
      LookupAt(fields, "id", 1);
    } else {
      LookupMissing(fields, "id");
    }
  }

  lemma ErrorIsNoResult(id: Option<int>, code: int, message: string, data: Option<string>)
    ensures ResultOf(CreateErrorResponse(id, code, message, data, false)).None?
  {
    var inner := [("code", JInt(code)), ("message", JStr(message))] + DataField(data);
    var fields := [("jsonrpc", JStr("2.0"))] + IdField(id) + [("error", JObj(inner))];
    LookupMissing(fields, "result");
  }

  /**
   * Every response is either a result under the request's id, for a known
   * method, or an error: -32601 naming an unknown method under the id, or
   * -32603 without an id for anything thrown.
   */
  lemma ResponseShape(msg: Json, ide: Ide, ser: Serializer)
    ensures var r := HandleMessage(msg, ide, ser).response;
      (ResultOf(r).Some? <==> ErrorOf(r).None?) &&
      (ResultOf(r).Some? ==> ResultOf(r).value.0 == RequestId(msg) &&
                              AsText(Get(msg, "method").value) in KnownMethods) &&
      (ErrorOf(r).Some? ==>
         ErrorOf(r).value.code in {-32601, -32603} &&
         (ErrorOf(r).value.code == -32601 <==>
            Get(msg, "method").Some? && AsText(Get(msg, "method").value) !in KnownMethods) &&
         (ErrorOf(r).value.code == -32603 ==> ErrorOf(r).value.id.None? && ErrorOf(r).value.message == "Internal error"))
  {
    var r := HandleMessage(msg, ide, ser);
    match Get(msg, "method")
    case None => ErrorIsNoResult(None, -32603, "Internal error", ide.npeText);
    case Some(m) =>
      var methodName := AsText(m);
      var id := RequestId(msg);
      match MethodOf(methodName)
      case None => ErrorIsNoResult(id, -32601, "Method not found", Some(methodName));
      case Some(known) =>
        match MethodResult(known, Get(msg, "params"), ide, ser)
        case Failure(e) => ErrorIsNoResult(None, -32603, "Internal error", e);
        case Success(run) => ResultOfResultResponse(id, run.result);
  }

  /** Every response carries jsonrpc "2.0". */
  lemma AlwaysJsonRpc2(msg: Json, ide: Ide, ser: Serializer)
    ensures Get(HandleMessage(msg, ide, ser).response, "jsonrpc") == Some(JStr("2.0"))
  {
    ResponseShape(msg, ide, ser);
  }

  /** An unknown method is error -32601 "Method not found" with the method name as data, under the request's id. */
  lemma UnknownMethodNotFound(msg: Json, ide: Ide, ser: Serializer)
    requires Get(msg, "method").Some?
    requires AsText(Get(msg, "method").value) !in KnownMethods
    ensures var name := AsText(Get(msg, "method").value);
      ErrorOf(HandleMessage(msg, ide, ser).response) ==
        Some(ErrorFields(RequestId(msg), -32601, "Method not found", if name == "" then None else Some(name)))
  {
  }

  /** A request without a method is the internal error, without an id. */
  lemma MissingMethodIsInternalError(msg: Json, ide: Ide, ser: Serializer)
    requires !Has(msg, "method")
    ensures ErrorOf(HandleMessage(msg, ide, ser).response) ==
      Some(ErrorFields(None, -32603, "Internal error", KeptData(ide.npeText)))
  {
  }

  /** A tools/call with a name always answers with a result, whatever the tool does. */
  lemma ToolCallsAnswerWithResults(msg: Json, ide: Ide, ser: Serializer)
    requires Get(msg, "method") == Some(JStr("tools/call"))
    requires Get(msg, "params").Some? && Has(Get(msg, "params").value, "name")
    ensures var r := HandleMessage(msg, ide, ser).response;
      ResultOf(r).Some? && ResultOf(r).value.0 == RequestId(msg)
  {
    assert AsText(JStr("tools/call")) == "tools/call";
    assert MethodOf("tools/call") == Some(ToolsCallMethod);
    var answer := ToolsCall(Get(msg, "params"), ide, ser);
    ResultOfResultResponse(RequestId(msg), answer.value.result);
  }

  /** A tools/call without a name is the internal error. */
  lemma ToolCallWithoutNameIsInternalError(msg: Json, ide: Ide, ser: Serializer)
    requires Get(msg, "method") == Some(JStr("tools/call"))
    requires Get(msg, "params").None? || !Has(Get(msg, "params").value, "name")
    ensures ErrorOf(HandleMessage(msg, ide, ser).response) ==
      Some(ErrorFields(None, -32603, "Internal error", KeptData(ide.npeText)))
  {
  }

  /** A resources/read uri other than project:// is the internal error naming the uri. */
  lemma UnknownResourceIsInternalError(msg: Json, ide: Ide, ser: Serializer, uri: string)
    requires Get(msg, "method") == Some(JStr("resources/read"))
    requires Get(msg, "params").Some? && Get(Get(msg, "params").value, "uri") == Some(JStr(uri))
    requires !StartsWith(uri, "project://")
    ensures ErrorOf(HandleMessage(msg, ide, ser).response) ==
      Some(ErrorFields(None, -32603, "Internal error", Some("Unknown resource URI: " + uri)))
  {
    assert MethodOf(AsText(JStr("resources/read"))) == Some(ResourcesReadMethod);
    assert MethodResult(ResourcesReadMethod, Get(msg, "params"), ide, ser) == Failure(Some("Unknown resource URI: " + uri));
  }

  /** With an id, a result response is exactly what createResponse builds. */
  lemma ResultResponseIsCreateResponse(id: int, result: Json)
    ensures ResultResponse(Some(id), result) == CreateResponse(id, result)
  {
  }
}
