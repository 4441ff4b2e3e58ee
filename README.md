# Claude Code bridge for NetBeans — a Dafny model of its protocol core

The NetBeans plugin `claude-code-netbeans` serves the Model Context Protocol
(revision 2024-11-05) over JSON-RPC 2.0 on a local WebSocket, so that a
Claude Code terminal session can read, open, save and diff the files of
the projects open in the IDE. This project models the plugin's decision
logic and proves what it promises:

- the JSON-RPC dispatcher of `NetBeansMCPHandler`. It routes by method,
  echoes the id and maps an unknown method to -32601 and any failure to
  -32603. It has a tools/call switch whose failures stay tool results
  ("Error: ..."), the tool list built by `createTool`, resources and
  project trees. The handler's own older copies of the tools are kept
  beside the `tools/` classes, because they answer differently;
- the envelopes built by `MCPResponseBuilder`;
- the workspace path guard `isPathWithinOpenProjects`. `NbUtils` and the
  handler hold identical copies, and one function models both;
- selection tracking. The handler keeps a current text component, its
  caret listener, an activation listener and the session. It sends
  `selection_changed` notifications with 0-based lines, while the
  getCurrentSelection tool reports 1-based lines;
- the tools `openFile`, `saveDocument`, `checkDocumentDirty`, `close_tab`,
  `closeAllDiffTabs`, `getDiagnostics`, `openDiff` and
  `getCurrentSelection`, and the pending-diff registry `DiffTabTracker`;
- the transport around them:
  - the WebSocket endpoint's frame order;
  - the server's lowest-free-port search in 8990..9100;
  - its choice of subprotocol ("mcp" or "mcp-v1");
  - its start/stop state;
  - the lock file under `~/.claude/ide/<port>.lock` with its
    created/path state machine.

JSON is the datatype `Json.Json`. An object is an ordered list of fields,
and `Put` replaces a key in place, as Jackson's object node does. The IDE
is a value `Ide.Ide`, which holds:

- the open projects;
- a canonical-path map (a missing entry is an `IOException`);
- one `FileEntry` per path;
- the open tabs and the activated tab;
- the active editor;
- the diff service;
- the text of a `NullPointerException` message.

Some answers depend on code this model cannot see: serialisation, the
diff service, which ports bind, whether Jetty starts and whether a write
fails. These answers are parameters. Operations that change things in
place are methods on classes:
- the window registry (`Ide.Registry`);
- the diff tracker;
- the handler's listener state;
- the WebSocket session;
- the server;
- the lock-file manager and the disk it writes.

The handler object holds its dispatcher as the field `dispatch`. The
constructor sets it to the pure function `NetBeansMCPHandler.HandleMessage`.
The session and endpoint methods state their results through that field.
The lemmas that need the dispatcher's own behaviour take a handler the
constructor built, i.e. one whose `dispatch` is that function.

The modules follow the source files:

| Dafny file | models |
|---|---|
| `response_builder.dfy` | `MCPResponseBuilder.java` |
| `nb_utils.dfy` | `NbUtils.java` and the handler's own path guard and selection query |
| `handler.dfy` | `handleMessage`, `handleInitialize`, resources, `collectProjectFiles`, `getProjectInfo` |
| `handler_tools.dfy` | `createTool`, `handleToolsList`, `handleToolsCall` and the handler's inline tools |
| `handler_session.dfy` | the session, `sendInitializedNotification`, and selection tracking in `NetBeansMCPHandler.java` |
| `transport.dfy` | `MCPWebSocketHandler.java` |
| `web_socket_server.dfy` | `WebSocketMCPServer.java` |
| `lock_file_manager.dfy` | `LockFileManager.java` |
| `open_file.dfy`, `save_document.dfy`, `check_document_dirty.dfy`, `close_tab.dfy`, `close_all_diff_tabs.dfy`, `get_diagnostics.dfy`, `open_diff.dfy`, `get_current_selection.dfy`, `diff_tab_tracker.dfy` | the classes of the same names in `tools/` |
| `ide.dfy`, `json.dfy`, `text.dfy`, `wrappers.dfy` | the IDE state, JSON values, string helpers (`toLowerCase`, `lastIndexOf`, `Long.parseLong`), `Option`/`Result` |

## Model

| member | source | states |
|---|---|---|
| MCPResponseBuilder.TextItem | src/main/java/org/openbeans/claude/netbeans/MCPResponseBuilder.java:31-34 | a content item has type "text" and carries the given text |
| MCPResponseBuilder.TextItems | src/main/java/org/openbeans/claude/netbeans/MCPResponseBuilder.java:66-71 | one text item per given text, in the same order |
| MCPResponseBuilder.CreateToolResponse | src/main/java/org/openbeans/claude/netbeans/MCPResponseBuilder.java:27-38 | the content array holds exactly one text item, the given text |
| MCPResponseBuilder.CreateToolResponseOf | src/main/java/org/openbeans/claude/netbeans/MCPResponseBuilder.java:47-54 | one text item: the serialised data, or "Error serializing response: " + the message when serialisation fails |
| MCPResponseBuilder.CreateMultiPartToolResponse | src/main/java/org/openbeans/claude/netbeans/MCPResponseBuilder.java:62-75 | the texts of the content items are exactly the arguments, in argument order (none for none) |
| MCPResponseBuilder.MultiPartOfOne | src/main/java/org/openbeans/claude/netbeans/MCPResponseBuilder.java:62-75 | a multi-part response of one text is the single-text tool response |
| MCPResponseBuilder.ItemTextsOfTextItems | src/main/java/org/openbeans/claude/netbeans/MCPResponseBuilder.java:66-71 | reading the texts back from the built items gives the original list |
| MCPResponseBuilder.CreateErrorResponse | src/main/java/org/openbeans/claude/netbeans/MCPResponseBuilder.java:86-108 | id present only when given; code and message as given; data only when non-null and non-empty. When building fails, the fixed -32603 "Internal error" envelope with no id |
| MCPResponseBuilder.ErrorOfErrorResponse | src/main/java/org/openbeans/claude/netbeans/MCPResponseBuilder.java:88-102 | reading the error envelope back yields the id, code, message and kept data it was built from |
| MCPResponseBuilder.FallbackIsInternalError | src/main/java/org/openbeans/claude/netbeans/MCPResponseBuilder.java:105-108 | the fallback string is the -32603 "Internal error" envelope with neither id nor data |
| MCPResponseBuilder.CreateNotification | src/main/java/org/openbeans/claude/netbeans/MCPResponseBuilder.java:118-126 | jsonrpc "2.0", the method, params exactly when given, and never an id |
| MCPResponseBuilder.CreateResponse | src/main/java/org/openbeans/claude/netbeans/MCPResponseBuilder.java:135-141 | jsonrpc "2.0", the id, the result and no error member |
| NbUtils.NewSelectionData | src/main/java/org/openbeans/claude/netbeans/NbUtils.java:36-46 | text is "" for a null selection; isEmpty holds iff the text is empty; path and positions are kept |
| NbUtils.SelectionReportedForStyledPane | src/main/java/org/openbeans/claude/netbeans/NbUtils.java:55-106 | selection data exists iff an activated tab has a first node with a first opened pane on a styled document. Its lines are the document lines + 1 and its columns are unchanged. isEmpty holds iff the selected text is null or empty |
| NbUtils.AdmittedHasRoot | src/main/java/org/openbeans/claude/netbeans/NbUtils.java:121-139 | an admitted target lies in some project root, and every project directory before that root canonicalised |
| NbUtils.RootAdmits | src/main/java/org/openbeans/claude/netbeans/NbUtils.java:121-139 | conversely, a root containing the target admits it when every directory before it canonicalised |
| NbUtils.WithinAnyIff | src/main/java/org/openbeans/claude/netbeans/NbUtils.java:121-139 | the project search admits a target iff some root equals it or is a prefix followed by '/', with no earlier canonicalisation failure |
| NbUtils.PathGuardIff | src/main/java/org/openbeans/claude/netbeans/NbUtils.java:115-145 | the guard holds iff the target canonicalises and lies in a root found that way (the handler's copy at NetBeansMCPHandler.java:1145-1175 is the same) |
| NbUtils.UnresolvableTargetRefused | src/main/java/org/openbeans/claude/netbeans/NbUtils.java:141-144 | a target whose canonicalisation fails is refused |
| NbUtils.NoProjectDirectoriesRefuses | src/main/java/org/openbeans/claude/netbeans/NbUtils.java:121-139 | with no project directories every target is refused |
| NbUtils.SiblingPrefixRefused | src/main/java/org/openbeans/claude/netbeans/NbUtils.java:130 | a sibling sharing a string prefix (/work/app-evil vs /work/app) is refused; the root itself and its children are admitted |
| GetCurrentSelection.SelectionJson | src/main/java/org/openbeans/claude/netbeans/tools/GetCurrentSelection.java:60 | the serialised selection carries its text |
| GetCurrentSelection.Run | src/main/java/org/openbeans/claude/netbeans/tools/GetCurrentSelection.java:33-45 | data is reported iff the query succeeded with a non-empty selection. Otherwise (no data, an empty selection or an exception) the reply is the text "" |
| GetCurrentSelection.BuildSelectionResponse | src/main/java/org/openbeans/claude/netbeans/tools/GetCurrentSelection.java:54-61 | an empty selection gives ""; any other gives the serialised selection |
| GetCurrentSelection.ReportedSelectionHasText | src/main/java/org/openbeans/claude/netbeans/tools/GetCurrentSelection.java:33-61 | a selection the tool reports has non-empty text, and that text appears in the reply |
| OpenFile.Run | src/main/java/org/openbeans/claude/netbeans/tools/OpenFile.java:38-71 | succeeds iff no guard fails. Success opens exactly that path, with "File opened successfully: " + path. A failure opens nothing and is wrapped as "Failed to open file: " + the message |
| OpenFile.OutsideWorkspaceRefused | src/main/java/org/openbeans/claude/netbeans/tools/OpenFile.java:44-46 | a path outside the workspace fails with "Failed to open file: File open denied: ..." and opens nothing, whatever `preview` is |
| OpenFile.OpensOnlyEditableWorkspaceFiles | src/main/java/org/openbeans/claude/netbeans/tools/OpenFile.java:44-66 | an editor is opened iff the path is in the workspace, exists, has a FileObject and has an EditorCookie |
| SaveDocument.Run | src/main/java/org/openbeans/claude/netbeans/tools/SaveDocument.java:38-71 | succeeds iff no guard fails. Success saves exactly that path, with saved=true and the path. A failure saves nothing and carries the first failing guard |
| SaveDocument.SecurityBeforeLookup | src/main/java/org/openbeans/claude/netbeans/tools/SaveDocument.java:42-44 | outside the workspace the result is the SecurityException, whatever the file system holds |
| SaveDocument.SavedOnlyWhenEditable | src/main/java/org/openbeans/claude/netbeans/tools/SaveDocument.java:42-66 | the document is saved iff it is in the workspace, has a FileObject and an EditorCookie, and the save does not throw |
| CheckDocumentDirty.Run | src/main/java/org/openbeans/claude/netbeans/tools/CheckDocumentDirty.java:39-86 | outside the workspace the reply is the text "Error checking document dirty state: File access denied: ..."; inside, it is a data reply, whose fields the next row states |
| CheckDocumentDirty.ReportsOnlyWhatTheDataSystemSays | src/main/java/org/openbeans/claude/netbeans/tools/CheckDocumentDirty.java:53-80 | filePath echoes the path. A file the data system manages reports isDirty equal to its modified flag and isOpen iff its EditorCookie has non-empty opened panes, with no note. Any other file reports isDirty=false, isOpen=false and the not-managed note |
| CloseTab.FindTopComponent | src/main/java/org/openbeans/claude/netbeans/tools/CloseTab.java:35-59 | the result is an open tab. It matches by display name, or by file name only when no tab matches by display name. None is found iff no tab matches either way |
| CloseTab.FoundIsFirstOfItsPass | src/main/java/org/openbeans/claude/netbeans/tools/CloseTab.java:37-56 | when a display name matches, the first such tab in registry order is chosen; otherwise the first tab whose file name matches |
| CloseTab.CloseTopComponent | src/main/java/org/openbeans/claude/netbeans/tools/CloseTab.java:61-70 | true whenever a tab is found and its close() does not throw, whatever close() answers. The found tab is removed unless the close is vetoed. Nothing found leaves every tab open and returns false. A failing close propagates and leaves every tab open |
| CloseTab.Run | src/main/java/org/openbeans/claude/netbeans/tools/CloseTab.java:73-96 | "TAB_CLOSED" when a tab was closed, when its close was vetoed and when none matched; a close failure is rethrown as "Failed to close tab: ..." |
| CloseAllDiffTabs.Survivors | src/main/java/org/openbeans/claude/netbeans/tools/CloseAllDiffTabs.java:28-64 | a tab stays open iff neither the name test nor the class test closes it |
| CloseAllDiffTabs.CloseIfDiff | src/main/java/org/openbeans/claude/netbeans/tools/CloseAllDiffTabs.java:36-61 | one tab adds 0, 1 or 2 to the count (one per close() by each test that does not throw, vetoed or not) and is removed iff one of them closed it without a veto |
| CloseAllDiffTabs.CloseAll | src/main/java/org/openbeans/claude/netbeans/tools/CloseAllDiffTabs.java:28-64 | the count is the sum over the open tabs, and the registry keeps exactly the survivors |
| CloseAllDiffTabs.Run | src/main/java/org/openbeans/claude/netbeans/tools/CloseAllDiffTabs.java:67-74 | the reply is "CLOSED_" + count + "_DIFF_TABS" and only the survivors stay open |
| CloseAllDiffTabs.ClosedCountAtMostTwicePerTab | src/main/java/org/openbeans/claude/netbeans/tools/CloseAllDiffTabs.java:28-63 | the count is at most twice the number of open tabs |
| CloseAllDiffTabs.CountZeroIffNoneCounted | src/main/java/org/openbeans/claude/netbeans/tools/CloseAllDiffTabs.java:38-60 | the count is zero iff no close() on any tab is counted |
| CloseAllDiffTabs.AllSurviveIffNoneClosed | src/main/java/org/openbeans/claude/netbeans/tools/CloseAllDiffTabs.java:38-60 | every tab stays open iff no tab is closed |
| CloseAllDiffTabs.CountZeroIffNothingClosed | src/main/java/org/openbeans/claude/netbeans/tools/CloseAllDiffTabs.java:28-74 | "CLOSED_0_DIFF_TABS" means the open tabs are unchanged; when no close is vetoed, the converse holds too |
| CloseAllDiffTabs.DiffViewerCountedTwice | src/main/java/org/openbeans/claude/netbeans/tools/CloseAllDiffTabs.java:38-60 | a tab named "A vs B" of class DiffView is counted twice |
| CloseAllDiffTabs.VetoedDiffViewerCountedButKept | src/main/java/org/openbeans/claude/netbeans/tools/CloseAllDiffTabs.java:38-60 | a diff viewer whose close() is vetoed is still counted twice and stays open |
| DiffTabTracker.Tracker.constructor | src/main/java/org/openbeans/claude/netbeans/tools/DiffTabTracker.java:14 | the pending-diff map starts empty |
| DiffTabTracker.Tracker.Register | src/main/java/org/openbeans/claude/netbeans/tools/DiffTabTracker.java:21-24 | the name is tracked with the new handler, replacing any earlier one; no other name changes |
| DiffTabTracker.Tracker.Remove | src/main/java/org/openbeans/claude/netbeans/tools/DiffTabTracker.java:31-37 | returns the handler registered under the name (none if absent) and untracks only that name |
| DiffTabTracker.RegisterTwiceRemoveTwice | src/main/java/org/openbeans/claude/netbeans/tools/DiffTabTracker.java:21-37 | after two registrations, the first remove returns the second handler and a second remove returns none |
| GetDiagnostics.Classify | src/main/java/org/openbeans/claude/netbeans/tools/GetDiagnostics.java:220-237 | severity by priority: the lowercased type contains "error", else "warn", else "hint", otherwise info (also for no type) |
| GetDiagnostics.WarningMentionsWarn | src/main/java/org/openbeans/claude/netbeans/tools/GetDiagnostics.java:230 | the "warning" test is subsumed by the "warn" test |
| GetDiagnostics.ClassifyIgnoresCase | src/main/java/org/openbeans/claude/netbeans/tools/GetDiagnostics.java:225-237 | lowercasing the annotation type does not change its severity |
| GetDiagnostics.ExtractCode | src/main/java/org/openbeans/claude/netbeans/tools/GetDiagnostics.java:239-247 | a code starts after the last '[' and ends at the last ']'; it has no '[' inside but may contain ']' |
| GetDiagnostics.ExtractCodeIff | src/main/java/org/openbeans/claude/netbeans/tools/GetDiagnostics.java:239-247 | a code is extracted iff some ']' is preceded by a '[' and followed by none |
| GetDiagnostics.ExtractCodeAbsent | src/main/java/org/openbeans/claude/netbeans/tools/GetDiagnostics.java:239-247 | no code means no ']' has a '[' before it and none after it |
| GetDiagnostics.Convert | src/main/java/org/openbeans/claude/netbeans/tools/GetDiagnostics.java:209-250 | a diagnostic exists iff the annotation and its message exist and the message is not blank. It carries the message, its severity, its code and the given place |
| GetDiagnostics.AddLine | src/main/java/org/openbeans/claude/netbeans/tools/GetDiagnostics.java:169-189 | one annotated line contributes the active annotation's diagnostic, then the passive ones in order, each only if read before the line throws |
| GetDiagnostics.ExtractDiagnosticsFromFile | src/main/java/org/openbeans/claude/netbeans/tools/GetDiagnostics.java:146-204 | the loop's list is the file's specified diagnostics: nothing without an editor document or annotations; the lines in order up to the first one that throws, and what that line gathered before the throw |
| GetDiagnostics.DiagnosticsForAllFiles | src/main/java/org/openbeans/claude/netbeans/tools/GetDiagnostics.java:113-141 | the concatenation of every open tab's file diagnostics, in tab order |
| GetDiagnostics.DiagnosticJson | src/main/java/org/openbeans/claude/netbeans/tools/GetDiagnostics.java:33-41 | the code field is present iff there is a code, and the severity is named |
| GetDiagnostics.DiagnosticsJson | src/main/java/org/openbeans/claude/netbeans/tools/GetDiagnostics.java:33-41 | one JSON object per diagnostic, in order |
| GetDiagnostics.PathOfUri | src/main/java/org/openbeans/claude/netbeans/tools/GetDiagnostics.java:94 | a "file://" prefix is stripped once; any other uri is the path |
| GetDiagnostics.Run | src/main/java/org/openbeans/claude/netbeans/tools/GetDiagnostics.java:71-108 | a uri outside the workspace gives "Failed to get diagnostics for file: File access denied: ..."; inside, that file's diagnostics; no uri gives every open file's |
| GetDiagnostics.PassivePlace | src/main/java/org/openbeans/claude/netbeans/tools/GetDiagnostics.java:180-189 | passive diagnostics sit on the given line at column 0 of the given file |
| GetDiagnostics.ReportedPlaces | src/main/java/org/openbeans/claude/netbeans/tools/GetDiagnostics.java:166-193 | every diagnostic of a file is at column 0, on an annotated line + 1 |
| GetDiagnostics.FailureKeepsEarlier | src/main/java/org/openbeans/claude/netbeans/tools/GetDiagnostics.java:166-203 | the first line that throws ends the report: the earlier lines' diagnostics, then what that line gathered before the throw |
| GetDiagnostics.ThrowKeepsLinePrefix | src/main/java/org/openbeans/claude/netbeans/tools/GetDiagnostics.java:170-187 | a line that throws keeps a prefix of the diagnostics it gives when nothing throws |
| GetDiagnostics.PassivePrefix | src/main/java/org/openbeans/claude/netbeans/tools/GetDiagnostics.java:180-187 | the passive diagnostics of the first n annotations begin those of all of them |
| GetDiagnostics.LinesAppend | src/main/java/org/openbeans/claude/netbeans/tools/GetDiagnostics.java:168-193 | lines that do not fail contribute independently, in order |
| GetDiagnostics.AllFilesAppend | src/main/java/org/openbeans/claude/netbeans/tools/GetDiagnostics.java:118-133 | the all-files list of two tab runs is the concatenation of theirs |
| GetDiagnostics.AllFilesSnoc | src/main/java/org/openbeans/claude/netbeans/tools/GetDiagnostics.java:118-133 | one more tab appends that tab's diagnostics |
| OpenDiff.FinalPaths | src/main/java/org/openbeans/claude/netbeans/tools/OpenDiff.java:63-75 | missing paths default to the active editor's path and supplied ones are kept. There is no pair iff a path is missing and no editor is active |
| OpenDiff.DiskContents | src/main/java/org/openbeans/claude/netbeans/tools/OpenDiff.java:95-104 | disk contents are read iff the file exists and reading succeeds |
| OpenDiff.MakePlan | src/main/java/org/openbeans/claude/netbeans/tools/OpenDiff.java:63-190 | a plan uses the final paths, both of which pass the guard. Its texts are the ones the old and new sides read successfully. The tab name is the one given, else the default name |
| OpenDiff.Run | src/main/java/org/openbeans/claude/netbeans/tools/OpenDiff.java:48-231 | always a tool result. A failed plan gives its message and nothing else. Otherwise the success JSON appears iff the service returns a view with a non-null component, and the diff is shown only for a TopComponent. No service gives "Diff service not available", no view "Failed to create diff view", an IOException "Error creating diff: " + message, any other exception or a null component "Error opening diff: " + message; none of these shows anything |
| OpenDiff.NoEditorNoDiff | src/main/java/org/openbeans/claude/netbeans/tools/OpenDiff.java:63-67 | a missing path with no active editor gives the "No active editor found" text and shows nothing |
| OpenDiff.OldPathGuardedFirst | src/main/java/org/openbeans/claude/netbeans/tools/OpenDiff.java:78-80 | an old path outside the workspace is reported as "Error opening diff: File access denied: old_file_path ..." before anything else |
| OpenDiff.OldTextSource | src/main/java/org/openbeans/claude/netbeans/tools/OpenDiff.java:89-104 | old text comes from the editor buffer only when old_file_path was omitted and a buffer exists, otherwise from an existing file on disk |
| OpenDiff.NewTextSource | src/main/java/org/openbeans/claude/netbeans/tools/OpenDiff.java:106-128 | new text: supplied contents, else the buffer when new_file_path was omitted, otherwise an existing file on disk |
| OpenDiff.MissingOldFileReported | src/main/java/org/openbeans/claude/netbeans/tools/OpenDiff.java:95-100 | a missing old file gives "Old file does not exist: <path>" and shows nothing |
| OpenDiff.DefaultTabNameLooksLikeDiff | src/main/java/org/openbeans/claude/netbeans/tools/OpenDiff.java:189-190 | the default tab name "Diff: a vs b" is one closeAllDiffTabs recognises |
| HandlerTools.TriplesLength | src/main/java/org/openbeans/claude/netbeans/NetBeansMCPHandler.java:1102-1105 | the loop reads whole (name, type, description) triples, possibly ending in a (name, type) pair, exactly when the varargs count is not 3k+1 |
| HandlerTools.NamesOf | src/main/java/org/openbeans/claude/netbeans/NetBeansMCPHandler.java:1102-1111 | one name per triple: a list of k triples (the last possibly a pair) has 3k-1 to 3k varargs |
| HandlerTools.NamesOfAt | src/main/java/org/openbeans/claude/netbeans/NetBeansMCPHandler.java:1102-1103 | the k-th required name is the vararg at 3k |
| HandlerTools.PutParamsKeys | src/main/java/org/openbeans/claude/netbeans/NetBeansMCPHandler.java:1102-1112 | the properties hold exactly the earlier keys and the parameter names |
| HandlerTools.PutParamsOrder | src/main/java/org/openbeans/claude/netbeans/NetBeansMCPHandler.java:1102-1112 | distinct new names are added in input order after the earlier keys |
| HandlerTools.PutParamsOther | src/main/java/org/openbeans/claude/netbeans/NetBeansMCPHandler.java:1102-1112 | keys that are not parameter names keep their values |
| HandlerTools.PutParamsValue | src/main/java/org/openbeans/claude/netbeans/NetBeansMCPHandler.java:1103-1110 | each parameter's entry has its type and its description, or "" when the description is missing |
| HandlerTools.TripleShift | src/main/java/org/openbeans/claude/netbeans/NetBeansMCPHandler.java:1102-1105 | after one pass of the loop, the k-th triple is the (k-1)-th triple of the remaining varargs |
| HandlerTools.ToolObjects | src/main/java/org/openbeans/claude/netbeans/NetBeansMCPHandler.java:210-258 | one createTool object per advertised tool, in list order |
| HandlerTools.AdvertisedToolsAreRouted | src/main/java/org/openbeans/claude/netbeans/NetBeansMCPHandler.java:210-353 | thirteen tools are advertised, and tools/call routes every one of them |
| HandlerTools.ReadFile | src/main/java/org/openbeans/claude/netbeans/NetBeansMCPHandler.java:415-424 | a path outside the workspace fails with the read denial. Inside it, a readable file answers with its contents and a read failure passes its IOException message through |
| HandlerTools.WriteFile | src/main/java/org/openbeans/claude/netbeans/NetBeansMCPHandler.java:427-437 | the file is written iff the path is in the workspace and the write does not fail; success reports "File written successfully: " + path |
| HandlerTools.ListFiles | src/main/java/org/openbeans/claude/netbeans/NetBeansMCPHandler.java:440-461 | succeeds iff the path is in the workspace. The items are the children's name/path/isDirectory/size objects in listing order, none for a non-directory |
| HandlerTools.WorkspaceFolders | src/main/java/org/openbeans/claude/netbeans/NetBeansMCPHandler.java:586-597 | the i-th folder is project i's display name with "file://" + its directory; a project without a directory makes the call fail with the NPE |
| HandlerTools.DisplayPass | src/main/java/org/openbeans/claude/netbeans/NetBeansMCPHandler.java:694-700 | a found tab is open and has that display name. The pass completes whenever every tab has a display name |
| HandlerTools.DisplayPassAgrees | src/main/java/org/openbeans/claude/netbeans/NetBeansMCPHandler.java:694-700 | with every display name present, the handler's first pass finds the same tab as CloseTab's first pass |
| HandlerTools.InlineCloseTab | src/main/java/org/openbeans/claude/netbeans/NetBeansMCPHandler.java:691-722 | a null display name met in the first pass fails with "Failed to close tab: " + the NPE text. The picked tab (first display-name match, else first file-name match) either fails with "Failed to close tab: " + its close message, or answers "Tab closed successfully: " + name and is removed unless it vetoes. No match answers "Tab not currently open: " + name with the tabs unchanged |
| HandlerTools.InlineCloseTabAgrees | src/main/java/org/openbeans/claude/netbeans/NetBeansMCPHandler.java:691-722 | with display names present, the handler closes the same tab as the CloseTab tool, and keeps it open on a veto as the tool does |
| HandlerTools.InlineSave | src/main/java/org/openbeans/claude/netbeans/NetBeansMCPHandler.java:833-877 | never a tool error. Each failure SaveDocument throws becomes a text reply without effects: outside the workspace "Error saving document: " + the denial + path; unmanaged "File not found: " + path; no DataObject or a failing save "Error saving document: " + the message; not editable the not-editable message |
| HandlerTools.InlineSaveAgrees | src/main/java/org/openbeans/claude/netbeans/NetBeansMCPHandler.java:833-877 | saves exactly when the SaveDocument tool would, and answers with its data exactly when that tool succeeds |
| HandlerTools.OpenEditorsCount | src/main/java/org/openbeans/claude/netbeans/NetBeansMCPHandler.java:753-763 | at most one per open tab; zero iff no tab shows a file |
| HandlerTools.InlineDiagnosticsVersion | src/main/java/org/openbeans/claude/netbeans/NetBeansMCPHandler.java:746 | the inline getDiagnostics reports protocol version "2024-11-05" |
| HandlerTools.InlineCloseAllDiffTabs | src/main/java/org/openbeans/claude/netbeans/NetBeansMCPHandler.java:882-928 | leaves the same tabs open as the CloseAllDiffTabs tool and answers with data |
| HandlerTools.Required | src/main/java/org/openbeans/claude/netbeans/NetBeansMCPHandler.java:284-287 | null arguments fail with the NPE; a missing key fails with "Missing required parameter: " + key; otherwise the value's text |
| HandlerTools.OpenFileCase | src/main/java/org/openbeans/claude/netbeans/NetBeansMCPHandler.java:269-271 | null arguments or a missing path throw before any file is opened; no tab is closed |
| HandlerTools.WorkspaceFoldersCase | src/main/java/org/openbeans/claude/netbeans/NetBeansMCPHandler.java:273-274 | no tab is closed and nothing is written |
| HandlerTools.ReadFileCase | src/main/java/org/openbeans/claude/netbeans/NetBeansMCPHandler.java:283-288 | a missing path answers "Missing required parameter: path" before anything is read; nothing is written and no tab closed |
| HandlerTools.WriteFileCase | src/main/java/org/openbeans/claude/netbeans/NetBeansMCPHandler.java:290-299 | a missing path is reported before the content is looked at; no tab is closed |
| HandlerTools.ListFilesCase | src/main/java/org/openbeans/claude/netbeans/NetBeansMCPHandler.java:301-306 | a missing path answers "Missing required parameter: path"; nothing is written and no tab closed |
| HandlerTools.CloseTabCase | src/main/java/org/openbeans/claude/netbeans/NetBeansMCPHandler.java:308-313 | a missing tab_name answers "Missing required parameter: tab_name" and leaves every tab open; nothing is written |
| HandlerTools.CheckDocumentDirtyCase | src/main/java/org/openbeans/claude/netbeans/NetBeansMCPHandler.java:318-323 | a missing filePath answers "Missing required parameter: filePath"; nothing is written and no tab closed |
| HandlerTools.SaveDocumentCase | src/main/java/org/openbeans/claude/netbeans/NetBeansMCPHandler.java:325-330 | a missing filePath answers "Missing required parameter: filePath"; no tab is closed |
| HandlerTools.OpenDiffCase | src/main/java/org/openbeans/claude/netbeans/NetBeansMCPHandler.java:335-350 | a missing old_file_path is reported first; no tab is closed |
| HandlerTools.CallTool | src/main/java/org/openbeans/claude/netbeans/NetBeansMCPHandler.java:262-354 | an unknown tool fails with "Unknown tool: " + name. Only close_tab and closeAllDiffTabs close tabs. Only openFile, write_file, saveDocument and openDiff touch files or editors |
| HandlerTools.ToolResult | src/main/java/org/openbeans/claude/netbeans/NetBeansMCPHandler.java:355-359 | a thrown tool failure becomes the single text "Error: " + message |
| HandlerTools.MissingArgumentIsToolError | src/main/java/org/openbeans/claude/netbeans/NetBeansMCPHandler.java:283-358 | a missing first required argument answers "Error: Missing required parameter: <key>" as a tool result |
| HandlerTools.UnknownToolIsToolError | src/main/java/org/openbeans/claude/netbeans/NetBeansMCPHandler.java:352-358 | an unknown tool answers "Error: Unknown tool: <name>" as a tool result |
| HandlerTools.InlineOpenDiffIsToolWithAllArguments | src/main/java/org/openbeans/claude/netbeans/NetBeansMCPHandler.java:335-350 | with all three arguments, tools/call openDiff answers exactly as the OpenDiff tool does |
| NetBeansMCPHandler.AnnouncedVersionIsReported | src/main/java/org/openbeans/claude/netbeans/NetBeansMCPHandler.java:160-188 | initialize announces the protocol version that the inline getDiagnostics reports |
| NetBeansMCPHandler.Resources | src/main/java/org/openbeans/claude/netbeans/NetBeansMCPHandler.java:365-381 | one project:// resource per open project, in order; a project without a directory makes the call fail |
| NetBeansMCPHandler.ProjectFilesCount | src/main/java/org/openbeans/claude/netbeans/NetBeansMCPHandler.java:1059-1073 | the listing has one entry per file and folder of the tree |
| NetBeansMCPHandler.EntryFilesCount | src/main/java/org/openbeans/claude/netbeans/NetBeansMCPHandler.java:1059-1073 | one child contributes one entry for itself plus one per descendant |
| NetBeansMCPHandler.ProjectFilesUnder | src/main/java/org/openbeans/claude/netbeans/NetBeansMCPHandler.java:1059-1073 | every listed path lies under the relative path it was collected from |
| NetBeansMCPHandler.EntryFilesUnder | src/main/java/org/openbeans/claude/netbeans/NetBeansMCPHandler.java:1059-1073 | every path listed for one child lies under the relative path |
| NetBeansMCPHandler.CollectProjectFiles | src/main/java/org/openbeans/claude/netbeans/NetBeansMCPHandler.java:1059-1073 | the shared array gains the tree's entries, depth-first in child order |
| NetBeansMCPHandler.ProjectInfo | src/main/java/org/openbeans/claude/netbeans/NetBeansMCPHandler.java:1075-1090 | an unknown project fails with "Project not found: " + path; otherwise the info object |
| NetBeansMCPHandler.ProjectInfoListsWholeTree | src/main/java/org/openbeans/claude/netbeans/NetBeansMCPHandler.java:1075-1090 | the info object lists every file and folder of the project |
| NetBeansMCPHandler.ResourcesRead | src/main/java/org/openbeans/claude/netbeans/NetBeansMCPHandler.java:386-395 | missing params or uri fail with the NPE; a uri not starting with "project://" fails with "Unknown resource URI: " + uri |
| NetBeansMCPHandler.RequestId | src/main/java/org/openbeans/claude/netbeans/NetBeansMCPHandler.java:105 | an id exists iff the request has one; it is a 32-bit integer |
| NetBeansMCPHandler.ToolsCall | src/main/java/org/openbeans/claude/netbeans/NetBeansMCPHandler.java:262-264 | tools/call fails (with the NPE) iff params or its name is missing |
| NetBeansMCPHandler.MethodOf | src/main/java/org/openbeans/claude/netbeans/NetBeansMCPHandler.java:115-146 | the six method names are routed and no other; each to its own handler |
| NetBeansMCPHandler.MethodResult | src/main/java/org/openbeans/claude/netbeans/NetBeansMCPHandler.java:115-142 | every method except tools/call leaves tabs and files untouched |
| NetBeansMCPHandler.HandleMessage | src/main/java/org/openbeans/claude/netbeans/NetBeansMCPHandler.java:101-155 | the initialized notification is due iff the method is "initialize"; only tools/call changes tabs or files |
| NetBeansMCPHandler.ResultOfResultResponse | src/main/java/org/openbeans/claude/netbeans/NetBeansMCPHandler.java:109-113 | a result envelope reads back its id and result and has no error |
| NetBeansMCPHandler.ErrorIsNoResult | src/main/java/org/openbeans/claude/netbeans/MCPResponseBuilder.java:86-104 | an error envelope has no result |
| NetBeansMCPHandler.ResponseShape | src/main/java/org/openbeans/claude/netbeans/NetBeansMCPHandler.java:101-155 | a response has a result iff it has no error. A result echoes the request id for a known method. An error is -32601 exactly for a named unknown method, otherwise -32603 "Internal error" without an id |
| NetBeansMCPHandler.AlwaysJsonRpc2 | src/main/java/org/openbeans/claude/netbeans/NetBeansMCPHandler.java:110 | every response carries jsonrpc "2.0" |
| NetBeansMCPHandler.UnknownMethodNotFound | src/main/java/org/openbeans/claude/netbeans/NetBeansMCPHandler.java:144-146 | an unknown method gives -32601 "Method not found" with the request id and the method name as data |
| NetBeansMCPHandler.MissingMethodIsInternalError | src/main/java/org/openbeans/claude/netbeans/NetBeansMCPHandler.java:151-154 | a request without a method gives -32603 "Internal error" without an id |
| NetBeansMCPHandler.ToolCallsAnswerWithResults | src/main/java/org/openbeans/claude/netbeans/NetBeansMCPHandler.java:128-130 | a named tools/call always answers with a result and the request id, whatever the tool does |
| NetBeansMCPHandler.ToolCallWithoutNameIsInternalError | src/main/java/org/openbeans/claude/netbeans/NetBeansMCPHandler.java:263 | a tools/call without a name gives -32603 without an id |
| NetBeansMCPHandler.UnknownResourceIsInternalError | src/main/java/org/openbeans/claude/netbeans/NetBeansMCPHandler.java:386-395 | a resources/read of a non-project uri gives -32603 with "Unknown resource URI: " + uri as data |
| NetBeansMCPHandler.ResultResponseIsCreateResponse | src/main/java/org/openbeans/claude/netbeans/NetBeansMCPHandler.java:109-113 | the handler's result envelope with an id is what createResponse builds |
| HandlerSession.EventLinesAreToolLinesMinusOne | src/main/java/org/openbeans/claude/netbeans/NetBeansMCPHandler.java:1300-1329 | selection_changed reports the getCurrentSelection lines minus one, with the same isEmpty |
| HandlerSession.Handler.SendSelectionChangeEvent | src/main/java/org/openbeans/claude/netbeans/NetBeansMCPHandler.java:1274-1344 | one selection_changed frame iff the session is open, the document is styled and the file is known; otherwise nothing is sent |
| HandlerSession.Handler.ForgetCurrent | src/main/java/org/openbeans/claude/netbeans/NetBeansMCPHandler.java:1241-1246 | the current component's caret listener is removed from it and from the map |
| HandlerSession.Handler.TrackEditorSelection | src/main/java/org/openbeans/claude/netbeans/NetBeansMCPHandler.java:1228-1269 | the same component changes nothing and sends nothing. A new one replaces the old listener with a fresh one and sends one event. A tab without a pane changes nothing. The whole new state (component, listener map, caret registrations, events sent) is `Track` of the old state |
| HandlerSession.TrackKeepsOneListener | src/main/java/org/openbeans/claude/netbeans/NetBeansMCPHandler.java:1228-1269 | tracking keeps at most one caret listener, on the current component and registered with the platform, and sends at most one event |
| HandlerSession.Handler.StartSelectionTracking | src/main/java/org/openbeans/claude/netbeans/NetBeansMCPHandler.java:1180-1203 | a new activation listener is registered and becomes the field. The activated tab's first pane becomes the current component; a new one gets a caret listener and one selection event, the same component changes nothing. A null pane leaves none current and removes the old caret listener; no tab or no pane changes nothing. With a tab the whole new state is `Track` of the old |
| HandlerSession.Handler.StopSelectionTracking | src/main/java/org/openbeans/claude/netbeans/NetBeansMCPHandler.java:1208-1223 | the activation listener is unregistered, every caret listener is removed, the map is empty and no component is current |
| HandlerSession.Handler.SetWebSocketSession | src/main/java/org/openbeans/claude/netbeans/NetBeansMCPHandler.java:1126-1136 | a session becomes the handler's and starts tracking: a new activation listener, and with a tab the `Track` state and its event on the session. Null stops tracking: the activation listener is unregistered and every caret listener removed |
| HandlerSession.Handler.ActivatedChanged | src/main/java/org/openbeans/claude/netbeans/NetBeansMCPHandler.java:1184-1190 | an activated tab is tracked: the new component, listener map, caret registrations and selection_changed event are `Track` of the old state, so a switch to a new editor sends one event. No activated tab changes nothing and sends nothing |
| HandlerSession.Handler.SendInitializedNotification | src/main/java/org/openbeans/claude/netbeans/NetBeansMCPHandler.java:192-205 | notifications/initialized is sent iff the session exists and is open |
| HandlerSession.Handler.constructor | src/main/java/org/openbeans/claude/netbeans/NetBeansMCPHandler.java:84-93 | a new handler has no session, tracks nothing and dispatches with `NetBeansMCPHandler.HandleMessage` |
| HandlerSession.Handler.HandleMessage | src/main/java/org/openbeans/claude/netbeans/NetBeansMCPHandler.java:101-155 | returns the dispatcher's response and applies its tab changes. For initialize, notifications/initialized is already on the open session |
| HandlerSession.Handler.HandleMessageDeferred | src/main/java/org/openbeans/claude/netbeans/NetBeansMCPHandler.java:115-122 | the same response, with the notification handed back instead of sent |
| HandlerSession.StartTwiceStopOnce | src/main/java/org/openbeans/claude/netbeans/NetBeansMCPHandler.java:1180-1223 | two connects then one close leave the first activation listener registered |
| MCPWebSocketHandler.Endpoint.OnWebSocketConnect | src/main/java/org/openbeans/claude/netbeans/MCPWebSocketHandler.java:29-36 | the endpoint and the handler share the new session. A new activation listener is appended to the registry; with a tab the tracking state is `Track` of the old and its event goes to the new session, without one nothing else changes |
| MCPWebSocketHandler.Endpoint.OnWebSocketClose | src/main/java/org/openbeans/claude/netbeans/MCPWebSocketHandler.java:71-78 | the endpoint's session is dropped. The handler forgets its session, whichever connection it is, and stops tracking: the activation listener is unregistered and every caret listener removed |
| MCPWebSocketHandler.Endpoint.OnWebSocketText | src/main/java/org/openbeans/claude/netbeans/MCPWebSocketHandler.java:39-68 | the response goes on the endpoint's own open session. For initialize the notification goes on the handler's session, the latest connection's: when that is the endpoint's own, its frames are the notification, then the response |
| MCPWebSocketHandler.EarlierClientInitializeNotifiesLater | src/main/java/org/openbeans/claude/netbeans/MCPWebSocketHandler.java:29-52 | with two open connections, the earlier one's initialize is answered on its own session while notifications/initialized goes to the later one |
| MCPWebSocketHandler.Endpoint.OnWebSocketTextResponseFirst | src/main/java/org/openbeans/claude/netbeans/NetBeansMCPHandler.java:117-121 | the order the code's comments describe: the response on the endpoint's own session, then the notification on the handler's; on a shared session the response comes first |
| MCPWebSocketHandler.InitializeNotificationPrecedesResponse | src/main/java/org/openbeans/claude/netbeans/MCPWebSocketHandler.java:47-52 | as written, an initialize puts notifications/initialized on the wire before its own response |
| MCPWebSocketHandler.InitializeResponsePrecedesNotification | src/main/java/org/openbeans/claude/netbeans/NetBeansMCPHandler.java:117-121 | corrected, the response precedes the notification |
| MCPWebSocketHandler.OrdersDifferOnlyForInitialize | src/main/java/org/openbeans/claude/netbeans/MCPWebSocketHandler.java:47-52 | both orders send the same frames, and differ only for initialize |
| WebSocketMCPServer.FindAvailablePort | src/main/java/org/openbeans/claude/netbeans/WebSocketMCPServer.java:128-137 | the lowest bindable port in 8990..9100, or -1 iff none is bindable |
| WebSocketMCPServer.AcceptedSubprotocol | src/main/java/org/openbeans/claude/netbeans/WebSocketMCPServer.java:65-74 | the first offered "mcp" or "mcp-v1"; none for a null list or no such entry |
| WebSocketMCPServer.Server.constructor | src/main/java/org/openbeans/claude/netbeans/WebSocketMCPServer.java:22-28 | a new server has no Jetty server and port 0, so it is not running |
| WebSocketMCPServer.Server.Start | src/main/java/org/openbeans/claude/netbeans/WebSocketMCPServer.java:35-89 | no free port: false and no server created. A Jetty failure: false, with the server created but not started. Otherwise true and running |
| WebSocketMCPServer.Server.Stop | src/main/java/org/openbeans/claude/netbeans/WebSocketMCPServer.java:94-103 | afterwards the server is not running; a stopped or missing server is left as it is |
| LockFileManager.GetLockFilePath | src/main/java/org/openbeans/claude/netbeans/LockFileManager.java:125-128 | the path is under home/.claude/ide/ and is named port.lock |
| LockFileManager.LockPortOfLockFilePath | src/main/java/org/openbeans/claude/netbeans/LockFileManager.java:125-128 | the port can be read back from the lock path |
| LockFileManager.WorkspaceFoldersContents | src/main/java/org/openbeans/claude/netbeans/LockFileManager.java:135-153 | never empty: the project directories when there are any, else [home] |
| LockFileManager.GetWorkspaceFolders | src/main/java/org/openbeans/claude/netbeans/LockFileManager.java:135-153 | the loop's list is the specified folder list |
| LockFileManager.GetCurrentProcessId | src/main/java/org/openbeans/claude/netbeans/LockFileManager.java:160-168 | the pid is always a Java long (-1 on any parse failure) |
| LockFileManager.ProcessIdOfRuntimeName | src/main/java/org/openbeans/claude/netbeans/LockFileManager.java:160-168 | a runtime name "pid@host" yields pid |
| LockFileManager.UpdatedLockData | src/main/java/org/openbeans/claude/netbeans/LockFileManager.java:90-95 | only workspaceFolders is replaced or added; every other key keeps its value and place |
| LockFileManager.Manager.CreateLockFile | src/main/java/org/openbeans/claude/netbeans/LockFileManager.java:46-76 | the path is always set. A successful write stores the lock data and sets the flag; a failed write keeps the flag and the disk |
| LockFileManager.Manager.UpdateLockFile | src/main/java/org/openbeans/claude/netbeans/LockFileManager.java:81-102 | nothing happens unless the lock was created and exists. Otherwise only workspaceFolders is replaced; an unreadable file changes nothing, and a non-object file escapes as an exception |
| LockFileManager.Manager.RemoveLockFile | src/main/java/org/openbeans/claude/netbeans/LockFileManager.java:107-117 | the file is deleted and the flag cleared iff the lock was created, exists and the delete succeeds; otherwise nothing changes |
| LockFileManager.CreateThenRemove | src/main/java/org/openbeans/claude/netbeans/LockFileManager.java:175-177 | after a create the lock is valid iff readable; after a remove it is not valid and the file is gone |

## Left out

- I/O is not modelled. File contents, directory listings, canonical paths,
  ports that bind, Jetty, the diff service and serialisation failures are
  inputs.
- JSON is not rendered to text. A response is the JSON value that would be
  serialised.
- Messages of JVM exceptions are a parameter. The text of a
  NullPointerException is an input (`npeText`). Such a message may be null,
  which concatenates as "null".
- Concurrency is not modelled. The `ConcurrentHashMap` of `DiffTabTracker`,
  caret events on the UI thread and the `WeakHashMap` of listeners are
  modelled as sequential state.
- The handler's runtime figures are inputs. Its inline getDiagnostics
  reports system properties and memory figures.
- The random auth token of the lock file is an input.
- getOpenEditors and getWorkspaceFolders are queries over the NetBeans
  registries (EditorUtils, GetOpenEditors, GetWorkspaceFolders). The open
  documents, the active editor path and its content are inputs.
- Three handler helpers are unreachable from any dispatch:
  `handleGetOpenProjects`, `handleGetProjectFiles` and
  `handleGetDocumentContent`. They are not modelled.
- The tool interfaces `Tool`, `AsyncResponse` and `AsyncHandler` have no
  behaviour. They are not modelled.
- The endpoint has its own error envelope with `"id": null` for a text
  frame that fails to parse (`MCPWebSocketHandler.java:55-67,92-106`). It
  is not modelled: a frame reaches the model as a parsed `Json` value.
- When a send on the WebSocket fails with an IOException, the model
  assumes the send succeeded.
- Jetty's own stop exceptions are not modelled.
- Caret updates are not a separate event. The listener's effect is
  `Handler.SendSelectionChangeEvent` on the tracked component.
- `File.separator` is fixed to '/'.
- `Paths.get` normalisation is left to the canonical-path input.
- `Long.parseLong` accepts only ASCII digits here; Java also accepts
  other Unicode decimal digits.
- Jackson's `asBoolean` is modelled without trimming text: only the exact
  string "true" reads as true.
- Json.AsInt: does not trim text and has no fallback to
  `(int) Double.parseDouble`, so " 7" and "1.5" read as 0 here while
  Jackson reads 7 and 1. A JSON number with a fraction has no `Json` value
  at all. This reaches `NetBeansMCPHandler.RequestId` for text ids.
- Text.ToLower: lowercases ASCII letters only and ignores the default
  locale of `String.toLowerCase()`. Under a Turkish locale "DIFF" and
  "HINT" lowercase with a dotless 'ı', so CloseAllDiffTabs.DisplayLooksLikeDiff,
  CloseAllDiffTabs.ClassLooksLikeDiff and GetDiagnostics.Classify match
  where the plugin would not.
- HandlerTools.CreateTool: requires the varargs count not to be 1 more
  than a multiple of three. With such a count the source throws
  ArrayIndexOutOfBoundsException at `params[i + 1]`, but every call site
  passes complete pairs or triples. `NamesOf` and the `PutParams*` lemmas
  carry the same precondition, as the predicate `Triples`.
- WebSocketMCPServer.Server.Start: does not model a second start. A
  second start replaces the server field while the old Jetty server keeps
  running.
- CloseAllDiffTabs.Closes: a tab has one `closeFailure`, so its two
  close() calls (CloseAllDiffTabs.java:36-57) both throw or both succeed.
  A second close() on an already closed component that behaves differently
  from the first is not modelled.
- LockFileManager.ProjectDirs: a project's `dir` stands for
  `new File(projectDir.getPath()).getAbsolutePath()`
  (LockFileManager.java:142-143). Resolving a relative path against the
  working directory is not modelled.
- LockFileManager.GetCurrentProcessId: its contract only bounds the result
  to the Java long range. The value itself is stated by the lemma
  `ProcessIdOfRuntimeName` for runtime names of the form "pid@host".

The model keeps the following behaviour as the code has it, although the
code's comments or a reader might expect otherwise:

- `DiffTabTracker.register` silently overwrites an existing entry.
- `TopComponent.close()` answers false when the close is vetoed, for
  example by a cancelled save prompt. Every caller ignores that answer:
  close_tab still answers "TAB_CLOSED" (or "Tab closed successfully") and
  closeAllDiffTabs still counts the tab, which stays open
  (`CloseAllDiffTabs.VetoedDiffViewerCountedButKept`).
- The handler's inline close_tab answers "Tab not currently open" for a
  miss, but the CloseTab class answers "TAB_CLOSED".
- getCurrentSelection reports 1-based lines, while selection_changed
  reports 0-based lines.
- On initialize, notifications/initialized goes out before the response
  (see Findings).
- Each new session registers a fresh activation listener. The field keeps
  only the newest, so a second connect without a close leaves the first
  listener registered after the next close. `HandlerSession.StartTwiceStopOnce`
  shows this. No corrected version is modelled.
- All connections share one handler, whose session is the latest
  connection's. An earlier connection's initialize therefore notifies the
  later one (`MCPWebSocketHandler.EarlierClientInitializeNotifiesLater`),
  and closing the earlier connection stops tracking for the later one.

## Findings

| source | as written | input that shows it | evidently intended | confidence | as-written member | corrected member |
|---|---|---|---|---|---|---|
| src/main/java/org/openbeans/claude/netbeans/NetBeansMCPHandler.java:117-121 | handleMessage serialises the initialize response, then writes notifications/initialized to the session, and only then returns the response for the endpoint to send (MCPWebSocketHandler.java:47-52). The client sees the notification before the response | an `initialize` request on an open session | "Send the response first", then the notification (the comments at lines 118 and 120) | not executed | MCPWebSocketHandler.InitializeNotificationPrecedesResponse | MCPWebSocketHandler.InitializeResponsePrecedesNotification |
