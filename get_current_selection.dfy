// tools/GetCurrentSelection: the focused editor's selection as a tool result.
module GetCurrentSelection {
  import opened Wrappers
  import opened Json
  import opened MCPResponseBuilder
  import opened Ide
  import opened NbUtils

  /** SelectionData as Jackson writes it; a null filePath is left out. */
  function SelectionJson(d: SelectionData): (j: Json)
    ensures Get(j, "text") == Some(JStr(d.text))
  {
    JObj([("text", JStr(d.text))] +
         (if d.filePath.Some? then [("filePath", JStr(d.filePath.value))] else []) +
         [("startLine", JInt(d.startLine)), ("startColumn", JInt(d.startColumn)),
          ("endLine", JInt(d.endLine)), ("endColumn", JInt(d.endColumn)),
          ("isEmpty", JBool(d.isEmpty))])
  }

  /**
   * run: the outcome of getCurrentSelectionData (a snapshot or a thrown
   * exception) becomes "" unless there is a non-empty selection, which is
   * written out as JSON.
   */
  function Run(query: Result<Option<SelectionData>, ExceptionMessage>): (r: Reply)
    ensures r.DataReply? <==> query.Success? && query.value.Some? && !query.value.value.isEmpty
    ensures r.DataReply? ==> r.data == SelectionJson(query.value.value)
    ensures r.TextReply? ==> r.text == ""
  {
    match query
    case Failure(_) => TextReply("")
    case Success(None) => TextReply("")
    case Success(Some(d)) => BuildSelectionResponse(d)
  }

  /** buildSelectionResponse: "" for an empty selection, else the data. */
  function BuildSelectionResponse(d: SelectionData): (r: Reply)
    ensures r.DataReply? <==> !d.isEmpty
    ensures r.DataReply? ==> r.data == SelectionJson(d)
    ensures r.TextReply? ==> r.text == ""
  {
    if d.isEmpty then TextReply("") else DataReply(SelectionJson(d))
  }

  /** Whatever the editor holds, a reported selection carries its non-empty text. */
  lemma ReportedSelectionHasText(activated: Option<Tab>)
    ensures Run(Success(GetCurrentSelectionData(activated))).DataReply? ==>
      var d := GetCurrentSelectionData(activated).value;
      d.text != "" && Get(Run(Success(GetCurrentSelectionData(activated))).data, "text") == Some(JStr(d.text))
  {
  }
}
