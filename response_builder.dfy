// MCPResponseBuilder: the shapes of MCP tool results, JSON-RPC error
// responses, notifications and plain responses, as Jackson trees.
module MCPResponseBuilder {
  import opened Wrappers
  import opened Json

  /**
   * Writes a Java object (a record, a map, a list) as JSON text; a failure
   * carries the exception's message. Jackson's object writer is not modelled.
   */
  type Serializer = Json -> Result<string, Option<string>>

  /**
   * What a tool hands to createToolResponse: a string (the String overload)
   * or an object to be written as JSON text (the Object overload).
   */
  datatype Reply = TextReply(text: string) | DataReply(data: Json)

  /** One `{type: "text", text: ...}` content item. */
  function TextItem(text: string): (r: Json)
    ensures Get(r, "type") == Some(JStr("text")) && Get(r, "text") == Some(JStr(text))
  {
    var fields := [("type", JStr("text")), ("text", JStr(text))];
    LookupAt(fields, "text", 1);
    JObj(fields)
  }

  /** createToolResponse(String): a single text content item. */
  function CreateToolResponse(text: string): (r: Json)
    ensures ContentTexts(r) == Some([text])
  {
    ItemTextsOfTextItems([text]);
    assert TextItems([text]) == [TextItem(text)];
    JObj([("content", JArr([TextItem(text)]))])
  }

  /**
   * createToolResponse(Object): the object written as JSON text, or the text
   * "Error serializing response: <message>" when writing fails.
   */
  function CreateToolResponseOf(data: Json, ser: Serializer): (r: Json)
    ensures ser(data).Success? ==> ContentTexts(r) == Some([ser(data).value])
    ensures ser(data).Failure? ==>
      ContentTexts(r) == Some(["Error serializing response: " + Text.StringOf(ser(data).error)])
  {
    match ser(data)
    case Success(s) => CreateToolResponse(s)
    case Failure(m) => CreateToolResponse("Error serializing response: " + Text.StringOf(m))
  }

  /** The tool result for a Reply, through the overload the Reply names. */
  function ToolResponseFor(reply: Reply, ser: Serializer): Json
  {
    match reply
    case TextReply(t) => CreateToolResponse(t)
    case DataReply(d) => CreateToolResponseOf(d, ser)
  }

  function TextItems(texts: seq<string>): (r: seq<Json>)
    ensures |r| == |texts|
    ensures forall i :: 0 <= i < |texts| ==> r[i] == TextItem(texts[i])
  {
    if |texts| == 0 then [] else [TextItem(texts[0])] + TextItems(texts[1..])
  }

  /** createMultiPartToolResponse: one text item per segment, in order. */
  function CreateMultiPartToolResponse(texts: seq<string>): (r: Json)
    ensures ContentTexts(r) == Some(texts)
  {
    var items := TextItems(texts);
    ItemTextsOfTextItems(texts);
    JObj([("content", JArr(items))])
  }

  /** A single segment gives exactly createToolResponse's result. */
  lemma MultiPartOfOne(text: string)
    ensures CreateMultiPartToolResponse([text]) == CreateToolResponse(text)
  {
    assert TextItems([text]) == [TextItem(text)];
  }

  /** Reads back the texts of a tool result's content items. */
  function ContentTexts(r: Json): Option<seq<string>>
  {
    match Get(r, "content")
    case Some(JArr(items)) => ItemTexts(items)
    case _ => None
  }

  function ItemTexts(items: seq<Json>): Option<seq<string>>
  {
    if |items| == 0 then Some([])
    else
      match (Get(items[0], "type"), Get(items[0], "text"), ItemTexts(items[1..]))
      case (Some(JStr("text")), Some(JStr(t)), Some(rest)) => Some([t] + rest)
      case _ => None
  }

  lemma {:induction false} ItemTextsOfTextItems(texts: seq<string>)
    ensures ItemTexts(TextItems(texts)) == Some(texts)
  {
    if |texts| > 0 {
      var items := TextItems(texts);
      assert items[1..] == TextItems(texts[1..]);
      ItemTextsOfTextItems(texts[1..]);
      assert [texts[0]] + texts[1..] == texts;
    }
  }

  /**
   * The tree createErrorResponse writes: jsonrpc, the id only when there is
   * one, and an error with code, message and data only when the data is a
   * non-empty string.
   */
  function ErrorResponse(id: Option<int>, code: int, message: string, data: Option<string>): Json
  {
    JObj([("jsonrpc", JStr("2.0"))] + IdField(id) +
         [("error", JObj([("code", JInt(code)), ("message", JStr(message))] + DataField(data)))])
  }

  function IdField(id: Option<int>): seq<(string, Json)>
  {
    if id.Some? then [("id", JInt(id.value))] else []
  }

  function DataField(data: Option<string>): seq<(string, Json)>
  {
    if data.Some? && data.value != "" then [("data", JStr(data.value))] else []
  }

  /** The fixed text createErrorResponse falls back to, as a tree. */
  const FallbackErrorResponse: Json :=
    JObj([("jsonrpc", JStr("2.0")), ("error", JObj([("code", JInt(-32603)), ("message", JStr("Internal error"))]))])

  /** The parts of a JSON-RPC error response a client reads. */
  datatype ErrorFields = ErrorFields(id: Option<int>, code: int, message: string, data: Option<string>)

  /** The data createErrorResponse keeps: a non-empty string, else none. */
  function KeptData(data: Option<string>): Option<string>
  {
    if data == Some("") then None else data
  }

  /**
   * createErrorResponse: the error tree, or the fixed internal-error
   * fallback when writing it fails (`writeFails`).
   */
  function CreateErrorResponse(id: Option<int>, code: int, message: string, data: Option<string>, writeFails: bool): (r: Json)
    ensures writeFails ==> ErrorOf(r) == Some(ErrorFields(None, -32603, "Internal error", None))
    ensures !writeFails ==> ErrorOf(r) == Some(ErrorFields(id, code, message, KeptData(data)))
  {
    if writeFails then
      FallbackIsInternalError();
      ErrorOfErrorResponse(None, -32603, "Internal error", None);
      FallbackErrorResponse
    else
      ErrorOfErrorResponse(id, code, message, data);
      ErrorResponse(id, code, message, data)
  }

  /** Reads back id, code, message and data from a JSON-RPC error response. */
  function ErrorOf(r: Json): Option<ErrorFields>
  {
    var version := Get(r, "jsonrpc");
    var error := Get(r, "error");
    if version != Some(JStr("2.0")) || error.None? then None
    else
      var code := Get(error.value, "code");
      var message := Get(error.value, "message");
      if code.None? || !code.value.JInt? || message.None? || !message.value.JStr? then None
      else
        var id := Get(r, "id");
        var data := Get(error.value, "data");
        Some(ErrorFields(
          if id.Some? && id.value.JInt? then Some(id.value.n) else None,
          code.value.n, message.value.s,
          if data.Some? && data.value.JStr? then Some(data.value.s) else None))
  }

  lemma ErrorOfErrorResponse(id: Option<int>, code: int, message: string, data: Option<string>)
    ensures ErrorOf(ErrorResponse(id, code, message, data)) == Some(ErrorFields(id, code, message, KeptData(data)))
  {
    var inner := [("code", JInt(code)), ("message", JStr(message))] + DataField(data);
    var outer := [("jsonrpc", JStr("2.0"))] + IdField(id) + [("error", JObj(inner))];
    assert ErrorResponse(id, code, message, data) == JObj(outer);
    LookupAt(outer, "error", |outer| - 1);
    LookupAt(inner, "message", 1);
    if id.Some? {
      LookupAt(outer, "id", 1);
    } else {
      LookupMissing(outer, "id");
    }
    if DataField(data) != [] {
      LookupAt(inner, "data", 2);
    } else {
      LookupMissing(inner, "data");
    }
  }

  /** The fallback is the internal error with neither id nor data. */
  lemma FallbackIsInternalError()
    ensures FallbackErrorResponse == ErrorResponse(None, -32603, "Internal error", None)
  {
    var inner := [("code", JInt(-32603)), ("message", JStr("Internal error"))];
    assert inner + DataField(None) == inner;
    assert [("jsonrpc", JStr("2.0"))] + IdField(None) + [("error", JObj(inner))]
      == [("jsonrpc", JStr("2.0")), ("error", JObj(inner))];
  }

  /** createNotification: jsonrpc and method, params only when given, never an id. */
  function CreateNotification(methodName: string, params: Option<Json>): (r: Json)
    ensures Get(r, "jsonrpc") == Some(JStr("2.0"))
    ensures Get(r, "method") == Some(JStr(methodName))
    ensures Get(r, "params") == params
    ensures !Has(r, "id")
  {
    var fields := [("jsonrpc", JStr("2.0")), ("method", JStr(methodName))] +
      (if params.Some? then [("params", params.value)] else []);
    LookupAt(fields, "method", 1);
    LookupMissing(fields, "id");
    if params.Some? then
      LookupAt(fields, "params", 2);
      JObj(fields)
    else
      LookupMissing(fields, "params");
      JObj(fields)
  }

  /** createResponse: jsonrpc, the id and the result. */
  function CreateResponse(id: int, result: Json): (r: Json)
    ensures Get(r, "jsonrpc") == Some(JStr("2.0"))
    ensures Get(r, "id") == Some(JInt(id))
    ensures Get(r, "result") == Some(result)
    ensures !Has(r, "error")
  {
    var fields := [("jsonrpc", JStr("2.0")), ("id", JInt(id)), ("result", result)];
    LookupAt(fields, "id", 1);
    LookupAt(fields, "result", 2);
    LookupMissing(fields, "error");
    JObj(fields)
  }
}
