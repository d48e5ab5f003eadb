/**
 * The data the chat-completion proxy (webservices/llama-proxy.py) works on:
 * JSON values, chat messages, backend completions, the request body, and the
 * declared tool schemas with the registry of tool functions.
 */
module ChatModel {
  import opened Wrappers

  /** A JSON value as the proxy receives and sends it (numbers are kept as integers). */
  datatype Json =
    | JNull
    | JBool(b: bool)
    | JNum(n: int)
    | JStr(s: string)
    | JArr(items: seq<Json>)
    | JObj(fields: seq<(string, Json)>)

  /** The `function` part of one entry of a message's `tool_calls` list. */
  datatype ToolCall = ToolCall(name: string, arguments: string)

  /**
   * A chat message dict. Every key may be absent (`None`); `content` holds any
   * JSON value, so a `null` content is `Some(JNull)`.
   */
  datatype Message = Message(
    role: Option<string>,
    content: Option<Json>,
    name: Option<string>,
    toolCalls: Option<seq<ToolCall>>)

  /**
   * A parsed backend reply. `topMessage` is `response_json["choices"][0]["message"]`,
   * `None` when that lookup raises (no `choices`, an empty list, no `message`).
   */
  datatype Completion = Completion(topMessage: Option<Message>)

  /**
   * One backend HTTP response: status code, raw body, and the result of
   * `.json()` (`None` when the body is not JSON and `.json()` raises).
   */
  datatype BackendResponse = BackendResponse(status: int, content: string, json: Option<Completion>)

  /** One entry of the module-level `tools` list: `{"type": kind, "function": {name, description, parameters}}`. */
  datatype ToolDef = ToolDef(kind: string, name: string, description: string, parameters: Json)

  /**
   * The request body dict as far as the proxy reads and writes it. Keys other
   * than `messages` and `tools` are forwarded untouched and are not represented.
   */
  datatype Body = Body(messages: Option<seq<Message>>, tools: Option<seq<ToolDef>>)

  /** A message with the given role and text content and no other keys. */
  function TextMessage(role: string, text: string): Message {
    Message(Some(role), Some(JStr(text)), None, None)
  }

  /** `{"role": "tool", "name": name, "content": result}`, appended after each tool run. */
  function ToolMessage(name: string, result: Json): Message {
    Message(Some("tool"), Some(result), Some(name), None)
  }

  /** `{"type": "object", "properties": properties}`. */
  function ObjectSchema(properties: seq<(string, Json)>): Json {
    JObj([("type", JStr("object")), ("properties", JObj(properties))])
  }

  /** The module-level `tools` list attached to every forwarded body. */
  const Tools: seq<ToolDef> := [
    ToolDef("function", "time_now", "Returns current time in ISO format", ObjectSchema([])),
    ToolDef("function", "list_directory",
      "Returns a list of files of which the content can be provided to the LLM\n"
      + "                                The files concern details about Dutch towns and cities.",
      ObjectSchema([])),
    ToolDef("function", "file_content", "Returns the content",
      ObjectSchema([("file_name", JObj([
        ("type", JStr("string")),
        ("description", JStr("Name of the file to read content from,\n"
          + "                          files can be listed using list_directory tool"))]))]))
  ]

  /** How many positional arguments a registered tool function takes. */
  datatype Arity = NoArguments | OneArgument

  /** `get_tools()`: tool name to function (`time_now()`, `list_directory()`, `file_content(arguments)`). */
  const Registry: map<string, Arity> :=
    map["time_now" := NoArguments, "list_directory" := NoArguments, "file_content" := OneArgument]

  /** `{tool["function"]["name"] for tool in tools}`. */
  function ToolNames(defs: seq<ToolDef>): set<string> {
    set d | d in defs :: d.name
  }

  /**
   * The schema list sent to the backend and the registry consulted when a tool
   * runs name the same three tools, so a declared name never misses the registry.
   */
  lemma SchemasMatchRegistry()
    ensures ToolNames(Tools) == Registry.Keys
    ensures |Tools| == |Registry|
  {
    assert Tools[0].name == "time_now";
    assert Tools[1].name == "list_directory";
    assert Tools[2].name == "file_content";
    assert ToolNames(Tools) == {Tools[0].name, Tools[1].name, Tools[2].name};
  }
}
