/**
 * The conversions between MCP tools and A2A skills
 * (agents/lib/schema-transformer.js): tool descriptions become skills,
 * task parameters become tool arguments, and tool results and errors become
 * A2A replies. Every conversion can raise a TypeError when it reads a
 * property of `undefined` or `null`; that is the `Failure` case.
 */
module SchemaTransformer {
  import opened Wrappers
  import opened Text
  import opened JsValues

  /** The parameter schema given to a tool that does not declare one. */
  const EmptyObjectSchema := Obj(map["type" := Str("object"), "properties" := Obj(map[]), "required" := Arr([])])

  /** `mcpToolToA2ASkill`: the tool's name, description and schema, marked as MCP-backed. */
  function McpToolToA2ASkill(tool: Value): (r: Result<Value, TypeError>)
    ensures r.Failure? <==> tool.Undefined? || tool.Null?
    ensures r.Success? ==>
      && r.value.Obj? && r.value.fields.Keys == {"name", "description", "parameters", "_mcpBacked"}
      && r.value.fields["name"] == OptionalMember(tool, "name")
      && r.value.fields["_mcpBacked"] == Bool(true)
  {
    match Member(tool, "name")
    case Failure(e) => Failure(e)
    case Success(name) =>
      var description := OptionalMember(tool, "description");
      var schema := OptionalMember(tool, "inputSchema");
      Success(Obj(map["name" := name,
                      "description" := Or(description, Str("MCP tool: " + ToText(name))),
                      "parameters" := Or(schema, EmptyObjectSchema),
                      "_mcpBacked" := Bool(true)]))
  }

  /**
   * A tool's own description and schema are kept when present; an
   * undescribed tool is described by its name, and a tool without a schema
   * takes no parameters.
   */
  lemma SkillOfTool(tool: Value)
    requires tool.Obj?
    ensures var skill := McpToolToA2ASkill(tool).value.fields;
      && (Truthy(OptionalMember(tool, "description")) ==> skill["description"] == OptionalMember(tool, "description"))
      && (!Truthy(OptionalMember(tool, "description")) ==>
            && skill["description"].Str?
            && StartsWith(skill["description"].s, "MCP tool: ")
            && Contains(skill["description"].s, ToText(OptionalMember(tool, "name"))))
      && (Truthy(OptionalMember(tool, "inputSchema")) ==> skill["parameters"] == OptionalMember(tool, "inputSchema"))
      && (!Truthy(OptionalMember(tool, "inputSchema")) ==> skill["parameters"] == EmptyObjectSchema)
  {
    var name := ToText(OptionalMember(tool, "name"));
    ContainsInfix("MCP tool: ", name, "");
    assert "MCP tool: " + name + "" == "MCP tool: " + name;
    assert ("MCP tool: " + name)[..|"MCP tool: "|] == "MCP tool: ";
  }

  /** `a2aParamsToMCPArgs`: the parameters themselves, or an empty object when there are none. */
  function A2aParamsToMcpArgs(params: Value): (r: Value)
    ensures Truthy(r)
    ensures Truthy(params) ==> r == params
    ensures !Truthy(params) ==> r == Obj(map[])
  {
    Or(params, Obj(map[]))
  }

  /** Converting arguments that were already converted changes nothing. */
  lemma ArgsIdempotent(params: Value)
    ensures A2aParamsToMcpArgs(A2aParamsToMcpArgs(params)) == A2aParamsToMcpArgs(params)
  {
  }

  /** Whether a tool result has no content to report (it, or its `content`, is falsy). */
  predicate NoContent(result: Value) {
    !Truthy(result) || !Truthy(OptionalMember(result, "content"))
  }

  /** A successful A2A reply carrying `output`. */
  function SuccessReply(output: Value): Value {
    Obj(map["success" := Bool(true), "output" := output])
  }

  /**
   * `mcpResultToA2AOutput`: a generic success text when there is no content,
   * otherwise the type and text of the first content item. `stringify` is
   * `JSON.stringify`, used when that item has no text.
   */
  function McpResultToA2AOutput(result: Value, toolName: Value, stringify: Value -> string): (r: Result<Value, TypeError>)
    ensures r.Failure? <==> !NoContent(result) && First(OptionalMember(result, "content")).value in {Undefined, Null}
    ensures r.Success? ==> OptionalMember(r.value, "success") == Bool(true)
  {
    if NoContent(result) then
      Success(SuccessReply(Obj(map["type" := Str("text"),
                                   "text" := Str("Tool " + ToText(toolName) + " executed successfully"),
                                   "data" := result])))
    else
      var content := OptionalMember(result, "content");
      var primary := First(content).value;
      match Member(primary, "type")
      case Failure(e) => Failure(e)
      case Success(kind) =>
        var text := OptionalMember(primary, "text");
        Success(SuccessReply(Obj(map["type" := Or(kind, Str("text")),
                                     "text" := Or(text, Str(stringify(primary))),
                                     "data" := Obj(map["toolName" := toolName, "fullResult" := content])])))
  }

  /** Without content, the reply names the tool and carries the raw result as its data. */
  lemma ReplyWithoutContent(result: Value, toolName: Value, stringify: Value -> string)
    requires NoContent(result)
    ensures var output := OptionalMember(McpResultToA2AOutput(result, toolName, stringify).value, "output");
      && OptionalMember(output, "type") == Str("text")
      && OptionalMember(output, "text") == Str("Tool " + ToText(toolName) + " executed successfully")
      && OptionalMember(output, "data") == result
  {
  }

  /**
   * With a non-empty content list, the reply is built from its first item:
   * its type (default 'text'), its text (default: the item as JSON), and the
   * whole list as `fullResult`.
   */
  lemma ReplyFromFirstItem(result: Value, toolName: Value, stringify: Value -> string)
    requires result.Obj? && "content" in result.fields
    requires var content := result.fields["content"]; content.Arr? && content.items != [] && content.items[0].Obj?
    ensures var r := McpResultToA2AOutput(result, toolName, stringify);
      var content := result.fields["content"];
      var item := content.items[0];
      var output := OptionalMember(r.value, "output");
      && r.Success?
      && OptionalMember(output, "type") == Or(OptionalMember(item, "type"), Str("text"))
      && OptionalMember(output, "text") == Or(OptionalMember(item, "text"), Str(stringify(item)))
      && OptionalMember(OptionalMember(output, "data"), "fullResult") == content
      && OptionalMember(OptionalMember(output, "data"), "toolName") == toolName
  {
  }

  /** An empty content list is truthy but has no first item: reading its type raises. */
  lemma EmptyContentRaises(toolName: Value, stringify: Value -> string)
    ensures McpResultToA2AOutput(Obj(map["content" := Arr([])]), toolName, stringify)
         == Failure(CannotReadProperty("undefined", "type"))
  {
  }

  /** `mcpErrorToA2AError`: a failed reply with the error's code (default 'MCP_TOOL_ERROR'), a message naming the tool, and its data. */
  function McpErrorToA2AError(error: Value, toolName: Value): (r: Result<Value, TypeError>)
    ensures r.Failure? <==> error.Undefined? || error.Null?
    ensures r.Success? ==> OptionalMember(r.value, "success") == Bool(false)
  {
    match Member(error, "code")
    case Failure(e) => Failure(e)
    case Success(code) =>
      Success(Obj(map["success" := Bool(false),
                      "error" := Obj(map["code" := Or(code, Str("MCP_TOOL_ERROR")),
                                         "message" := Str("MCP tool '" + ToText(toolName) + "' failed: " + ToText(OptionalMember(error, "message"))),
                                         "details" := OptionalMember(error, "data")])]))
  }

  /** The prefix every MCP error message starts with. */
  function ToolFailedPrefix(toolName: Value): string {
    "MCP tool '" + ToText(toolName) + "' failed: "
  }

  /** An error reply keeps the error's code when it has one, and its message always names the tool. */
  lemma ErrorReplyForTool(error: Value, toolName: Value)
    requires error.Obj?
    ensures var e := OptionalMember(McpErrorToA2AError(error, toolName).value, "error");
      && (Truthy(OptionalMember(error, "code")) ==> OptionalMember(e, "code") == OptionalMember(error, "code"))
      && (!Truthy(OptionalMember(error, "code")) ==> OptionalMember(e, "code") == Str("MCP_TOOL_ERROR"))
      && OptionalMember(e, "message").Str?
      && StartsWith(OptionalMember(e, "message").s, ToolFailedPrefix(toolName))
      && OptionalMember(e, "details") == OptionalMember(error, "data")
  {
    var prefix := ToolFailedPrefix(toolName);
    var message := "MCP tool '" + ToText(toolName) + "' failed: " + ToText(OptionalMember(error, "message"));
    assert message == prefix + ToText(OptionalMember(error, "message"));
    assert message[..|prefix|] == prefix;
  }
}
