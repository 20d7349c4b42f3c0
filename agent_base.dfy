/**
 * The A2A agent base class (agents/lib/a2a-agent-base.js): configuration
 * defaults, MCP tool discovery with its failure fallback, the combined skills
 * list, the agent card, and the dispatch of a task to a native handler, an
 * MCP tool, or the unknown-skill reply.
 *
 * The MCP client and the HTTP server are not modelled: what the client
 * returns is a parameter (`McpSession`, `Environment.call`), and a handler's
 * reply is what would be sent as the JSON response.
 */
module AgentBase {
  import opened Wrappers
  import opened Text
  import opened JsValues
  import opened SchemaTransformer

  const DefaultEndpoint := "http://agentgateway:3000/mcp/stdio"

  /** A native skill handler: the reply it resolves to, or the value it throws. */
  type Handler = Value -> Result<Value, Value>

  /** What connecting to the MCP endpoint and listing its tools gave: the tools, or the value thrown. */
  datatype McpSession = Connected(tools: seq<Value>) | Unreachable(error: Value)

  /**
   * What the agent relies on and cannot see: the MCP client's `callTool`
   * (its result, or the value it throws) and `JSON.stringify`.
   */
  datatype Environment = Environment(call: (Value, Value) -> Result<Value, Value>, stringify: Value -> string)

  /** An HTTP response with its status and JSON body, or none when the request's promise rejects. */
  datatype Response = Reply(status: int, body: Value) | NoReply

  /** `tools.map(mcpToolToA2ASkill)`: every converted tool, or the TypeError of the first that cannot be. */
  function ConvertTools(tools: seq<Value>): (r: Result<seq<Value>, TypeError>)
    ensures r.Success? <==> forall i | 0 <= i < |tools| :: !tools[i].Undefined? && !tools[i].Null?
    ensures r.Success? ==> (|r.value| == |tools| &&
      forall i | 0 <= i < |tools| :: r.value[i] == McpToolToA2ASkill(tools[i]).value)
    decreases |tools|
  {
    if tools == [] then Success([])
    else
      match McpToolToA2ASkill(tools[0])
      case Failure(e) => Failure(e)
      case Success(skill) =>
        match ConvertTools(tools[1..])
        case Failure(e) => Failure(e)
        case Success(rest) => Success([skill] + rest)
  }

  /** `s.name` for every skill, or the TypeError of the first that is `undefined` or `null`. */
  function SkillNames(skills: seq<Value>): (r: Result<seq<Value>, TypeError>)
    ensures r.Success? <==> forall i | 0 <= i < |skills| :: !skills[i].Undefined? && !skills[i].Null?
    ensures r.Success? ==> (|r.value| == |skills| &&
      forall i | 0 <= i < |skills| :: r.value[i] == OptionalMember(skills[i], "name"))
    decreases |skills|
  {
    if skills == [] then Success([])
    else
      match Member(skills[0], "name")
      case Failure(e) => Failure(e)
      case Success(name) =>
        match SkillNames(skills[1..])
        case Failure(e) => Failure(e)
        case Success(rest) => Success([name] + rest)
  }

  /** A skill as the agent card shows it: its name, description and parameters only. */
  function CardSkill(skill: Value): Result<Value, TypeError> {
    match Member(skill, "name")
    case Failure(e) => Failure(e)
    case Success(name) =>
      Success(Obj(map["name" := name,
                      "description" := OptionalMember(skill, "description"),
                      "parameters" := OptionalMember(skill, "parameters")]))
  }

  function CardSkills(skills: seq<Value>): (r: Result<seq<Value>, TypeError>)
    ensures r.Success? <==> forall i | 0 <= i < |skills| :: !skills[i].Undefined? && !skills[i].Null?
    ensures r.Success? ==> (|r.value| == |skills| &&
      forall i | 0 <= i < |skills| :: r.value[i] == CardSkill(skills[i]).value)
    decreases |skills|
  {
    if skills == [] then Success([])
    else
      match CardSkill(skills[0])
      case Failure(e) => Failure(e)
      case Success(first) =>
        match CardSkills(skills[1..])
        case Failure(e) => Failure(e)
        case Success(rest) => Success([first] + rest)
  }

  /** `a === b` on values received as JSON: objects and arrays are fresh, so never identical to anything. */
  predicate StrictEquals(a: Value, b: Value) {
    a == b && !a.Obj? && !a.Arr?
  }

  /** The 500 reply for a caught value; reading `message` of a thrown `undefined` or `null` rejects instead. */
  function InternalError(thrown: Value): Response {
    match Member(thrown, "message")
    case Failure(_) => NoReply
    case Success(message) =>
      Reply(500, Obj(map["success" := Bool(false),
                         "error" := Obj(map["code" := Str("INTERNAL_ERROR"), "message" := message])]))
  }

  /** A settled handler: its reply with status 200, or the internal-error reply for what it threw. */
  function Settle(outcome: Result<Value, Value>): Response {
    match outcome
    case Success(reply) => Reply(200, reply)
    case Failure(thrown) => InternalError(thrown)
  }

  /** A TypeError as the caught error object. */
  function Thrown(e: TypeError): Value {
    ErrorObject(TypeErrorMessage(e))
  }

  class Agent {
    var name: Value
    var version: Value
    var description: Value
    var port: Value
    var url: Value
    var nativeSkills: seq<Value>
    var skillHandlers: map<string, Handler>
    var mcpEnabled: bool
    var mcpEndpoint: Value
    var hasClient: bool
    var mcpTools: seq<Value>
    var allSkills: seq<Value>

    /** MCP tools are converted skills (objects), and there are none without a client. */
    ghost predicate Valid()
      reads this
    {
      && (forall i | 0 <= i < |mcpTools| :: mcpTools[i].Obj?)
      && (mcpTools != [] ==> hasClient)
    }

    /**
     * The configuration defaults. Handlers are functions, which a `Value`
     * cannot hold, so they are passed beside the configuration object; the
     * skills, when given, are an array.
     */
    constructor(config: Value, handlers: Option<map<string, Handler>>)
      requires config.Obj?
      requires !Truthy(OptionalMember(config, "skills")) || OptionalMember(config, "skills").Arr?
      ensures Valid()
      ensures name == OptionalMember(config, "name") && description == OptionalMember(config, "description")
      ensures port == OptionalMember(config, "port") && url == OptionalMember(config, "url")
      ensures version == Or(OptionalMember(config, "version"), Str("1.0.0"))
      ensures nativeSkills == (if Truthy(OptionalMember(config, "skills")) then OptionalMember(config, "skills").items else [])
      ensures skillHandlers == (if handlers.Some? then handlers.value else map[])
      ensures mcpEnabled <==> OptionalMember(OptionalMember(config, "mcp"), "enabled") != Bool(false)
      ensures mcpEndpoint == Or(OptionalMember(OptionalMember(config, "mcp"), "endpoint"), Str(DefaultEndpoint))
      ensures !hasClient && mcpTools == [] && allSkills == []
    {
      name := OptionalMember(config, "name");
      version := Or(OptionalMember(config, "version"), Str("1.0.0"));
      description := OptionalMember(config, "description");
      port := OptionalMember(config, "port");
      url := OptionalMember(config, "url");
      var skills := OptionalMember(config, "skills");
      nativeSkills := if Truthy(skills) then skills.items else [];
      skillHandlers := if handlers.Some? then handlers.value else map[];
      var mcp := OptionalMember(config, "mcp");
      mcpEnabled := OptionalMember(mcp, "enabled") != Bool(false);
      mcpEndpoint := Or(OptionalMember(mcp, "endpoint"), Str(DefaultEndpoint));
      hasClient := false;
      mcpTools := [];
      allSkills := [];
    }

    /**
     * `initializeMCP`: the client is created first, so it exists afterwards
     * whatever happens; the tools are converted, and on any failure MCP is
     * switched off with no tools.
     */
    method InitializeMcp(session: McpSession)
      requires Valid()
      modifies this
      ensures Valid() && hasClient
      ensures session.Connected? && ConvertTools(session.tools).Success? ==>
        mcpTools == ConvertTools(session.tools).value && mcpEnabled == old(mcpEnabled)
      ensures !(session.Connected? && ConvertTools(session.tools).Success?) ==> !mcpEnabled && mcpTools == []
      ensures name == old(name) && version == old(version) && description == old(description)
      ensures port == old(port) && url == old(url) && mcpEndpoint == old(mcpEndpoint)
      ensures nativeSkills == old(nativeSkills) && skillHandlers == old(skillHandlers) && allSkills == old(allSkills)
    {
      hasClient := true;
      if session.Connected? && ConvertTools(session.tools).Success? {
        mcpTools := ConvertTools(session.tools).value;
        forall i | 0 <= i < |mcpTools| ensures mcpTools[i].Obj? {
          assert mcpTools[i] == McpToolToA2ASkill(session.tools[i]).value;
        }
      } else {
        mcpEnabled := false;
        mcpTools := [];
      }
    }

    /** `initialize` without the routes: discover MCP tools when enabled, then combine the skills. */
    method Initialize(session: McpSession)
      requires Valid()
      modifies this
      ensures Valid()
      ensures allSkills == nativeSkills + mcpTools && nativeSkills == old(nativeSkills)
      ensures !old(mcpEnabled) ==> mcpTools == old(mcpTools) && !mcpEnabled && hasClient == old(hasClient)
      ensures old(mcpEnabled) ==> hasClient
      ensures old(mcpEnabled) && session.Connected? && ConvertTools(session.tools).Success? ==>
        mcpEnabled && mcpTools == ConvertTools(session.tools).value
      ensures old(mcpEnabled) && !(session.Connected? && ConvertTools(session.tools).Success?) ==>
        !mcpEnabled && mcpTools == [] && allSkills == nativeSkills
      ensures name == old(name) && version == old(version) && description == old(description)
      ensures port == old(port) && url == old(url) && mcpEndpoint == old(mcpEndpoint)
      ensures skillHandlers == old(skillHandlers)
    {
      if mcpEnabled {
        InitializeMcp(session);
      }
      allSkills := BuildSkillsList();
    }

    /** `buildSkillsList`: the native skills, then the MCP tools, each in its own order. */
    function BuildSkillsList(): (r: seq<Value>)
      reads this
      ensures |r| == |nativeSkills| + |mcpTools|
      ensures r[..|nativeSkills|] == nativeSkills && r[|nativeSkills|..] == mcpTools
    {
      nativeSkills + mcpTools
    }

    /** `getAgentCard`: the agent's identity and capabilities and each skill projected to its public fields. */
    function AgentCard(): (r: Result<Value, TypeError>)
      reads this
      ensures r.Success? <==> CardSkills(allSkills).Success?
    {
      match CardSkills(allSkills)
      case Failure(e) => Failure(e)
      case Success(skills) =>
        Success(Obj(map["name" := name, "version" := version, "url" := url, "description" := description,
                        "capabilities" := Obj(map["streaming" := Bool(false), "interactive" := Bool(true),
                                                  "mcpEnabled" := Bool(mcpEnabled)]),
                        "skills" := Arr(skills)]))
    }

    /** `executeMCPSkill`: the converted result or error; it rejects only when converting a thrown error itself raises. */
    function ExecuteMcpSkill(skill: Value, params: Value, env: Environment): Result<Value, Value>
      reads this
    {
      var attempt: Result<Value, Value> :=
        if !hasClient then Failure(ErrorObject("MCP client not initialized"))
        else
          match env.call(skill, A2aParamsToMcpArgs(params))
          case Failure(thrown) => Failure(thrown)
          case Success(result) =>
            match McpResultToA2AOutput(result, skill, env.stringify)
            case Failure(e) => Failure(Thrown(e))
            case Success(reply) => Success(reply);
      match attempt
      case Success(reply) => Success(reply)
      case Failure(thrown) =>
        match McpErrorToA2AError(thrown, skill)
        case Failure(e) => Failure(Thrown(e))
        case Success(reply) => Success(reply)
    }

    /** Whether an MCP tool is named `skill`. */
    predicate HasTool(skill: Value)
      reads this
    {
      exists i | 0 <= i < |mcpTools| :: StrictEquals(OptionalMember(mcpTools[i], "name"), skill)
    }

    /** The unknown-skill reply, listing every skill's name. */
    function UnknownSkill(skill: Value): Response
      reads this
    {
      match SkillNames(allSkills)
      case Failure(e) => InternalError(Thrown(e))
      case Success(names) =>
        Reply(200, Obj(map["success" := Bool(false),
                           "error" := Obj(map["code" := Str("UNKNOWN_SKILL"),
                                              "message" := Str("Unknown skill: " + ToText(skill) + ". Available skills: " + JoinValues(names, ", "))])]))
    }

    /**
     * `handleTask`: a native handler first, then an MCP tool of that name,
     * otherwise the unknown-skill reply. Destructuring the body comes before
     * the `try`, so an `undefined` or `null` body rejects the request's
     * promise; any other body (an array, say) gives `undefined` for the
     * properties it lacks.
     */
    function HandleTask(body: Value, env: Environment): (r: Response)
      reads this
      ensures body.Undefined? || body.Null? ==> r == NoReply
      ensures r.Reply? ==> r.status in {200, 500}
    {
      match Destructure(body, "skill", "req.body")
      case Failure(_) => NoReply
      case Success(skill) =>
        var params := OptionalMember(body, "parameters");
        if ToText(skill) in skillHandlers then Settle(skillHandlers[ToText(skill)](params))
        else if HasTool(skill) then Settle(ExecuteMcpSkill(skill, params, env))
        else UnknownSkill(skill)
    }
  }

  /** A handler registered under the skill's name wins, even when an MCP tool has the same name. */
  lemma NativeFirst(a: Agent, body: Value, env: Environment)
    requires !body.Undefined? && !body.Null? && ToText(OptionalMember(body, "skill")) in a.skillHandlers
    ensures a.HandleTask(body, env) == Settle(a.skillHandlers[ToText(OptionalMember(body, "skill"))](OptionalMember(body, "parameters")))
  {
  }

  /** A task naming an MCP tool without a native handler goes to the MCP client, which then exists. */
  lemma McpSecond(a: Agent, body: Value, env: Environment)
    requires a.Valid() && !body.Undefined? && !body.Null?
    requires ToText(OptionalMember(body, "skill")) !in a.skillHandlers && a.HasTool(OptionalMember(body, "skill"))
    ensures a.hasClient
    ensures a.HandleTask(body, env) == Settle(a.ExecuteMcpSkill(OptionalMember(body, "skill"), OptionalMember(body, "parameters"), env))
  {
  }

  /** Any other task is answered with UNKNOWN_SKILL and the names of all skills joined by ", ". */
  lemma UnknownLast(a: Agent, body: Value, env: Environment)
    requires !body.Undefined? && !body.Null?
    requires ToText(OptionalMember(body, "skill")) !in a.skillHandlers && !a.HasTool(OptionalMember(body, "skill"))
    requires forall i | 0 <= i < |a.allSkills| :: a.allSkills[i].Obj?
    ensures var skills := a.allSkills;
      var names := seq(|skills|, i requires 0 <= i < |skills| => OptionalMember(skills[i], "name"));
      a.HandleTask(body, env) ==
        Reply(200, Obj(map["success" := Bool(false),
                           "error" := Obj(map["code" := Str("UNKNOWN_SKILL"),
                                              "message" := Str("Unknown skill: " + ToText(OptionalMember(body, "skill"))
                                                               + ". Available skills: " + JoinValues(names, ", "))])]))
  {
    var skills := a.allSkills;
    assert SkillNames(skills).value == seq(|skills|, i requires 0 <= i < |skills| => OptionalMember(skills[i], "name"));
  }

  /** Without a client, an MCP call resolves to the tool-error reply and never rejects. */
  lemma NoClientError(a: Agent, skill: Value, params: Value, env: Environment)
    requires !a.hasClient
    ensures var r := a.ExecuteMcpSkill(skill, params, env);
      && r.Success?
      && OptionalMember(r.value, "success") == Bool(false)
      && OptionalMember(OptionalMember(r.value, "error"), "code") == Str("MCP_TOOL_ERROR")
      && OptionalMember(OptionalMember(r.value, "error"), "message") == Str(ToolFailedPrefix(skill) + "MCP client not initialized")
  {
  }

  /** The card lists every skill, in order, with only its name, description and parameters. */
  lemma CardMatchesSkills(a: Agent)
    requires forall i | 0 <= i < |a.allSkills| :: a.allSkills[i].Obj?
    ensures a.AgentCard().Success?
    ensures var skills := OptionalMember(a.AgentCard().value, "skills");
      && skills.Arr? && |skills.items| == |a.allSkills|
      && forall i | 0 <= i < |a.allSkills| ::
           && skills.items[i].Obj? && skills.items[i].fields.Keys == {"name", "description", "parameters"}
           && OptionalMember(skills.items[i], "name") == OptionalMember(a.allSkills[i], "name")
           && OptionalMember(skills.items[i], "description") == OptionalMember(a.allSkills[i], "description")
           && OptionalMember(skills.items[i], "parameters") == OptionalMember(a.allSkills[i], "parameters")
    ensures OptionalMember(OptionalMember(a.AgentCard().value, "capabilities"), "mcpEnabled") == Bool(a.mcpEnabled)
  {
  }
}
