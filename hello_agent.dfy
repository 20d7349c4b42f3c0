/**
 * The Hello agent's two native skills (agents/hello-agent.js): a greeting
 * in one of three languages, and a fixed self-introduction.
 */
module HelloAgent {
  import opened Wrappers
  import opened Text
  import opened JsValues
  import opened AgentBase

  /** The greeting for `name` in each language the agent knows. */
  function Greetings(name: string): map<string, string> {
    map["english" := EnglishGreeting(name), "spanish" := SpanishGreeting(name), "french" := FrenchGreeting(name)]
  }

  function EnglishGreeting(name: string): string {
    "Hello, " + name + "! Welcome to the A2A demo with MCP integration!"
  }

  function SpanishGreeting(name: string): string {
    "\U{00A1}Hola, " + name + "! \U{00A1}Bienvenido a la demostraci\U{00F3}n A2A con integraci\U{00F3}n MCP!"
  }

  function FrenchGreeting(name: string): string {
    "Bonjour, " + name + "! Bienvenue dans la d\U{00E9}mo A2A avec int\U{00E9}gration MCP!"
  }

  /** A successful text reply. */
  function TextReply(text: string): Value {
    Obj(map["success" := Bool(true), "output" := Obj(map["type" := Str("text"), "text" := Str(text)])])
  }

  /**
   * `greet`: destructures `name` and `language` (which defaults to 'english'
   * only when it is `undefined`) and looks the greeting up, falling back to
   * English. Destructuring `undefined` or `null` raises the TypeError that
   * names `name` and `parameters`.
   */
  function Greet(parameters: Value): (r: Result<Value, TypeError>)
    ensures r.Failure? <==> parameters.Undefined? || parameters.Null?
    ensures r.Failure? ==>
      r.error == CannotDestructure("name", "parameters", if parameters.Undefined? then "undefined" else "null")
  {
    match Destructure(parameters, "name", "parameters")
    case Failure(e) => Failure(e)
    case Success(name) =>
      var given := OptionalMember(parameters, "language");
      var language := if given.Undefined? then Str("english") else given;
      var greetings := Greetings(ToText(name));
      var key := ToText(language);
      Success(TextReply(if key in greetings then greetings[key] else greetings["english"]))
  }

  /** The text a successful reply carries. */
  function ReplyText(reply: Value): string {
    var text := OptionalMember(OptionalMember(reply, "output"), "text");
    if text.Str? then text.s else ""
  }

  /**
   * Every greeting of parameters other than `undefined` and `null` succeeds
   * with a text output that contains the person's name ("undefined" when
   * the parameters have no `name`).
   */
  lemma GreetingNamesPerson(parameters: Value)
    requires !parameters.Undefined? && !parameters.Null?
    ensures var r := Greet(parameters);
      && r.Success?
      && OptionalMember(r.value, "success") == Bool(true)
      && OptionalMember(OptionalMember(r.value, "output"), "type") == Str("text")
      && Contains(ReplyText(r.value), ToText(OptionalMember(parameters, "name")))
  {
    var name := ToText(OptionalMember(parameters, "name"));
    ContainsInfix("Hello, ", name, "! Welcome to the A2A demo with MCP integration!");
    ContainsInfix("\U{00A1}Hola, ", name, "! \U{00A1}Bienvenido a la demostraci\U{00F3}n A2A con integraci\U{00F3}n MCP!");
    ContainsInfix("Bonjour, ", name, "! Bienvenue dans la d\U{00E9}mo A2A avec int\U{00E9}gration MCP!");
  }

  /** Without a language, the greeting is in English. */
  lemma EnglishByDefault(parameters: Value)
    requires parameters.Obj? && "language" !in parameters.fields
    ensures Greet(parameters) == Success(TextReply(EnglishGreeting(ToText(OptionalMember(parameters, "name")))))
  {
  }

  /** A language the agent does not know (explicit `null` included) also gives the English greeting. */
  lemma EnglishForUnknown(parameters: Value)
    requires parameters.Obj? && "language" in parameters.fields
    requires ToText(parameters.fields["language"]) !in {"english", "spanish", "french"}
    ensures Greet(parameters) == Success(TextReply(EnglishGreeting(ToText(OptionalMember(parameters, "name")))))
  {
  }

  /** A known language selects its own greeting. */
  lemma KnownLanguage(parameters: Value, language: string)
    requires parameters.Obj? && language in {"english", "spanish", "french"}
    requires "language" in parameters.fields && parameters.fields["language"] == Str(language)
    ensures Greet(parameters) == Success(TextReply(Greetings(ToText(OptionalMember(parameters, "name")))[language]))
  {
  }

  const Introduction := "I am the Hello Agent! I can greet people in multiple languages and also use MCP tools for additional capabilities!"

  /** `introduce`: the same fixed introduction, whatever the parameters. */
  function Introduce(parameters: Value): (r: Value)
    ensures ReplyText(r) == Introduction
    ensures OptionalMember(r, "success") == Bool(true)
  {
    TextReply(Introduction)
  }

  lemma IntroductionIgnoresParameters(p: Value, q: Value)
    ensures Introduce(p) == Introduce(q)
  {
  }

  // ---------------------------------------------------------------------
  // The agent built from these skills

  /** The skill schemas the agent declares. */
  const NativeSkills: seq<Value> := [
    Obj(map["name" := Str("greet"),
            "description" := Str("Greet someone with a personalized message"),
            "parameters" := Obj(map[
              "type" := Str("object"),
              "properties" := Obj(map[
                "name" := Obj(map["type" := Str("string"), "description" := Str("The name of the person to greet")]),
                "language" := Obj(map["type" := Str("string"),
                                      "description" := Str("Language for greeting (english, spanish, french)"),
                                      "enum" := StrArr(["english", "spanish", "french"]),
                                      "default" := Str("english")])]),
              "required" := StrArr(["name"])])]),
    Obj(map["name" := Str("introduce"),
            "description" := Str("Get a self-introduction from the agent"),
            "parameters" := Obj(map["type" := Str("object"), "properties" := Obj(map[])])])]

  /** `greet` as a handler: what it throws is the TypeError raised by destructuring. */
  function GreetHandler(parameters: Value): Result<Value, Value> {
    match Greet(parameters)
    case Success(reply) => Success(reply)
    case Failure(e) => Failure(ErrorObject(TypeErrorMessage(e)))
  }

  function IntroduceHandler(parameters: Value): Result<Value, Value> {
    Success(Introduce(parameters))
  }

  function Handlers(): map<string, Handler> {
    map["greet" := GreetHandler, "introduce" := IntroduceHandler]
  }

  /** The agent's configuration; `endpoint` is the `MCP_ENDPOINT` environment variable (`undefined` when unset). */
  function HelloConfig(endpoint: Value): Value {
    Obj(map["name" := Str("Hello Agent"),
            "version" := Str("1.0.0"),
            "description" := Str("A simple greeting agent with MCP tool integration"),
            "port" := Num(9001),
            "url" := Str("http://localhost:3000/agent/hello"),
            "skills" := Arr(NativeSkills),
            "mcp" := Obj(map["enabled" := Bool(true), "endpoint" := Or(endpoint, Str(DefaultEndpoint))])])
  }

  /** The Hello agent as constructed: MCP on, both native skills and their handlers, the configured endpoint. */
  method NewHelloAgent(endpoint: Value) returns (a: Agent)
    ensures fresh(a) && a.Valid()
    ensures a.mcpEnabled && !a.hasClient && a.mcpTools == []
    ensures a.nativeSkills == NativeSkills && a.skillHandlers == Handlers()
    ensures a.mcpEndpoint == Or(endpoint, Str(DefaultEndpoint))
  {
    a := new Agent(HelloConfig(endpoint), Some(Handlers()));
  }

  /** The body of a 'greet' task for `name`, without a language. */
  function GreetTask(name: string): Value {
    Obj(map["skill" := Str("greet"), "parameters" := Obj(map["name" := Str(name)])])
  }

  /** A 'greet' task without a language is answered by the native handler, in English. */
  lemma GreetTaskInEnglish(a: Agent, env: Environment, name: string)
    requires a.skillHandlers == Handlers()
    ensures a.HandleTask(GreetTask(name), env) == Reply(200, TextReply(EnglishGreeting(name)))
  {
    GreetTaskFields(name);
    GreetRegistered(a);
    GreetHandlerInEnglish(name);
    NativeFirst(a, GreetTask(name), env);
  }

  lemma GreetTaskFields(name: string)
    ensures ToText(OptionalMember(GreetTask(name), "skill")) == "greet"
    ensures OptionalMember(GreetTask(name), "parameters") == Obj(map["name" := Str(name)])
  {
  }

  /** The agent's 'greet' skill is the greeting handler. */
  lemma GreetRegistered(a: Agent)
    requires a.skillHandlers == Handlers()
    ensures "greet" in a.skillHandlers && a.skillHandlers["greet"] == GreetHandler
  {
  }

  /** The handler answers parameters holding only a name with the English greeting. */
  lemma GreetHandlerInEnglish(name: string)
    ensures GreetHandler(Obj(map["name" := Str(name)])) == Success(TextReply(EnglishGreeting(name)))
  {
    var params := Obj(map["name" := Str(name)]);
    assert ToText(OptionalMember(params, "name")) == name;
    EnglishByDefault(params);
  }

  /**
   * A 'greet' task without parameters makes the handler throw the TypeError
   * for destructuring `name` from `undefined`, and the agent answers 500
   * with its message.
   */
  lemma GreetTaskWithoutParameters(a: Agent, env: Environment)
    requires a.skillHandlers == Handlers()
    ensures a.HandleTask(Obj(map["skill" := Str("greet")]), env)
         == Reply(500, Obj(map["success" := Bool(false),
                               "error" := Obj(map["code" := Str("INTERNAL_ERROR"),
                                                  "message" := Str(TypeErrorMessage(CannotDestructure("name", "parameters", "undefined")))])]))
  {
    var body := Obj(map["skill" := Str("greet")]);
    assert ToText(OptionalMember(body, "skill")) == "greet";
    assert OptionalMember(body, "parameters") == Undefined;
    GreetRegistered(a);
    NativeFirst(a, body, env);
  }

  /** The message of that 500 reply, as Node words it. */
  lemma GreetWithoutParametersMessage()
    ensures TypeErrorMessage(CannotDestructure("name", "parameters", "undefined"))
         == "Cannot destructure property 'name' of 'parameters' as it is undefined."
  {
  }
}
