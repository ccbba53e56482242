/**
 * The chat orchestration rule (ChatService.chat): read the enabled tools
 * once, build a request with or without tools, dispatch it to the
 * completion engine, and fold the engine's outcome into a ChatResult.
 */
module ChatService {
  import opened Wrappers
  import opened ToolManagement

  /**
   * What the completion engine gives back. `content()` and an exception's
   * `getMessage()` are both nullable in the source, hence the options.
   */
  datatype Outcome = Ok(content: Option<string>) | Err(message: Option<string>)

  /** The two request shapes: a plain prompt, or a prompt declaring tool callbacks. */
  datatype Request =
    | PlainRequest(user: string)
    | ToolRequest(user: string, toolCallbacks: seq<ToolDef>)

  /** The result record handed to the HTTP layer. */
  datatype ChatResult = ChatResult(
    success: bool,
    response: Option<string>,
    toolsUsed: seq<string>,
    error: Option<string>)

  /** The tools a request declares as invocable. */
  function OfferedTools(request: Request): seq<ToolDef> {
    match request
    case PlainRequest(_) => []
    case ToolRequest(_, tools) => tools
  }

  /**
   * The request built for a message and the enabled tools: it carries the
   * user's message and declares exactly the enabled tools; with no enabled
   * tools it is a plain request with no tool-calling capability at all.
   */
  function BuildRequest(message: string, enabled: seq<ToolDef>): (r: Request)
    ensures r.user == message
    ensures OfferedTools(r) == enabled
    ensures r.PlainRequest? <==> enabled == []
  {
    if |enabled| > 0 then ToolRequest(message, enabled) else PlainRequest(message)
  }

  /** The try/catch fold of the engine's outcome into a ChatResult. */
  function Fold(outcome: Outcome): (r: ChatResult)
    ensures r.toolsUsed == []
    ensures r.success <==> outcome.Ok?
    ensures outcome.Ok? ==> r.response == outcome.content && r.error == None
    ensures outcome.Err? ==> r.response == None && r.error == outcome.message
  {
    match outcome
    case Ok(content) => ChatResult(true, content, [], None)
    case Err(message) => ChatResult(false, None, [], message)
  }

  /**
   * `chat` as a function of the message, the enabled tools (read once) and
   * the completion engine, which sees the request built from both. Whatever
   * the engine does, the result has the documented shape: success exactly
   * when the engine succeeds, a success has no error, a failure has no
   * response, and no tool use is ever reported.
   */
  function Respond(message: string, enabled: seq<ToolDef>, engine: Request -> Outcome): (r: ChatResult)
    ensures r.success <==> engine(BuildRequest(message, enabled)).Ok?
    ensures r.toolsUsed == []
    ensures r.success ==> r.error == None
    ensures !r.success ==> r.response == None
  {
    Fold(engine(BuildRequest(message, enabled)))
  }

  /** On engine success the response is the engine's content. */
  lemma SuccessCarriesContent(message: string, enabled: seq<ToolDef>, engine: Request -> Outcome)
    requires engine(BuildRequest(message, enabled)).Ok?
    ensures Respond(message, enabled, engine) ==
      ChatResult(true, engine(BuildRequest(message, enabled)).content, [], None)
  {
  }

  /** On any engine failure the error is the failure's message; nothing escapes. */
  lemma FailureIsFolded(message: string, enabled: seq<ToolDef>, engine: Request -> Outcome)
    requires engine(BuildRequest(message, enabled)).Err?
    ensures Respond(message, enabled, engine) ==
      ChatResult(false, None, [], engine(BuildRequest(message, enabled)).message)
  {
  }

  /**
   * `chat` over the live registry: it reads the enabled tools once and,
   * having no modifies clause, leaves the registry's state as it was.
   */
  method Chat(service: ToolManagementService, message: string, engine: Request -> Outcome)
    returns (r: ChatResult)
    ensures r == Respond(message, EnabledList(service.tools, service.disabled), engine)
  {
    var enabledTools := service.GetEnabledToolCallbacks();
    var request := BuildRequest(message, enabledTools);
    r := Fold(engine(request));
  }

  /** After disabling "add" in the calculator universe, only `calc_sub` is offered. */
  lemma CalcScenarioDispatch(message: string)
    ensures OfferedTools(BuildRequest(message, EnabledList(CalcTools, AfterDisable(CalcTools, {}, "add")))) ==
      [ToolDef("calc_sub", "Subtract two numbers")]
  {
  }
}
