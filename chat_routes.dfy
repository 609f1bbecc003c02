/**
  The `/chat` endpoint of `app/api/routes/chat.py`: the mapping of errors to HTTP answers,
  the dispatch of a tool call by name, and the conversation that is sent back to the
  completion API after the tools have run.  The argument parser (`json.loads`), the
  profile extractor and the JSON serialiser of its result are parameters.
 */
module ChatRoutes {
  import opened Wrappers
  import opened Strings
  import opened Profile
  import opened ChatModels
  import opened OpenAiService

  // ---------------------------------------------------------------------------------------
  // `handle_chat_error`
  // ---------------------------------------------------------------------------------------

  /** An exception reaching the handler: one of the chat errors, or anything else. */
  datatype Failure = Raised(error: ChatError) | Unexpected(text: string)

  /** The status code and detail of the `HTTPException` the endpoint raises. */
  datatype HttpError = HttpError(status: int, detail: string)

  const ServiceUnavailable := 503
  const TooManyRequests := 429
  const InternalServerError := 500

  const UnavailableDetail := "Service temporarily unavailable. Please try again later."
  const RateLimitDetail := "Rate limit exceeded. Please try again later."
  const UnexpectedDetail := "An unexpected error occurred"

  /** Subclasses are tested before `ChatError` itself. */
  function HandleChatError(e: Failure): (r: HttpError)
    ensures r.status == ServiceUnavailable <==> e.Raised? && e.error.kind in {ModelNotAvailable, ApiConnection}
    ensures r.status == TooManyRequests <==> e.Raised? && e.error.kind == RateLimitExceeded
    ensures r.status == InternalServerError <==> e.Unexpected? || e.error.kind == PlainChatError
    ensures e.Raised? && e.error.kind in {ModelNotAvailable, PlainChatError} ==> r.detail == e.error.message
    ensures e.Raised? && e.error.kind == ApiConnection ==> r.detail == UnavailableDetail
    ensures e.Raised? && e.error.kind == RateLimitExceeded ==> r.detail == RateLimitDetail
    ensures e.Unexpected? ==> r.detail == UnexpectedDetail
  {
    match e
    case Raised(ChatError(ModelNotAvailable, msg)) => HttpError(ServiceUnavailable, msg)
    case Raised(ChatError(ApiConnection, _)) => HttpError(ServiceUnavailable, UnavailableDetail)
    case Raised(ChatError(RateLimitExceeded, _)) => HttpError(TooManyRequests, RateLimitDetail)
    case Raised(ChatError(PlainChatError, msg)) => HttpError(InternalServerError, msg)
    case Unexpected(_) => HttpError(InternalServerError, UnexpectedDetail)
  }

  // ---------------------------------------------------------------------------------------
  // `execute_tool_call`
  // ---------------------------------------------------------------------------------------

  /** The result dictionary: `{"success": True, "data": ...}` or `{"success": False, "error": ...}`. */
  datatype ToolResult = ToolSucceeded(data: Option<LinkedInProfile>) | ToolFailed(error: string)

  const ExtractTool := "linkedin_highlight_and_extract"

  /** `str(KeyError(key))`: the key in quotes. */
  function KeyErrorText(key: string): string {
    "'" + key + "'"
  }

  /**
    `execute_tool_call(tool_call)`.  `parseArgs` stands for `json.loads` (an error gives the
    exception text); the arguments are then read in the order `email`, `password`,
    `profile_url`, so the first missing one is the one reported; `extract` stands for
    `linkedin_highlight_and_extract`, which may find no profile or raise.
   */
  function ExecuteToolCall(call: ToolCall,
                           parseArgs: string -> Result<map<string, string>, string>,
                           extract: (string, string, string) -> Result<Option<LinkedInProfile>, string>)
    : (r: ToolResult)
    ensures call.func.name != ExtractTool ==> r == ToolFailed("Unknown tool: " + call.func.name)
    ensures r.ToolSucceeded? ==>
      call.func.name == ExtractTool
      && parseArgs(call.func.arguments).Ok?
      && var args := parseArgs(call.func.arguments).value;
         "email" in args && "password" in args && "profile_url" in args
         && extract(args["email"], args["password"], args["profile_url"]) == Ok(r.data)
  {
    if call.func.name == ExtractTool then
      match parseArgs(call.func.arguments)
      case Err(text) => ToolFailed(text)
      case Ok(args) =>
        if "email" !in args then ToolFailed(KeyErrorText("email"))
        else if "password" !in args then ToolFailed(KeyErrorText("password"))
        else if "profile_url" !in args then ToolFailed(KeyErrorText("profile_url"))
        else
          match extract(args["email"], args["password"], args["profile_url"])
          case Err(text) => ToolFailed(text)
          case Ok(profile) => ToolSucceeded(profile)
    else ToolFailed("Unknown tool: " + call.func.name)
  }

  /** Every failure of the extractor, the parser or a missing argument is reported, not raised; a missing profile is a success. */
  lemma ToolFailures(call: ToolCall,
                     parseArgs: string -> Result<map<string, string>, string>,
                     extract: (string, string, string) -> Result<Option<LinkedInProfile>, string>)
    requires call.func.name == ExtractTool
    ensures parseArgs(call.func.arguments).Err? ==>
      ExecuteToolCall(call, parseArgs, extract) == ToolFailed(parseArgs(call.func.arguments).error)
    ensures parseArgs(call.func.arguments).Ok? ==>
      var args := parseArgs(call.func.arguments).value;
      && ("email" !in args ==> ExecuteToolCall(call, parseArgs, extract) == ToolFailed("'email'"))
      && ("email" in args && "password" !in args ==> ExecuteToolCall(call, parseArgs, extract) == ToolFailed("'password'"))
      && ("email" in args && "password" in args && "profile_url" !in args ==>
            ExecuteToolCall(call, parseArgs, extract) == ToolFailed("'profile_url'"))
    ensures parseArgs(call.func.arguments).Ok? ==>
      var args := parseArgs(call.func.arguments).value;
      "email" in args && "password" in args && "profile_url" in args ==>
        var outcome := extract(args["email"], args["password"], args["profile_url"]);
        && (outcome.Err? ==> ExecuteToolCall(call, parseArgs, extract) == ToolFailed(outcome.error))
        && (outcome.Ok? ==> ExecuteToolCall(call, parseArgs, extract) == ToolSucceeded(outcome.value))
  {
  }

  // ---------------------------------------------------------------------------------------
  // The conversation after the tools have run
  // ---------------------------------------------------------------------------------------

  /** `ChatMessage(role="tool", content=json.dumps(result["data"]), tool_call_id=tool_call.id)`. */
  function ToolMessage(call: ToolCall, data: Option<LinkedInProfile>, dumps: Option<LinkedInProfile> -> string): ChatMessage {
    ChatMessage(Tool, dumps(data), toolCallId := Some(call.id))
  }

  /** The tool messages for the calls in order, or the error of the first call that fails. */
  function ToolMessages(calls: seq<ToolCall>,
                        parseArgs: string -> Result<map<string, string>, string>,
                        extract: (string, string, string) -> Result<Option<LinkedInProfile>, string>,
                        dumps: Option<LinkedInProfile> -> string)
    : Result<seq<ChatMessage>, string>
  {
    if calls == [] then Ok([])
    else
      var last := calls[|calls| - 1];
      match ToolMessages(calls[..|calls| - 1], parseArgs, extract, dumps)
      case Err(e) => Err(e)
      case Ok(ms) =>
        match ExecuteToolCall(last, parseArgs, extract)
        case ToolFailed(e) => Err(e)
        case ToolSucceeded(data) => Ok(ms + [ToolMessage(last, data, dumps)])
  }

  /** When no call fails there is one tool message per call, in order, answering that call's id with its serialised data. */
  lemma {:induction false} ToolMessagesShape(calls: seq<ToolCall>,
                            parseArgs: string -> Result<map<string, string>, string>,
                            extract: (string, string, string) -> Result<Option<LinkedInProfile>, string>,
                            dumps: Option<LinkedInProfile> -> string)
    requires ToolMessages(calls, parseArgs, extract, dumps).Ok?
    ensures var ms := ToolMessages(calls, parseArgs, extract, dumps).value;
      |ms| == |calls|
      && forall i :: 0 <= i < |calls| ==>
           ExecuteToolCall(calls[i], parseArgs, extract).ToolSucceeded?
           && ms[i] == ToolMessage(calls[i], ExecuteToolCall(calls[i], parseArgs, extract).data, dumps)
  {
    if calls != [] {
      var init := calls[..|calls| - 1];
      ToolMessagesShape(init, parseArgs, extract, dumps);
      assert forall i :: 0 <= i < |init| ==> calls[i] == init[i];
    }
  }

  /** A failure is the error of some call that fails after only successful ones. */
  lemma {:induction false} ToolMessagesFirstFailure(calls: seq<ToolCall>,
                            parseArgs: string -> Result<map<string, string>, string>,
                            extract: (string, string, string) -> Result<Option<LinkedInProfile>, string>,
                            dumps: Option<LinkedInProfile> -> string)
    requires ToolMessages(calls, parseArgs, extract, dumps).Err?
    ensures exists k :: (0 <= k < |calls|
      && ExecuteToolCall(calls[k], parseArgs, extract) == ToolFailed(ToolMessages(calls, parseArgs, extract, dumps).error)
      && forall j :: 0 <= j < k ==> ExecuteToolCall(calls[j], parseArgs, extract).ToolSucceeded?)
  {
    var init := calls[..|calls| - 1];
    var e := ToolMessages(calls, parseArgs, extract, dumps).error;
    if ToolMessages(init, parseArgs, extract, dumps).Err? {
      ToolMessagesFirstFailure(init, parseArgs, extract, dumps);
      var k :| 0 <= k < |init|
        && ExecuteToolCall(init[k], parseArgs, extract) == ToolFailed(e)
        && forall j :: 0 <= j < k ==> ExecuteToolCall(init[j], parseArgs, extract).ToolSucceeded?;
      assert forall j :: 0 <= j <= k ==> calls[j] == init[j];
    } else {
      ToolMessagesShape(init, parseArgs, extract, dumps);
      var k := |calls| - 1;
      assert forall j :: 0 <= j < k ==> calls[j] == init[j];
    }
  }

  /** Once a call has failed, the calls after it make no difference: the outcome is that failure. */
  lemma {:induction false} FailureStops(calls: seq<ToolCall>, n: nat,
                            parseArgs: string -> Result<map<string, string>, string>,
                            extract: (string, string, string) -> Result<Option<LinkedInProfile>, string>,
                            dumps: Option<LinkedInProfile> -> string)
    requires n <= |calls| && ToolMessages(calls[..n], parseArgs, extract, dumps).Err?
    ensures ToolMessages(calls, parseArgs, extract, dumps) == ToolMessages(calls[..n], parseArgs, extract, dumps)
    decreases |calls| - n
  {
    if n < |calls| {
      assert calls[..n + 1][..n] == calls[..n];
      FailureStops(calls, n + 1, parseArgs, extract, dumps);
    } else {
      assert calls[..n] == calls;
    }
  }

  /** The endpoint's answer: the final response or the HTTP error. */
  function ChatOutcome(request: ChatRequest, model: string, instructions: string,
                       client: seq<ApiMessage> -> ClientOutcome,
                       parseArgs: string -> Result<map<string, string>, string>,
                       extract: (string, string, string) -> Result<Option<LinkedInProfile>, string>,
                       dumps: Option<LinkedInProfile> -> string)
    : Result<ChatResponse, HttpError>
  {
    match Completion(model, instructions, request.messages, client)
    case Err(e) => Err(HandleChatError(Raised(e)))
    case Ok(response) =>
      if !NonEmpty(response.message.toolCalls) then Ok(response)
      else
        match ToolMessages(response.message.toolCalls.value, parseArgs, extract, dumps)
        case Err(text) => Err(HandleChatError(Raised(ChatError(PlainChatError, "Tool call failed: " + text))))
        case Ok(toolMessages) =>
          match Completion(model, instructions, request.messages + [response.message] + toolMessages, client)
          case Err(e) => Err(HandleChatError(Raised(e)))
          case Ok(finalResponse) => Ok(finalResponse)
  }

  /**
    Every error the endpoint answers with is a 500: completion errors reach it re-wrapped as
    plain chat errors, and a failing tool raises a plain chat error too.
   */
  lemma ChatErrorsAre500(request: ChatRequest, model: string, instructions: string,
                         client: seq<ApiMessage> -> ClientOutcome,
                         parseArgs: string -> Result<map<string, string>, string>,
                         extract: (string, string, string) -> Result<Option<LinkedInProfile>, string>,
                         dumps: Option<LinkedInProfile> -> string)
    ensures var r := ChatOutcome(request, model, instructions, client, parseArgs, extract, dumps);
      r.Err? ==> r.error.status == InternalServerError
  {
    CompletionErrorsArePlain(model, instructions, request.messages, client);
    var first := Completion(model, instructions, request.messages, client);
    if first.Ok? && NonEmpty(first.value.message.toolCalls) {
      var tms := ToolMessages(first.value.message.toolCalls.value, parseArgs, extract, dumps);
      if tms.Ok? {
        CompletionErrorsArePlain(model, instructions, request.messages + [first.value.message] + tms.value, client);
      }
    }
  }

  /** A failing tool call is answered with status 500 and "Tool call failed: " followed by that call's error. */
  lemma ToolFailureAnswer(request: ChatRequest, model: string, instructions: string,
                          client: seq<ApiMessage> -> ClientOutcome,
                          parseArgs: string -> Result<map<string, string>, string>,
                          extract: (string, string, string) -> Result<Option<LinkedInProfile>, string>,
                          dumps: Option<LinkedInProfile> -> string)
    requires Completion(model, instructions, request.messages, client).Ok?
    requires var calls := Completion(model, instructions, request.messages, client).value.message.toolCalls;
      NonEmpty(calls) && ToolMessages(calls.value, parseArgs, extract, dumps).Err?
    ensures var calls := Completion(model, instructions, request.messages, client).value.message.toolCalls;
      ChatOutcome(request, model, instructions, client, parseArgs, extract, dumps)
        == Err(HttpError(InternalServerError, "Tool call failed: " + ToolMessages(calls.value, parseArgs, extract, dumps).error))
  {
  }

  /**
    `chat(request)`: one completion; without tool calls its response is the answer; otherwise
    each call is executed in turn and its tool message appended, the first failure ends the
    request, and a second completion over the whole conversation is the answer.
   */
  method Chat(request: ChatRequest, model: string, instructions: string,
              client: seq<ApiMessage> -> ClientOutcome,
              parseArgs: string -> Result<map<string, string>, string>,
              extract: (string, string, string) -> Result<Option<LinkedInProfile>, string>,
              dumps: Option<LinkedInProfile> -> string)
    returns (r: Result<ChatResponse, HttpError>)
    ensures r == ChatOutcome(request, model, instructions, client, parseArgs, extract, dumps)
  {
    var first := GetChatCompletion(model, instructions, request.messages, client);
    if first.Err? {
      return Err(HandleChatError(Raised(first.error)));
    }
    var response := first.value;
    if !NonEmpty(response.message.toolCalls) {
      return Ok(response);
    }
    var toolCalls := response.message.toolCalls.value;
    var run := RunToolCalls(request.messages + [response.message], toolCalls, parseArgs, extract, dumps);
    if run.Err? {
      return Err(HandleChatError(Raised(ChatError(PlainChatError, "Tool call failed: " + run.error))));
    }
    var messages := run.value;
    var final := GetChatCompletion(model, instructions, messages, client);
    if final.Err? {
      return Err(HandleChatError(Raised(final.error)));
    }
    r := Ok(final.value);
  }

  /** The loop over the tool calls: each result is appended to `messages` as soon as it is known; the first failure stops it. */
  method RunToolCalls(base: seq<ChatMessage>, toolCalls: seq<ToolCall>,
                      parseArgs: string -> Result<map<string, string>, string>,
                      extract: (string, string, string) -> Result<Option<LinkedInProfile>, string>,
                      dumps: Option<LinkedInProfile> -> string)
    returns (r: Result<seq<ChatMessage>, string>)
    ensures match ToolMessages(toolCalls, parseArgs, extract, dumps)
      case Ok(ms) => r == Ok(base + ms)
      case Err(e) => r == Err(e)
  {
    var messages := base;
    ghost var toolMessages: seq<ChatMessage> := [];
    for i := 0 to |toolCalls|
      invariant ToolMessages(toolCalls[..i], parseArgs, extract, dumps) == Ok(toolMessages)
      invariant messages == base + toolMessages
    {
      var call := toolCalls[i];
      assert toolCalls[..i + 1][..i] == toolCalls[..i];
      var result := ExecuteToolCall(call, parseArgs, extract);
      if result.ToolFailed? {
        FailureStops(toolCalls, i + 1, parseArgs, extract, dumps);
        return Err(result.error);
      }
      var message := ChatMessage(Tool, dumps(result.data), toolCallId := Some(call.id));
      messages := messages + [message];
      toolMessages := toolMessages + [message];
    }
    assert toolCalls[..|toolCalls|] == toolCalls;
    r := Ok(messages);
  }
}
