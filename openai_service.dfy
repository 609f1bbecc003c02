/**
  `get_chat_completion` of `app/services/openai_service.py`: the conversion of the chat
  history to the completion API's message shape, the conversion of the reply, and the two
  layers of error handling.  The completion API itself is a parameter (`client`) that
  returns a reply or a failure.
 */
module OpenAiService {
  import opened Wrappers
  import opened Strings
  import opened ChatModels

  // ---------------------------------------------------------------------------------------
  // Errors
  // ---------------------------------------------------------------------------------------

  /** `ChatError` and its three subclasses. */
  datatype ErrorClass = PlainChatError | ModelNotAvailable | ApiConnection | RateLimitExceeded

  /** A raised chat error: its class and `str(e)`. */
  datatype ChatError = ChatError(kind: ErrorClass, message: string)

  /**
    What the client call can end in.  With the `openai` package, rate-limit and connection
    errors are subclasses of `APIError`, so every failure the package reports is an
    `ApiFailure`; anything else raised while the reply is read (an empty `choices` list,
    say) is an `OtherFailure`.
   */
  datatype ClientOutcome = Replied(reply: AssistantReply) | ApiFailure(text: string) | OtherFailure(text: string)

  /** A tool call as the API returns it. */
  datatype ApiToolCall = ApiToolCall(id: string, kind: string, name: string, arguments: string)

  /** `response.choices[0].message`: optional content and optional tool calls. */
  datatype AssistantReply = AssistantReply(content: Option<string>, toolCalls: Option<seq<ApiToolCall>>)

  // ---------------------------------------------------------------------------------------
  // Messages sent
  // ---------------------------------------------------------------------------------------

  /** A message in the API's shape: `{"role", "content"}` plus `"tool_call_id"` when there is one. */
  datatype ApiMessage = ApiMessage(role: string, content: string, toolCallId: Option<string>)

  /** One history message: role name and content; the call id only when it is non-empty; tool calls and name are dropped. */
  function ApiMessageOf(m: ChatMessage): (r: ApiMessage)
    ensures r.role == m.role.Name() && r.content == m.content
    ensures r.toolCallId.Some? <==> Truthy(m.toolCallId)
    ensures r.toolCallId.Some? ==> r.toolCallId == m.toolCallId
  {
    ApiMessage(m.role.Name(), m.content, if Truthy(m.toolCallId) then m.toolCallId else None)
  }

  function ApiMessagesOf(ms: seq<ChatMessage>): (r: seq<ApiMessage>)
    ensures |r| == |ms| && forall i :: 0 <= i < |ms| ==> r[i] == ApiMessageOf(ms[i])
  {
    if ms == [] then [] else ApiMessagesOf(ms[..|ms| - 1]) + [ApiMessageOf(ms[|ms| - 1])]
  }

  /** The fixed developer message; `instructions` is its text. */
  function DeveloperMessage(instructions: string): ApiMessage {
    ApiMessage(Developer.Name(), instructions, None)
  }

  /** The list sent to the API: the developer message, then every history message in order. */
  function ApiMessages(instructions: string, ms: seq<ChatMessage>): (r: seq<ApiMessage>)
    ensures |r| == |ms| + 1 && r[0] == DeveloperMessage(instructions)
    ensures forall i :: 0 <= i < |ms| ==> r[i + 1] == ApiMessageOf(ms[i])
  {
    [DeveloperMessage(instructions)] + ApiMessagesOf(ms)
  }

  /** The conversion loop: `openai_messages.append(...)` once for the developer message and once per message. */
  method ConvertMessages(instructions: string, messages: seq<ChatMessage>) returns (apiMessages: seq<ApiMessage>)
    ensures apiMessages == ApiMessages(instructions, messages)
  {
    apiMessages := [DeveloperMessage(instructions)];
    for i := 0 to |messages|
      invariant apiMessages == [DeveloperMessage(instructions)] + ApiMessagesOf(messages[..i])
    {
      var msg := messages[i];
      var message := ApiMessage(msg.role.Name(), msg.content, None);
      if Truthy(msg.toolCallId) {
        message := message.(toolCallId := msg.toolCallId);
      }
      assert message == ApiMessageOf(msg);
      assert messages[..i + 1][..i] == messages[..i];
      assert ApiMessagesOf(messages[..i + 1]) == ApiMessagesOf(messages[..i]) + [message];
      apiMessages := apiMessages + [message];
    }
    assert messages[..|messages|] == messages;
  }

  // ---------------------------------------------------------------------------------------
  // The reply
  // ---------------------------------------------------------------------------------------

  function ToolCallOf(t: ApiToolCall): ToolCall {
    ToolCall(t.id, FunctionCall(t.name, t.arguments), t.kind)
  }

  function ToolCallsOf(ts: seq<ApiToolCall>): (r: seq<ToolCall>)
    ensures |r| == |ts| && forall i :: 0 <= i < |ts| ==> r[i] == ToolCallOf(ts[i])
  {
    if ts == [] then [] else ToolCallsOf(ts[..|ts| - 1]) + [ToolCallOf(ts[|ts| - 1])]
  }

  /** The reply as a `ChatMessage`: role `assistant`, content `""` when missing or empty, tool calls `None` when there are none. */
  function ReplyMessage(reply: AssistantReply): (m: ChatMessage)
    ensures m.role == Assistant
    ensures m.content == if Truthy(reply.content) then reply.content.value else ""
    ensures m.toolCalls.None? <==> !NonEmpty(reply.toolCalls)
    ensures m.toolCallId.None? && m.name.None?
  {
    ChatMessage(
      Assistant,
      if Truthy(reply.content) then reply.content.value else "",
      if NonEmpty(reply.toolCalls) then Some(ToolCallsOf(reply.toolCalls.value)) else None)
  }

  /** Each returned tool call keeps its id, type, function name and arguments, in order. */
  lemma ReplyToolCalls(reply: AssistantReply)
    requires NonEmpty(reply.toolCalls)
    ensures var calls := ReplyMessage(reply).toolCalls.value;
      |calls| == |reply.toolCalls.value|
      && forall i :: 0 <= i < |calls| ==>
           var t := reply.toolCalls.value[i];
           calls[i].id == t.id && calls[i].kind == t.kind
           && calls[i].func.name == t.name && calls[i].func.arguments == t.arguments
  {
  }

  // ---------------------------------------------------------------------------------------
  // Error handling
  // ---------------------------------------------------------------------------------------

  const ModelNotFound := "model not found"

  /** The inner `except` clauses: how a failed client call is first mapped to a chat error. */
  function InnerError(model: string, outcome: ClientOutcome): ChatError
    requires !outcome.Replied?
  {
    match outcome
    case ApiFailure(t) =>
      if Contains(Lower(t), ModelNotFound) then ChatError(ModelNotAvailable, "Model " + model + " is not available. Error: " + t)
      else ChatError(PlainChatError, "OpenAI API error: " + t)
    case OtherFailure(t) => ChatError(PlainChatError, "Unexpected error during chat completion: " + t)
  }

  /** An API error is reported as an unavailable model exactly when its text mentions "model not found" in any letter case; nothing else is. */
  lemma InnerErrorClass(model: string, outcome: ClientOutcome)
    requires !outcome.Replied?
    ensures InnerError(model, outcome).kind == ModelNotAvailable <==> outcome.ApiFailure? && Contains(Lower(outcome.text), ModelNotFound)
    ensures InnerError(model, outcome).kind in {ModelNotAvailable, PlainChatError}
    ensures EndsWith(InnerError(model, outcome).message, outcome.text)
  {
    var e := InnerError(model, outcome);
    var t := outcome.text;
    var k := |e.message| - |t|;
    assert e.message[k..] == t;
  }

  /** The outer `except Exception`: every error, of whatever class, becomes a plain `ChatError`. */
  function Rewrap(e: ChatError): ChatError {
    ChatError(PlainChatError, "Chat service error: " + e.message)
  }

  /** `get_chat_completion(messages)` against the client. */
  function Completion(model: string, instructions: string, messages: seq<ChatMessage>,
                      client: seq<ApiMessage> -> ClientOutcome): Result<ChatResponse, ChatError>
  {
    var outcome := client(ApiMessages(instructions, messages));
    if outcome.Replied? then Ok(ChatResponse(ReplyMessage(outcome.reply)))
    else Err(Rewrap(InnerError(model, outcome)))
  }

  /**
    Callers only ever see a plain `ChatError` whose message starts with "Chat service error: ":
    never `ModelNotAvailableError`, `APIConnectionError` or `RateLimitExceededError`.
   */
  lemma CompletionErrorsArePlain(model: string, instructions: string, messages: seq<ChatMessage>,
                                 client: seq<ApiMessage> -> ClientOutcome)
    ensures var r := Completion(model, instructions, messages, client);
      r.Err? ==> r.error.kind == PlainChatError && StartsWith(r.error.message, "Chat service error: ")
  {
    var r := Completion(model, instructions, messages, client);
    if r.Err? {
      StartsWithConcat("Chat service error: ", InnerError(model, client(ApiMessages(instructions, messages))).message);
    }
  }

  /** A successful completion answers with one assistant message built from the client's reply to the converted history. */
  lemma CompletionReply(model: string, instructions: string, messages: seq<ChatMessage>,
                        client: seq<ApiMessage> -> ClientOutcome)
    ensures var outcome := client(ApiMessages(instructions, messages));
      Completion(model, instructions, messages, client).Ok? <==> outcome.Replied?
    ensures var r := Completion(model, instructions, messages, client);
      r.Ok? ==> r.value.message.role == Assistant && r.value.profileData.None? && !r.value.requiresTool
  {
  }

  /** `get_chat_completion`: convert, call the client, convert the reply or map the failure. */
  method GetChatCompletion(model: string, instructions: string, messages: seq<ChatMessage>,
                           client: seq<ApiMessage> -> ClientOutcome)
    returns (r: Result<ChatResponse, ChatError>)
    ensures r == Completion(model, instructions, messages, client)
  {
    var apiMessages := ConvertMessages(instructions, messages);
    var outcome := client(apiMessages);
    if outcome.Replied? {
      var assistant := outcome.reply;
      var toolCalls: Option<seq<ToolCall>> := None;
      if NonEmpty(assistant.toolCalls) {
        toolCalls := Some(ToolCallsOf(assistant.toolCalls.value));
      }
      var content := if Truthy(assistant.content) then assistant.content.value else "";
      return Ok(ChatResponse(ChatMessage(Assistant, content, toolCalls)));
    }
    var inner := InnerError(model, outcome);
    r := Err(Rewrap(inner));
  }
}
