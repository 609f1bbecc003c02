/**
  The chat records of `app/models/chat.py`.  Dictionaries whose shape the code never looks
  into (`tool_outputs`, `profile_data`) are kept as their JSON text.
 */
module ChatModels {
  import opened Wrappers

  /** `ToolCall.function` (here `func`): the two keys every producer of a tool call fills in. */
  datatype FunctionCall = FunctionCall(name: string, arguments: string)

  datatype ToolCall = ToolCall(id: string, func: FunctionCall, kind: string := "function")

  /** `Literal["user", "assistant", "developer", "system", "tool"]`. */
  datatype Role = User | Assistant | Developer | System | Tool {
    function Name(): string {
      match this
      case User => "user"
      case Assistant => "assistant"
      case Developer => "developer"
      case System => "system"
      case Tool => "tool"
    }
  }

  /** Validation of the `role` field: only the five literal names are accepted. */
  function ParseRole(s: string): (r: Option<Role>)
    ensures r.Some? ==> r.value.Name() == s
  {
    if s == "user" then Some(User)
    else if s == "assistant" then Some(Assistant)
    else if s == "developer" then Some(Developer)
    else if s == "system" then Some(System)
    else if s == "tool" then Some(Tool)
    else None
  }

  /** Every role's name is accepted and read back as that role, so the five names are distinct. */
  lemma ParseRoleName(r: Role)
    ensures ParseRole(r.Name()) == Some(r)
  {
    match r
    case User =>
    case Assistant =>
      assert r.Name()[0] != "user"[0];
    case Developer =>
      assert r.Name()[0] != "user"[0] && r.Name()[0] != "assistant"[0];
    case System =>
      assert r.Name()[0] != "user"[0] && r.Name()[0] != "assistant"[0] && r.Name()[0] != "developer"[0];
    case Tool =>
      assert r.Name()[0] != "user"[0] && r.Name()[0] != "assistant"[0] && r.Name()[0] != "developer"[0];
      assert r.Name()[0] != "system"[0];
  }

  datatype ChatMessage = ChatMessage(
    role: Role,
    content: string,
    toolCalls: Option<seq<ToolCall>> := None,
    toolCallId: Option<string> := None,
    name: Option<string> := None)

  datatype ChatRequest = ChatRequest(messages: seq<ChatMessage>, toolOutputs: Option<seq<string>> := None)

  datatype ChatResponse = ChatResponse(message: ChatMessage, profileData: Option<string> := None, requiresTool: bool := false)

  /** Records built from their required fields alone take the declared defaults. */
  lemma Defaults(id: string, f: FunctionCall, role: Role, content: string, messages: seq<ChatMessage>)
    ensures ToolCall(id, f).kind == "function"
    ensures var m := ChatMessage(role, content); m.toolCalls.None? && m.toolCallId.None? && m.name.None?
    ensures ChatRequest(messages).toolOutputs.None?
    ensures var r := ChatResponse(ChatMessage(role, content)); r.profileData.None? && !r.requiresTool
  {
  }
}
