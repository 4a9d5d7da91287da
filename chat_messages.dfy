/**
 * The chat messages of `data_models/chat_completions.py` and the tool definitions of
 * `data_models/tools.py`, as the API route, the Watson Assistant conversion and the prompt
 * builders see them once validated: a message is one of the four roles, a user message
 * holds a string or a list of text and image parts, and an assistant message may hold
 * content, a refusal and tool calls.
 */
module ChatMessages {
  import opened Wrappers
  import opened JsonValue
  import Detection

  type Fields = seq<(string, Json)>

  /** `UserTextContent` or `UserImageURLContent` (whose detail defaults to `auto`). */
  datatype UserPart = TextPart(text: string) | ImagePart(imageUrl: Fields, detail: Option<string>)

  /** A user message's content: a plain string or a list of parts. */
  datatype UserContent = PlainText(text: string) | Parts(parts: seq<UserPart>)

  /** An assistant message's content: a string or a list of dicts. */
  datatype AssistantContent = AssistantText(text: string) | AssistantParts(parts: seq<Fields>)

  /** `TextChatMessage`, discriminated by role. */
  datatype Message =
    | SystemMessage(content: string)
    | UserMessage(body: UserContent)
    | AssistantMessage(reply: Option<AssistantContent>, refusal: Option<string>, toolCalls: Option<seq<Detection.ToolCall>>)
    | ToolMessage(name: string, content: string, toolCallId: Option<string>)

  /** The `tool_call_id` a tool message gets when none is given. */
  const DefaultToolCallId := "123abcdef"

  function Role(m: Message): string
  {
    match m
    case SystemMessage(_) => "system"
    case UserMessage(_) => "user"
    case AssistantMessage(_, _, _) => "assistant"
    case ToolMessage(_, _, _) => "tool"
  }

  /** An assistant message holding only a string, as `AssistantMessage(content=text)` builds it. */
  function AssistantSaying(text: string): Message
  {
    AssistantMessage(Some(AssistantText(text)), None, None)
  }

  /** The text of `msg.content` in an f-string; the text Python prints for list content is
      not modelled and reads as empty. */
  function ContentText(m: Message): string
  {
    match m
    case SystemMessage(c) => c
    case UserMessage(body) => if body.PlainText? then body.text else ""
    case AssistantMessage(reply, _, _) =>
      if reply.None? then "None" else if reply.value.AssistantText? then reply.value.text else ""
    case ToolMessage(_, c, _) => c
  }

  /** `msg.content` when it is a string; `None` when it is `None` or a list of parts. */
  function StringContent(m: Message): Option<string>
  {
    match m
    case SystemMessage(c) => Some(c)
    case UserMessage(body) => if body.PlainText? then Some(body.text) else None
    case AssistantMessage(reply, _, _) =>
      if reply.Some? && reply.value.AssistantText? then Some(reply.value.text) else None
    case ToolMessage(_, c, _) => Some(c)
  }

  /** `msg.content or ""` for an assistant message; a non-empty list's text is not
      modelled and reads as empty. */
  function ReplyText(reply: Option<AssistantContent>): string
  {
    if reply.Some? && reply.value.AssistantText? then reply.value.text else ""
  }

  /** `FunctionParameters`: its `properties` map each parameter to its schema. */
  datatype FunctionParameters = FunctionParameters(
    kind: string,
    properties: seq<(string, Fields)>,
    required: Option<seq<string>>,
    additionalProperties: Option<bool>)

  /** `parameters.model_dump()`: every field, unset ones as `None`. */
  function ParametersJson(p: FunctionParameters): Json
  {
    JObj([
      ("type", JStr(p.kind)),
      ("properties", JObj(seq(|p.properties|, i requires 0 <= i < |p.properties| => (p.properties[i].0, JObj(p.properties[i].1))))),
      ("required", if p.required.Some? then JArr(seq(|p.required.value|, i requires 0 <= i < |p.required.value| => JStr(p.required.value[i]))) else JNull),
      ("additionalProperties", if p.additionalProperties.Some? then JBool(p.additionalProperties.value) else JNull)])
  }

  /** `Tool` with its `Function`; the tool type is always `function`. */
  datatype ToolDefinition = ToolDefinition(
    name: string,
    description: Option<string>,
    parameters: Option<FunctionParameters>,
    strict: Option<bool>)
}
