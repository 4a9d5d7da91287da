/**
 * The values the detection strategies read and produce: the streamed chunk records of
 * `api/sse_models.py` (only the fields the strategies and the agent look at), the tool
 * calls of `data_models/chat_completions.py`, and `DetectionState`/`DetectionResult` of
 * `llm/tool_detection/detection_result.py`.
 *
 * Pydantic validation is kept only where a strategy can fail it: a `FunctionDetail` needs
 * a string name and a dict of arguments, a `ToolCall` the type `"function"`. Its error
 * messages are abstracted to the name of the model that rejected the value.
 */
module Detection {
  import opened Wrappers
  import opened JsonValue

  datatype SseFunction = SseFunction(name: string, arguments: string)

  datatype SseToolCall = SseToolCall(index: int, id: Option<string>, func: Option<SseFunction>)

  datatype SseDelta = SseDelta(role: Option<string>, content: Option<string>, toolCalls: Option<seq<SseToolCall>>)

  datatype SseChoice = SseChoice(index: int, delta: SseDelta, finishReason: Option<string>)

  datatype SseChunk = SseChunk(id: string, object: string, choices: seq<SseChoice>, threadId: Option<string>)

  datatype DetectionState = NoMatch | PartialMatch | CompleteMatch

  datatype FunctionDetail = FunctionDetail(name: string, arguments: seq<(string, Json)>)

  /** A tool call; its type is always `"function"`, the only value the model accepts. */
  datatype ToolCall = ToolCall(id: string, func: FunctionDetail)

  datatype DetectionResult = DetectionResult(
    state: DetectionState,
    toolCalls: Option<seq<ToolCall>>,
    content: Option<string>,
    sseChunk: Option<SseChunk>)

  /** A result with only the state, and the chunk when one is given. */
  function Bare(state: DetectionState, chunk: Option<SseChunk>): (r: DetectionResult)
    ensures r.state == state && r.toolCalls == None && r.content == None && r.sseChunk == chunk
  {
    DetectionResult(state, None, None, chunk)
  }

  /** Python's truthiness of an optional string: present and non-empty. */
  predicate Truthy(s: Option<string>)
  {
    s.Some? && s.value != []
  }

  /** `ToolCall(id=..., type=..., function=FunctionDetail(name=..., arguments=...))`:
      the function detail is validated first, then the type. */
  function MakeToolCall(id: string, kind: Json, name: Json, arguments: Json): (r: Result<ToolCall>)
    ensures r.Success? <==> name.JStr? && arguments.JObj? && kind == JStr("function")
    ensures r.Success? ==> r.value == ToolCall(id, FunctionDetail(name.s, arguments.fields))
  {
    if !(name.JStr? && arguments.JObj?) then Failure("validation error for FunctionDetail")
    else if kind != JStr("function") then Failure("validation error for ToolCall")
    else Success(ToolCall(id, FunctionDetail(name.s, arguments.fields)))
  }
}
