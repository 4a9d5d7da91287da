/**
 * The Mistral prompt builder for watsonx (`prompt_builders/watsonx/mistral/mistral_prompt_builder.py`).
 * Unlike the other builders it puts the tool information into the LAST ASSISTANT message,
 * or appends a new assistant message holding it. It also converts the history into
 * mistral-common's message kinds for the tokenizer.
 *
 * The configuration and `json.dumps` (with compact separators) are parameters; the
 * tokenizer is not modelled.
 */
module WatsonxMistralPromptBuilder {
  import opened Wrappers
  import opened JsonValue
  import opened PyStr
  import opened ChatMessages
  import opened BasePromptBuilder
  import PyReplace
  import Detection

  // ----- _format_tool_definitions -----

  /** One tool as `{"type": "function", "function": {"name", "description", "parameters"}}`. */
  function ToolJson(t: ToolDefinition): Json
    requires t.parameters.Some?
  {
    JObj([
      ("type", JStr("function")),
      ("function", JObj([
        ("name", JStr(t.name)),
        ("description", if t.description.Some? then JStr(t.description.value) else JNull),
        ("parameters", ParametersJson(t.parameters.value))]))])
  }

  /** One entry per tool, in order. */
  function ToolJsons(tools: seq<ToolDefinition>): (r: seq<Json>)
    requires AllHaveParameters(tools)
    ensures |r| == |tools|
    ensures forall i :: 0 <= i < |tools| ==> r[i] == ToolJson(tools[i])
  {
    if tools == [] then [] else ToolJsons(tools[..|tools| - 1]) + [ToolJson(tools[|tools| - 1])]
  }

  const OpenTag := "[AVAILABLE_TOOLS]"

  const CloseTag := "[/AVAILABLE_TOOLS]"

  /** The block: the header, the tools' JSON and the instructions between the tags. */
  function Block(header: string, toolJson: string, instructions: string): string
  {
    OpenTag + header + "\n\n" + toolJson + "\n\n" + instructions + CloseTag
  }

  /** What `_format_tool_definitions` returns, or the `AttributeError` raised for a tool
      without parameters. */
  function ToolInfo(tools: seq<ToolDefinition>, config: PromptConfig, date: string, dump: Dump): Result<string>
  {
    if !AllHaveParameters(tools) then Failure("AttributeError")
    else Success(Block(ToolHeader(config, tools, date), dump(JArr(ToolJsons(tools))), config.toolInstructions))
  }

  /** `_format_tool_definitions`, appending one dict per tool. */
  method FormatToolDefinitions(tools: seq<ToolDefinition>, config: PromptConfig, date: string, dump: Dump)
    returns (r: Result<string>)
    ensures r == ToolInfo(tools, config, date, dump)
  {
    var formattedTools: seq<Json> := [];
    for i := 0 to |tools|
      invariant AllHaveParameters(tools[..i])
      invariant formattedTools == ToolJsons(tools[..i])
    {
      assert tools[..i + 1][..i] == tools[..i];
      if tools[i].parameters.None? {
        assert tools[i] in tools;
        return Failure("AttributeError");
      }
      formattedTools := formattedTools + [ToolJson(tools[i])];
    }
    assert tools[..|tools|] == tools;
    var toolNames := Names(tools);
    var header := config.header(Join(", ", toolNames), date);
    r := Success(Block(header, dump(JArr(formattedTools)), config.toolInstructions));
  }

  /** The information exists exactly when every tool has parameters; it then opens with
      the tag and the header, holds one JSON entry per tool, and closes with the tag. */
  lemma {:induction false} ToolInfoShape(tools: seq<ToolDefinition>, config: PromptConfig, date: string, dump: Dump)
    ensures ToolInfo(tools, config, date, dump).Success? <==> AllHaveParameters(tools)
    ensures AllHaveParameters(tools) ==>
      var info := ToolInfo(tools, config, date, dump).value;
      PyReplace.StartsWith(info, OpenTag + ToolHeader(config, tools, date) + "\n\n") &&
      |info| >= |CloseTag| && info[|info| - |CloseTag|..] == CloseTag &&
      |ToolJsons(tools)| == |tools|
  {
    if AllHaveParameters(tools) {
      var front := OpenTag + ToolHeader(config, tools, date) + "\n\n";
      var middle := dump(JArr(ToolJsons(tools))) + "\n\n" + config.toolInstructions;
      var info := ToolInfo(tools, config, date, dump).value;
      assert info == front + middle + CloseTag;
      assert (front + middle + CloseTag)[..|front|] == front;
      assert (front + middle + CloseTag)[|front + middle|..] == CloseTag;
    }
  }

  // ----- build_chat -----

  /** The index of the last assistant message, if there is one. */
  function LastAssistant(history: seq<Message>): (r: Option<nat>)
    ensures r.Some? ==> (r.value < |history| && history[r.value].AssistantMessage? &&
      forall j :: r.value < j < |history| ==> !history[j].AssistantMessage?)
    ensures r.None? ==> forall j :: 0 <= j < |history| ==> !history[j].AssistantMessage?
  {
    if history == [] then None
    else if history[|history| - 1].AssistantMessage? then Some(|history| - 1)
    else LastAssistant(history[..|history| - 1])
  }

  /** An assistant message with no assistant message after it is the last one. */
  lemma {:induction false} LastAssistantUnique(history: seq<Message>, k: nat)
    requires k < |history| && history[k].AssistantMessage?
    requires forall j :: k < j < |history| ==> !history[j].AssistantMessage?
    ensures LastAssistant(history) == Some(k)
  {
  }

  /** The history handed to the model: the last assistant message replaced by one holding
      its text, a newline and the tool information (and nothing else), or that information
      appended as a new assistant message. */
  function Chat(history: seq<Message>, info: string): seq<Message>
  {
    var k := LastAssistant(history);
    if k.Some? then history[k.value := AssistantSaying(ReplyText(history[k.value].reply) + "\n" + info)]
    else history + [AssistantSaying(info)]
  }

  /** `conversation_history.copy()`, with room for `extra` more messages. */
  method CopyHistory(history: array<Message>, extra: nat) returns (copy: array<Message>)
    ensures fresh(copy)
    ensures copy.Length == history.Length + extra
    ensures copy[..history.Length] == history[..]
  {
    copy := new Message[history.Length + extra];
    for i := 0 to history.Length
      invariant forall j :: 0 <= j < i ==> copy[j] == history[j]
    {
      copy[i] := history[i];
    }
  }

  /** `build_chat`: the history itself when there are no tools (`None` reads as none),
      the error raised while formatting the tools, or a new list carrying them. */
  method BuildChat(history: array<Message>, tools: seq<ToolDefinition>, config: PromptConfig, date: string, dump: Dump)
    returns (out: Result<array<Message>>)
    ensures tools == [] ==> out == Success(history)
    ensures tools != [] && ToolInfo(tools, config, date, dump).Failure? ==> out == Failure(ToolInfo(tools, config, date, dump).error)
    ensures tools != [] && ToolInfo(tools, config, date, dump).Success? ==>
      out.Success? && fresh(out.value) && out.value[..] == Chat(history[..], ToolInfo(tools, config, date, dump).value)
  {
    if tools == [] {
      return Success(history);
    }
    var info := FormatToolDefinitions(tools, config, date, dump);
    if info.Failure? {
      return Failure(info.error);
    }
    var modified := CopyHistory(history, 0);
    assert modified[..] == history[..];
    var lastAssistantIdx: Option<nat> := None;
    for idx := 0 to modified.Length
      invariant lastAssistantIdx == LastAssistant(modified[..idx])
    {
      assert modified[..idx + 1][..idx] == modified[..idx];
      if modified[idx].AssistantMessage? {
        lastAssistantIdx := Some(idx);
      }
    }
    assert modified[..modified.Length] == history[..];
    if lastAssistantIdx.Some? {
      var existingContent := ReplyText(modified[lastAssistantIdx.value].reply);
      modified[lastAssistantIdx.value] := AssistantSaying(existingContent + "\n" + info.value);
      out := Success(modified);
    } else {
      var extended := CopyHistory(modified, 1);
      extended[modified.Length] := AssistantSaying(info.value);
      assert extended[..] == extended[..modified.Length] + [extended[modified.Length]];
      out := Success(extended);
    }
  }

  /** With an assistant message in the history, the length is kept, the last assistant
      message gets its text, a newline and the information, and every other message is
      unchanged; without one, the information is appended as a new assistant message.
      Either way the message carrying the information is the last assistant message. */
  lemma {:induction false} ChatShape(history: seq<Message>, info: string)
    ensures LastAssistant(history).Some? ==>
      var k := LastAssistant(history).value;
      |Chat(history, info)| == |history| &&
      Chat(history, info)[k] == AssistantSaying(ReplyText(history[k].reply) + "\n" + info) &&
      (forall j :: 0 <= j < |history| && j != k ==> Chat(history, info)[j] == history[j]) &&
      LastAssistant(Chat(history, info)) == Some(k)
    ensures LastAssistant(history).None? ==>
      Chat(history, info) == history + [AssistantSaying(info)] &&
      LastAssistant(Chat(history, info)) == Some(|history|)
  {
    var k := LastAssistant(history);
    var chat := Chat(history, info);
    if k.Some? {
      LastAssistantUnique(chat, k.value);
    } else {
      LastAssistantUnique(chat, |history|);
    }
  }

  // ----- the messages handed to the tokenizer -----

  /** mistral-common's `TextChunk` and `ImageURLChunk`; an image chunk holds the part's
      `image_url` dict, which mistral-common reads as its `ImageURL`. */
  datatype Chunk = TextChunk(text: string) | ImageUrlChunk(imageUrl: Fields)

  /** mistral-common's `ToolCall`, with the arguments as a JSON string. */
  datatype MistralToolCall = MistralToolCall(name: string, arguments: string)

  /** mistral-common's four message kinds. */
  datatype MistralMessage =
    | MistralSystem(content: string)
    | MistralUser(chunks: seq<Chunk>)
    | MistralAssistant(reply: Option<AssistantContent>, toolCalls: Option<seq<MistralToolCall>>)
    | MistralTool(content: string, toolCallId: Option<string>)

  function MistralRole(m: MistralMessage): string
  {
    match m
    case MistralSystem(_) => "system"
    case MistralUser(_) => "user"
    case MistralAssistant(_, _) => "assistant"
    case MistralTool(_, _) => "tool"
  }

  /** What pydantic raises when `ImageURL(url=...)` is handed the part's `image_url` dict
      where mistral-common declares a string. */
  const ImageUrlRejected := "ValidationError: ImageURL.url must be a string"

  /** Whether the part's `detail` is truthy, so that it is wrapped in an `ImageURL`. */
  predicate DetailGiven(detail: Option<string>)
  {
    detail.Some? && detail.value != ""
  }

  /** The chunk for one part of a user message: an image with a truthy `detail` (the
      default `auto` included) passes its `image_url` dict as `ImageURL.url` and is
      refused; one without passes the dict itself. */
  function ChunkOf(p: UserPart): Result<Chunk>
  {
    match p
    case TextPart(t) => Success(TextChunk(t))
    case ImagePart(url, detail) => if DetailGiven(detail) then Failure(ImageUrlRejected) else Success(ImageUrlChunk(url))
  }

  /** The part a chunk came from. */
  function PartOf(c: Chunk): UserPart
  {
    match c
    case TextChunk(t) => TextPart(t)
    case ImageUrlChunk(url) => ImagePart(url, None)
  }

  /** A part converts exactly when it is text or an image without a detail, and then to
      a chunk of the same kind it can be recovered from; an image with a detail is
      refused. The empty detail, which the `low`/`high`/`auto` literal excludes, is left
      aside. */
  lemma {:induction false} ChunkRoundTrip(p: UserPart)
    requires !(p.ImagePart? && p.detail == Some(""))
    ensures ChunkOf(p).Success? <==> p.TextPart? || p.detail.None?
    ensures ChunkOf(p).Failure? ==> ChunkOf(p).error == ImageUrlRejected
    ensures ChunkOf(p).Success? ==> PartOf(ChunkOf(p).value) == p
    ensures ChunkOf(p).Success? ==> (ChunkOf(p).value.TextChunk? <==> p.TextPart?)
  {
  }

  /** Whether every part converts. */
  predicate AllConvert(parts: seq<UserPart>)
  {
    forall i :: 0 <= i < |parts| ==> ChunkOf(parts[i]).Success?
  }

  /** The chunks of a user message's content, or the error of the first part refused. */
  function UserChunks(content: UserContent): (r: Result<seq<Chunk>>)
    ensures content.PlainText? ==> r == Success([TextChunk(content.text)])
    ensures content.Parts? ==> (r.Success? <==> AllConvert(content.parts))
    ensures r.Failure? ==> r.error == ImageUrlRejected
    ensures content.Parts? && r.Success? ==> (|r.value| == |content.parts| &&
      forall i :: 0 <= i < |content.parts| ==> r.value[i] == ChunkOf(content.parts[i]).value)
  {
    if content.PlainText? then Success([TextChunk(content.text)])
    else if !AllConvert(content.parts) then Failure(ImageUrlRejected)
    else Success(seq(|content.parts|, i requires 0 <= i < |content.parts| => ChunkOf(content.parts[i]).value))
  }

  /** Converting a list of parts that succeeds can be undone part by part. */
  lemma {:induction false} UserChunksRoundTrip(parts: seq<UserPart>)
    requires forall i :: 0 <= i < |parts| ==> !(parts[i].ImagePart? && parts[i].detail == Some(""))
    requires UserChunks(Parts(parts)).Success?
    ensures |UserChunks(Parts(parts)).value| == |parts|
    ensures forall i :: 0 <= i < |parts| ==> PartOf(UserChunks(Parts(parts)).value[i]) == parts[i]
  {
    forall i | 0 <= i < |parts| ensures PartOf(UserChunks(Parts(parts)).value[i]) == parts[i] {
      ChunkRoundTrip(parts[i]);
    }
  }

  /** `_convert_user_content`: one text chunk for a string, one chunk per part otherwise,
      and the `ValidationError` at the first image part with a detail. */
  method ConvertUserContent(content: UserContent) returns (r: Result<seq<Chunk>>)
    ensures r == UserChunks(content)
  {
    if content.PlainText? {
      return Success([TextChunk(content.text)]);
    }
    var converted: seq<Chunk> := [];
    for i := 0 to |content.parts|
      invariant |converted| == i
      invariant forall j :: 0 <= j < i ==> ChunkOf(content.parts[j]).Success? && converted[j] == ChunkOf(content.parts[j]).value
    {
      var item := content.parts[i];
      if item.TextPart? {
        converted := converted + [TextChunk(item.text)];
      } else if DetailGiven(item.detail) {
        return Failure(ImageUrlRejected);
      } else {
        converted := converted + [ImageUrlChunk(item.imageUrl)];
      }
    }
    assert AllConvert(content.parts);
    assert converted == UserChunks(content).value;
    return Success(converted);
  }

  /** The arguments as sent: a string as it is, anything else JSON-encoded. */
  function ArgumentsText(arguments: Json, dump: Dump): string
  {
    if arguments.JStr? then arguments.s else dump(arguments)
  }

  /** `_create_tool_call`. */
  function CreateToolCall(tc: Detection.ToolCall, dump: Dump): MistralToolCall
  {
    MistralToolCall(tc.func.name, ArgumentsText(JObj(tc.func.arguments), dump))
  }

  /** A tool call keeps its name; its arguments, always a dict, are JSON-encoded, and only
      arguments that are already a string would be passed through. */
  lemma {:induction false} CreateToolCallEncodes(tc: Detection.ToolCall, dump: Dump, s: string)
    ensures CreateToolCall(tc, dump) == MistralToolCall(tc.func.name, dump(JObj(tc.func.arguments)))
    ensures ArgumentsText(JStr(s), dump) == s
  {
  }

  /** What `_process_conversation_history` makes of one message, or the error it raises. */
  function Processed(m: Message, dump: Dump): Result<MistralMessage>
  {
    match m
    case SystemMessage(c) => Success(MistralSystem(c))
    case UserMessage(body) =>
      (match UserChunks(body)
       case Failure(e) => Failure(e)
       case Success(chunks) => Success(MistralUser(chunks)))
    case AssistantMessage(reply, _, toolCalls) =>
      if toolCalls.Some? && toolCalls.value != [] then
        Success(MistralAssistant(None, Some(seq(|toolCalls.value|, i requires 0 <= i < |toolCalls.value| => CreateToolCall(toolCalls.value[i], dump)))))
      else Success(MistralAssistant(reply, None))
    case ToolMessage(_, c, id) => Success(MistralTool(c, id))
  }

  /** `_process_conversation_history`: one converted message per message, in order, or the
      error of the first message that cannot be converted. */
  method ProcessConversationHistory(history: seq<Message>, dump: Dump) returns (r: Result<seq<MistralMessage>>)
    ensures r.Success? <==> forall i :: 0 <= i < |history| ==> Processed(history[i], dump).Success?
    ensures r.Failure? ==> r.error == ImageUrlRejected
    ensures r.Success? ==> (|r.value| == |history| &&
      forall i :: 0 <= i < |history| ==> r.value[i] == Processed(history[i], dump).value)
  {
    var messages: seq<MistralMessage> := [];
    for i := 0 to |history|
      invariant |messages| == i
      invariant forall j :: 0 <= j < i ==> Processed(history[j], dump).Success? && messages[j] == Processed(history[j], dump).value
    {
      var msg := history[i];
      match msg
      case SystemMessage(c) =>
        messages := messages + [MistralSystem(c)];
      case UserMessage(body) =>
        var mistralContent := ConvertUserContent(body);
        if mistralContent.Failure? {
          return Failure(mistralContent.error);
        }
        messages := messages + [MistralUser(mistralContent.value)];
      case AssistantMessage(reply, _, toolCalls) =>
        if toolCalls.Some? && toolCalls.value != [] {
          var calls := seq(|toolCalls.value|, k requires 0 <= k < |toolCalls.value| => CreateToolCall(toolCalls.value[k], dump));
          messages := messages + [MistralAssistant(None, Some(calls))];
        } else {
          messages := messages + [MistralAssistant(reply, None)];
        }
      case ToolMessage(_, c, id) =>
        messages := messages + [MistralTool(c, id)];
    }
    return Success(messages);
  }

  /** Only a user message can be refused, exactly when one of its parts is an image with
      a detail. Each converted message keeps its role; a user message gets one chunk per
      part (one for a string); an assistant message with tool calls keeps their names in
      order and drops its content, and one without keeps its content; a tool message
      keeps its content and call id. */
  lemma {:induction false} ProcessedShape(m: Message, dump: Dump)
    ensures Processed(m, dump).Failure? <==>
      m.UserMessage? && m.body.Parts? && exists i :: 0 <= i < |m.body.parts| && m.body.parts[i].ImagePart? && DetailGiven(m.body.parts[i].detail)
    ensures Processed(m, dump).Success? ==> MistralRole(Processed(m, dump).value) == Role(m)
    ensures m.UserMessage? && Processed(m, dump).Success? ==>
      |Processed(m, dump).value.chunks| == (if m.body.PlainText? then 1 else |m.body.parts|)
    ensures m.AssistantMessage? && m.toolCalls.Some? && m.toolCalls.value != [] ==>
      Processed(m, dump).value.reply.None? && Processed(m, dump).value.toolCalls.Some? &&
      |Processed(m, dump).value.toolCalls.value| == |m.toolCalls.value| &&
      forall i :: 0 <= i < |m.toolCalls.value| ==> Processed(m, dump).value.toolCalls.value[i].name == m.toolCalls.value[i].func.name
    ensures m.AssistantMessage? && !(m.toolCalls.Some? && m.toolCalls.value != []) ==>
      Processed(m, dump) == Success(MistralAssistant(m.reply, None))
    ensures m.ToolMessage? ==> Processed(m, dump) == Success(MistralTool(m.content, m.toolCallId))
  {
    if m.UserMessage? && m.body.Parts? && !AllConvert(m.body.parts) {
      var i :| 0 <= i < |m.body.parts| && ChunkOf(m.body.parts[i]).Failure?;
      assert m.body.parts[i].ImagePart? && DetailGiven(m.body.parts[i].detail);
    }
  }
}
