/**
 * The OpenAI prompt builder (`prompt_builders/openai/openai_prompt_builder.py`): the tool
 * information goes into the leading system message, or into a new one put first.
 */
module OpenAiPromptBuilder {
  import opened Wrappers
  import opened ChatMessages
  import opened BasePromptBuilder
  import PyReplace
  import JsonValue

  /** A leading system message under a `## tools:` heading, followed by the tool information. */
  function Merged(existing: string, info: string): string
  {
    "## tools:\n\n" + existing + "\n" + info + "\n\n"
  }

  /** The history handed to the model once the tool information is known. */
  function Chat(history: seq<Message>, info: string): seq<Message>
  {
    WithSystem(history, Merged(Existing(history), info), info)
  }

  /** `build_chat`: the history itself when there are no tools (`None` reads as none),
      the error raised while building the tool information, or a new list carrying it. */
  method BuildChat(history: array<Message>, tools: seq<ToolDefinition>, config: PromptConfig, date: string, dump: Dump)
    returns (out: Result<array<Message>>)
    ensures tools == [] ==> out == Success(history)
    ensures tools != [] && ToolInfo(tools, config, date, dump).Failure? ==> out == Failure(ToolInfo(tools, config, date, dump).error)
    ensures tools != [] && ToolInfo(tools, config, date, dump).Success? ==>
      out.Success? && fresh(out.value) && out.value[..] == Chat(history[..], ToolInfo(tools, config, date, dump).value)
  {
    if tools == [] {
      return Success(history);
    }
    var info := ComputeToolInfo(tools, config, date, dump);
    if info.Failure? {
      return Failure(info.error);
    }
    var modified := CopyWithSystem(history, Merged(Existing(history[..]), info.value), info.value);
    return Success(modified);
  }

  /** A leading system message keeps the length and becomes the heading, its text and the
      tool information; otherwise the tool information is a new first message. The other
      messages are unchanged. */
  lemma {:induction false} ChatShape(history: seq<Message>, info: string)
    ensures StartsWithSystem(history) ==>
      |Chat(history, info)| == |history| &&
      Chat(history, info)[0] == SystemMessage("## tools:\n\n" + history[0].content + "\n" + info + "\n\n") &&
      Chat(history, info)[1..] == history[1..]
    ensures !StartsWithSystem(history) ==>
      Chat(history, info) == [SystemMessage(info)] + history
  {
  }

  /** `build_text` always raises `NotImplementedError`. */
  function BuildText(context: seq<(string, JsonValue.Json)>): (r: Result<string>)
    ensures r.Failure?
  {
    Failure("NotImplementedError: OpenAI models primarily use chat completions. Use build_chat() instead.")
  }
}
