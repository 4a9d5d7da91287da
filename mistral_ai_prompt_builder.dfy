/**
 * The Mistral AI prompt builder (`prompt_builders/mistral_ai/mistral_ai_prompt_builder.py`):
 * the tool information, wrapped in `[AVAILABLE_TOOLS]` tags, is appended to the leading
 * system message or put first as a new one.
 */
module MistralAiPromptBuilder {
  import opened Wrappers
  import opened ChatMessages
  import opened BasePromptBuilder
  import PyReplace

  /** A leading system message followed by a blank line and the wrapped tool information. */
  function Merged(existing: string, info: string): string
  {
    existing + "\n\n" + Wrapped(info)
  }

  /** A new system message holds the wrapped tool information. */
  function Inserted(info: string): string
  {
    Wrapped(info)
  }

  /** The history handed to the model once the tool information is known. */
  function Chat(history: seq<Message>, info: string): seq<Message>
  {
    WithSystem(history, Merged(Existing(history), info), Inserted(info))
  }

  /** `build_chat`: the history itself when there are no tools (`None` reads as none),
      the error raised while building the tool information, or a new list carrying it. */
  method BuildChat(history: array<Message>, tools: seq<ToolDefinition>, config: PromptConfig, date: string, dump: Dump)
    returns (out: Result<array<Message>>)
    ensures tools == [] ==> out == Success(history)
    ensures tools != [] && ToolInfo(tools, config, date, dump).Failure? ==> out == Failure(ToolInfo(tools, config, date, dump).error)
    ensures tools != [] && ToolInfo(tools, config, date, dump).Success? ==>
      out.Success? && fresh(out.value) && out.value[..] == Chat(history[..], ToolInfo(tools, config, date, dump).value)
  {
    if tools == [] {
      return Success(history);
    }
    var info := ComputeToolInfo(tools, config, date, dump);
    if info.Failure? {
      return Failure(info.error);
    }
    var modified := CopyWithSystem(history, Merged(Existing(history[..]), info.value), Inserted(info.value));
    return Success(modified);
  }

  /** The tool information between `[AVAILABLE_TOOLS]` tags, each on its own line. */
  function Wrapped(info: string): string
  {
    "[AVAILABLE_TOOLS]\n" + info + "\n[/AVAILABLE_TOOLS]"
  }

  /** A leading system message keeps the length and gets the wrapped information after a
      blank line; otherwise the wrapped information is a new first message. The other
      messages are unchanged. */
  lemma {:induction false} ChatShape(history: seq<Message>, info: string)
    ensures StartsWithSystem(history) ==>
      |Chat(history, info)| == |history| &&
      Chat(history, info)[0] == SystemMessage(history[0].content + "\n\n" + Wrapped(info)) &&
      Chat(history, info)[1..] == history[1..]
    ensures !StartsWithSystem(history) ==>
      Chat(history, info) == [SystemMessage(Wrapped(info))] + history
  {
  }

  /** The wrapped information opens with the tag on its own line and closes with the
      closing tag on its own line, the information between them unchanged. */
  lemma {:induction false} WrappedShape(info: string)
    ensures var w := Wrapped(info);
      PyReplace.StartsWith(w, "[AVAILABLE_TOOLS]\n") && |w| == |info| + 37 &&
      w[18..18 + |info|] == info && w[18 + |info|..] == "\n[/AVAILABLE_TOOLS]"
  {
    var w := Wrapped(info);
    assert w == "[AVAILABLE_TOOLS]\n" + info + "\n[/AVAILABLE_TOOLS]";
    assert |"[AVAILABLE_TOOLS]\n"| == 18;
    assert |"\n[/AVAILABLE_TOOLS]"| == 19;
  }

  /** `build_text` always raises `NotImplementedError`. */
  function BuildText(history: seq<Message>, tools: seq<ToolDefinition>): (r: Result<string>)
    ensures r.Failure?
  {
    Failure("NotImplementedError: Mistral models primarily use chat completions. Use build_chat() instead.")
  }
}
