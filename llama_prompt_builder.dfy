/**
 * The Llama prompt builder for watsonx (`prompt_builders/watsonx/llama/llama_prompt_builder.py`):
 * the tool information is put before the leading system message's text, or first as a
 * new system message; `_preprocess_message` is the same flattening as Granite's.
 */
module LlamaPromptBuilder {
  import opened Wrappers
  import opened ChatMessages
  import opened BasePromptBuilder
  import PyReplace
  import GranitePromptBuilder

  /** The tool information, a newline, then the leading system message's text. */
  function Merged(existing: string, info: string): string
  {
    info + "\n" + existing
  }

  /** The history handed to the model once the tool information is known. */
  function Chat(history: seq<Message>, info: string): seq<Message>
  {
    WithSystem(history, Merged(Existing(history), info), info)
  }

  /** `build_chat`: the history itself when there are no tools (`None` reads as none),
      the error raised while building the tool information, or a new list carrying it. */
  method BuildChat(history: array<Message>, tools: seq<ToolDefinition>, config: PromptConfig, date: string, dump: Dump)
    returns (out: Result<array<Message>>)
    ensures tools == [] ==> out == Success(history)
    ensures tools != [] && ToolInfo(tools, config, date, dump).Failure? ==> out == Failure(ToolInfo(tools, config, date, dump).error)
    ensures tools != [] && ToolInfo(tools, config, date, dump).Success? ==>
      out.Success? && fresh(out.value) && out.value[..] == Chat(history[..], ToolInfo(tools, config, date, dump).value)
  {
    if tools == [] {
      return Success(history);
    }
    var info := ComputeToolInfo(tools, config, date, dump);
    if info.Failure? {
      return Failure(info.error);
    }
    var modified := CopyWithSystem(history, Merged(Existing(history[..]), info.value), info.value);
    return Success(modified);
  }

  /** A leading system message keeps the length and gets the tool information before its
      text; otherwise the tool information is a new first message. The other messages are
      unchanged. */
  lemma {:induction false} ChatShape(history: seq<Message>, info: string)
    ensures StartsWithSystem(history) ==>
      |Chat(history, info)| == |history| &&
      Chat(history, info)[0] == SystemMessage(info + "\n" + history[0].content) &&
      Chat(history, info)[1..] == history[1..]
    ensures !StartsWithSystem(history) ==>
      Chat(history, info) == [SystemMessage(info)] + history
  {
  }

  /** `_preprocess_message`: user list content flattened to its " "-joined texts, every
      other message unchanged. */
  method PreprocessMessage(m: Message) returns (r: Message)
    ensures r == GranitePromptBuilder.Preprocessed(m)
  {
    r := GranitePromptBuilder.PreprocessMessage(m);
  }
}
