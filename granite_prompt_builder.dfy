/**
 * The Granite prompt builder for watsonx (`prompt_builders/watsonx/granite/granite_prompt_builder.py`):
 * the tool information is appended to the leading system message as a `tools` role
 * block, or put first as a new system message; `_preprocess_message` flattens a user
 * message's parts into one string of its texts.
 */
module GranitePromptBuilder {
  import opened Wrappers
  import opened ChatMessages
  import opened BasePromptBuilder
  import PyReplace
  import opened PyStr

  /** A leading system message followed by the tool information as a `tools` role block. */
  function Merged(existing: string, info: string): string
  {
    existing + "\n<|start_of_role|>tools<|end_of_role|>" + info + "<|end_of_text|>"
  }

  /** The history handed to the model once the tool information is known. */
  function Chat(history: seq<Message>, info: string): seq<Message>
  {
    WithSystem(history, Merged(Existing(history), info), info)
  }

  /** `build_chat`: the history itself when there are no tools (`None` reads as none),
      the error raised while building the tool information, or a new list carrying it. */
  method BuildChat(history: array<Message>, tools: seq<ToolDefinition>, config: PromptConfig, date: string, dump: Dump)
    returns (out: Result<array<Message>>)
    ensures tools == [] ==> out == Success(history)
    ensures tools != [] && ToolInfo(tools, config, date, dump).Failure? ==> out == Failure(ToolInfo(tools, config, date, dump).error)
    ensures tools != [] && ToolInfo(tools, config, date, dump).Success? ==>
      out.Success? && fresh(out.value) && out.value[..] == Chat(history[..], ToolInfo(tools, config, date, dump).value)
  {
    if tools == [] {
      return Success(history);
    }
    var info := ComputeToolInfo(tools, config, date, dump);
    if info.Failure? {
      return Failure(info.error);
    }
    var modified := CopyWithSystem(history, Merged(Existing(history[..]), info.value), info.value);
    return Success(modified);
  }

  /** A leading system message keeps the length and gets the tools block appended;
      otherwise the tool information is a new first message. The other messages are
      unchanged. */
  lemma {:induction false} ChatShape(history: seq<Message>, info: string)
    ensures StartsWithSystem(history) ==>
      |Chat(history, info)| == |history| &&
      Chat(history, info)[0] == SystemMessage(history[0].content + "\n<|start_of_role|>tools<|end_of_role|>" + info + "<|end_of_text|>") &&
      Chat(history, info)[1..] == history[1..]
    ensures !StartsWithSystem(history) ==>
      Chat(history, info) == [SystemMessage(info)] + history
  {
  }

  /** The texts of the text parts, in order. */
  function TextsOf(parts: seq<UserPart>): (r: seq<string>)
    ensures |r| <= |parts|
    ensures forall t :: t in r <==> TextPart(t) in parts
  {
    if parts == [] then []
    else
      var init := TextsOf(parts[..|parts| - 1]);
      var last := parts[|parts| - 1];
      assert forall p :: p in parts <==> p in parts[..|parts| - 1] || p == last;
      if last.TextPart? then init + [last.text] else init
  }

  /** What `_preprocess_message` makes of a message. */
  function Preprocessed(m: Message): Message
  {
    if m.UserMessage? && m.body.Parts? then UserMessage(PlainText(Join(" ", TextsOf(m.body.parts)))) else m
  }

  /** `_preprocess_message`, collecting the text parts one by one. */
  method PreprocessMessage(m: Message) returns (r: Message)
    ensures r == Preprocessed(m)
  {
    if !m.UserMessage? || !m.body.Parts? {
      return m;
    }
    var parts := m.body.parts;
    var textContents: seq<string> := [];
    for i := 0 to |parts|
      invariant textContents == TextsOf(parts[..i])
    {
      assert parts[..i + 1][..i] == parts[..i];
      if parts[i].TextPart? {
        textContents := textContents + [parts[i].text];
      }
    }
    assert parts[..|parts|] == parts;
    r := UserMessage(PlainText(Join(" ", textContents)));
  }

  /** The texts of two runs of parts are the first run's texts followed by the second's,
      so the flattened string keeps the parts' order. */
  lemma {:induction false} TextsOfAppend(a: seq<UserPart>, b: seq<UserPart>)
    ensures TextsOf(a + b) == TextsOf(a) + TextsOf(b)
    decreases |b|
  {
    if b == [] {
      assert a + b == a;
    } else {
      assert (a + b)[..|a + b| - 1] == a + b[..|b| - 1];
      TextsOfAppend(a, b[..|b| - 1]);
    }
  }

  /** Only user messages with a list of parts change; they become one string. */
  lemma {:induction false} PreprocessedShape(m: Message)
    ensures !(m.UserMessage? && m.body.Parts?) ==> Preprocessed(m) == m
    ensures m.UserMessage? && m.body.Parts? ==> Preprocessed(m).UserMessage? && Preprocessed(m).body.PlainText?
    ensures m.UserMessage? && m.body.Parts? && (forall p :: p in m.body.parts ==> !p.TextPart?) ==>
      Preprocessed(m) == UserMessage(PlainText(""))
  {
    if m.UserMessage? && m.body.Parts? && (forall p :: p in m.body.parts ==> !p.TextPart?) {
      NoTexts(m.body.parts);
    }
  }

  lemma {:induction false} NoTexts(parts: seq<UserPart>)
    requires forall p :: p in parts ==> !p.TextPart?
    ensures TextsOf(parts) == []
    decreases |parts|
  {
    if parts != [] {
      var init := parts[..|parts| - 1];
      assert forall p :: p in init ==> p in parts;
      NoTexts(init);
    }
  }
}
