/**
 * What the prompt builders share (`prompt_builders/base_prompt_builder.py` and the common
 * shape of their `build_chat`): the system content listing the tools, the conversation
 * history as text, the header formatted with the tool names, and the copy of the history
 * whose first message carries the tools.
 *
 * The configuration read from the prompt builders' YAML file is a parameter: the header
 * template as a function of the tool names and the date, and the instructions. JSON
 * serialisation is a parameter too.
 */
module BasePromptBuilder {
  import opened Wrappers
  import opened JsonValue
  import opened PyStr
  import opened ChatMessages
  import PyReplace

  /** The builder's `system_prompt` section: the header template, filled in with the
      comma-joined tool names and the date, and the tool instructions. */
  datatype PromptConfig = PromptConfig(header: (string, string) -> string, toolInstructions: string)

  /** `json.dumps` or `model_dump_json`. */
  type Dump = Json -> string

  function Names(tools: seq<ToolDefinition>): (r: seq<string>)
    ensures |r| == |tools| && forall i :: 0 <= i < |tools| ==> r[i] == tools[i].name
  {
    seq(|tools|, i requires 0 <= i < |tools| => tools[i].name)
  }

  /** The header, with the tool names joined by ", " and the date. */
  function ToolHeader(config: PromptConfig, tools: seq<ToolDefinition>, date: string): string
  {
    config.header(Join(", ", Names(tools)), date)
  }

  // ----- _build_system_content -----

  /** The section for one tool: what it does and the JSON of its parameters. */
  function Section(tool: ToolDefinition, dump: Dump): string
    requires tool.parameters.Some?
  {
    "Use the function '" + tool.name + "' to: " + (if tool.description.Some? then tool.description.value else "None") + "\n" +
    dump(ParametersJson(tool.parameters.value)) + "\n"
  }

  predicate AllHaveParameters(tools: seq<ToolDefinition>)
  {
    forall t :: t in tools ==> t.parameters.Some?
  }

  /** One section per tool, in order. */
  function Sections(tools: seq<ToolDefinition>, dump: Dump): (r: seq<string>)
    requires AllHaveParameters(tools)
    ensures |r| == |tools|
    ensures forall i :: 0 <= i < |tools| ==> r[i] == Section(tools[i], dump)
  {
    if tools == [] then [] else Sections(tools[..|tools| - 1], dump) + [Section(tools[|tools| - 1], dump)]
  }

  /** What `_build_system_content` returns, or the `AttributeError` raised for a tool
      without parameters. */
  function SystemContent(tools: seq<ToolDefinition>, header: string, instructions: string, dump: Dump): Result<string>
  {
    if !AllHaveParameters(tools) then Failure("AttributeError")
    else Success(header + "\n\n" + instructions + "\n\n" + Join("\n", Sections(tools, dump)))
  }

  /** `_build_system_content`, appending one section per tool. */
  method BuildSystemContent(tools: seq<ToolDefinition>, header: string, instructions: string, dump: Dump)
    returns (r: Result<string>)
    ensures r == SystemContent(tools, header, instructions, dump)
  {
    var sections: seq<string> := [];
    for i := 0 to |tools|
      invariant AllHaveParameters(tools[..i])
      invariant sections == Sections(tools[..i], dump)
    {
      assert tools[..i + 1][..i] == tools[..i];
      if tools[i].parameters.None? {
        assert tools[i] in tools;
        return Failure("AttributeError");
      }
      sections := sections + [Section(tools[i], dump)];
    }
    assert tools[..|tools|] == tools;
    r := Success(header + "\n\n" + instructions + "\n\n" + Join("\n", sections));
  }

  /** Each tool's section names the tool and starts the same way. */
  lemma {:induction false} SectionStart(tool: ToolDefinition, dump: Dump)
    requires tool.parameters.Some?
    ensures PyReplace.StartsWith(Section(tool, dump), "Use the function '" + tool.name + "' to: ")
  {
    var prefix := "Use the function '" + tool.name + "' to: ";
    var rest := (if tool.description.Some? then tool.description.value else "None") + "\n" +
      dump(ParametersJson(tool.parameters.value)) + "\n";
    assert Section(tool, dump) == prefix + rest;
    assert (prefix + rest)[..|prefix|] == prefix;
  }

  /** The system content is the header, a blank line, the instructions, a blank line and
      the sections, one per tool and in order, separated by newlines. */
  lemma {:induction false} SystemContentShape(tools: seq<ToolDefinition>, header: string, instructions: string, dump: Dump)
    requires AllHaveParameters(tools)
    ensures exists sections: seq<string> ::
      |sections| == |tools| && (forall i :: 0 <= i < |tools| ==> sections[i] == Section(tools[i], dump)) &&
      SystemContent(tools, header, instructions, dump) == Success(header + "\n\n" + instructions + "\n\n" + Join("\n", sections))
  {
    var sections := Sections(tools, dump);
    assert SystemContent(tools, header, instructions, dump) == Success(header + "\n\n" + instructions + "\n\n" + Join("\n", sections));
  }

  // ----- _format_conversation_history -----

  /** The message of the `TypeError` `"\n\n".join` raises for an item that is not a string. */
  const JoinTypeError := "TypeError: sequence item: expected str instance"

  /** The item the loop appends for one message: the role and the content's text, or the
      content itself, which is `None` here when it is not a string (`None` or a list). */
  function Entry(m: Message, includeRoles: bool): Option<string>
  {
    if includeRoles then Some(Role(m) + ": " + ContentText(m)) else StringContent(m)
  }

  /** The list `formatted`: one item per message, in order. */
  function Entries(messages: seq<Message>, includeRoles: bool): (r: seq<Option<string>>)
    ensures |r| == |messages|
    ensures forall i :: 0 <= i < |messages| ==> r[i] == Entry(messages[i], includeRoles)
  {
    if messages == [] then [] else Entries(messages[..|messages| - 1], includeRoles) + [Entry(messages[|messages| - 1], includeRoles)]
  }

  /** `"\n\n".join` accepts the items: every one is a string. */
  predicate AllStrings(items: seq<Option<string>>)
  {
    forall i :: 0 <= i < |items| ==> items[i].Some?
  }

  /** The strings of items that all are strings. */
  function Texts(items: seq<Option<string>>): (r: seq<string>)
    requires AllStrings(items)
    ensures |r| == |items| && forall i :: 0 <= i < |items| ==> items[i] == Some(r[i])
  {
    seq(|items|, i requires 0 <= i < |items| => items[i].value)
  }

  /** `_format_conversation_history(messages, include_roles)`: the items joined by blank
      lines, or the `TypeError` the join raises. */
  function History(messages: seq<Message>, includeRoles: bool): Result<string>
  {
    var items := Entries(messages, includeRoles);
    if AllStrings(items) then Success(Join("\n\n", Texts(items))) else Failure(JoinTypeError)
  }

  /** `_format_conversation_history`, appending one item per message and joining them. */
  method FormatConversationHistory(messages: seq<Message>, includeRoles: bool) returns (r: Result<string>)
    ensures r == History(messages, includeRoles)
  {
    var formatted: seq<string> := [];
    var joinable := true;
    for i := 0 to |messages|
      invariant joinable == AllStrings(Entries(messages[..i], includeRoles))
      invariant joinable ==> formatted == Texts(Entries(messages[..i], includeRoles))
    {
      joinable, formatted := AppendEntry(messages, i, includeRoles, joinable, formatted);
    }
    assert messages[..|messages|] == messages;
    if !joinable {
      return Failure(JoinTypeError);
    }
    r := Success(Join("\n\n", formatted));
  }

  /** One iteration of the loop of `_format_conversation_history`: the item for message
      `i` is appended to what the messages before it gave. */
  method AppendEntry(messages: seq<Message>, i: nat, includeRoles: bool, joinable: bool, formatted: seq<string>)
    returns (joinable': bool, formatted': seq<string>)
    requires i < |messages|
    requires joinable == AllStrings(Entries(messages[..i], includeRoles))
    requires joinable ==> formatted == Texts(Entries(messages[..i], includeRoles))
    ensures joinable' == AllStrings(Entries(messages[..i + 1], includeRoles))
    ensures joinable' ==> formatted' == Texts(Entries(messages[..i + 1], includeRoles))
  {
    var m := messages[i];
    ghost var before := messages[..i];
    assert messages[..i + 1] == before + [m];
    var item: Option<string>;
    if includeRoles {
      item := Some(Role(m) + ": " + ContentText(m));
    } else {
      item := StringContent(m);
    }
    EntriesSnocStrings(before, m, includeRoles);
    joinable', formatted' := false, formatted;
    if joinable && item.Some? {
      TextsSnoc(before, m, includeRoles);
      joinable', formatted' := true, formatted + [item.value];
    }
  }

  /** The items of one more message are all strings exactly when the earlier ones are and
      the new one is. */
  lemma {:induction false} EntriesSnocStrings(messages: seq<Message>, m: Message, includeRoles: bool)
    ensures AllStrings(Entries(messages + [m], includeRoles)) <==>
      AllStrings(Entries(messages, includeRoles)) && Entry(m, includeRoles).Some?
  {
    assert (messages + [m])[..|messages|] == messages;
    assert Entries(messages + [m], includeRoles) == Entries(messages, includeRoles) + [Entry(m, includeRoles)];
  }

  /** With roles the history is always formatted; without them it raises `TypeError`
      exactly when some message's content is not a string (an assistant message with
      content `None`, such as one carrying only tool calls, or a list of parts). */
  lemma {:induction false} HistoryTypeError(messages: seq<Message>, includeRoles: bool)
    ensures History(messages, includeRoles).Failure? <==>
      !includeRoles && exists i :: 0 <= i < |messages| && StringContent(messages[i]).None?
  {
    var items := Entries(messages, includeRoles);
    if !AllStrings(items) {
      var i :| 0 <= i < |items| && items[i].None?;
      assert Entry(messages[i], includeRoles).None?;
    }
  }

  /** No messages format to the empty text; one message formats to its item alone; each
      further message adds a blank line and its item. */
  lemma {:induction false} HistoryShape(messages: seq<Message>, m: Message, includeRoles: bool)
    ensures History([], includeRoles) == Success("")
    ensures Entry(m, includeRoles).Some? ==> History([m], includeRoles) == Success(Entry(m, includeRoles).value)
    ensures messages != [] && History(messages, includeRoles).Success? && Entry(m, includeRoles).Some? ==>
      History(messages + [m], includeRoles) ==
        Success(History(messages, includeRoles).value + "\n\n" + Entry(m, includeRoles).value)
  {
    var e := Entry(m, includeRoles);
    assert Entries([m], includeRoles) == [e] by { assert [m][..0] == []; }
    if e.Some? {
      assert Texts([e]) == [e.value];
    }
    if messages != [] && History(messages, includeRoles).Success? && e.Some? {
      var before := Texts(Entries(messages, includeRoles));
      TextsSnoc(messages, m, includeRoles);
      JoinSnoc("\n\n", before, e.value);
    }
  }

  /** One more message whose item is a string adds that string to the texts. */
  lemma {:induction false} TextsSnoc(messages: seq<Message>, m: Message, includeRoles: bool)
    requires AllStrings(Entries(messages, includeRoles)) && Entry(m, includeRoles).Some?
    ensures AllStrings(Entries(messages + [m], includeRoles))
    ensures Texts(Entries(messages + [m], includeRoles)) ==
      Texts(Entries(messages, includeRoles)) + [Entry(m, includeRoles).value]
  {
    assert (messages + [m])[..|messages|] == messages;
    assert Entries(messages + [m], includeRoles) == Entries(messages, includeRoles) + [Entry(m, includeRoles)];
  }

  // ----- the history handed to the model -----

  predicate StartsWithSystem(history: seq<Message>)
  {
    |history| > 0 && history[0].SystemMessage?
  }

  /** The copied history with its leading system message replaced, or with a new system
      message inserted before it. */
  function WithSystem(history: seq<Message>, replacement: string, inserted: string): seq<Message>
  {
    if StartsWithSystem(history) then [SystemMessage(replacement)] + history[1..]
    else [SystemMessage(inserted)] + history
  }

  /** `conversation_history.copy()` followed by `modified_history[0] = SystemMessage(...)`
      or `modified_history.insert(0, SystemMessage(...))`; the given list is left as it was. */
  method CopyWithSystem(history: array<Message>, replacement: string, inserted: string) returns (modified: array<Message>)
    ensures fresh(modified)
    ensures modified[..] == WithSystem(history[..], replacement, inserted)
  {
    if history.Length > 0 && history[0].SystemMessage? {
      modified := new Message[history.Length];
      for i := 0 to history.Length
        invariant forall j :: 0 <= j < i ==> modified[j] == history[j]
      {
        modified[i] := history[i];
      }
      modified[0] := SystemMessage(replacement);
      assert modified[..] == [SystemMessage(replacement)] + history[1..];
    } else {
      modified := new Message[history.Length + 1];
      modified[0] := SystemMessage(inserted);
      for i := 0 to history.Length
        invariant modified[0] == SystemMessage(inserted)
        invariant forall j :: 0 <= j < i ==> modified[j + 1] == history[j]
      {
        modified[i + 1] := history[i];
      }
      assert modified[..] == [SystemMessage(inserted)] + history[..];
    }
  }

  /** A leading system message keeps the length and only that message changes; otherwise
      the new system message comes first and everything else follows in order. */
  lemma {:induction false} WithSystemShape(history: seq<Message>, replacement: string, inserted: string)
    ensures StartsWithSystem(history) ==>
      |WithSystem(history, replacement, inserted)| == |history| &&
      WithSystem(history, replacement, inserted)[0] == SystemMessage(replacement) &&
      forall i :: 0 < i < |history| ==> WithSystem(history, replacement, inserted)[i] == history[i]
    ensures !StartsWithSystem(history) ==>
      |WithSystem(history, replacement, inserted)| == |history| + 1 &&
      WithSystem(history, replacement, inserted)[0] == SystemMessage(inserted) &&
      forall i :: 0 <= i < |history| ==> WithSystem(history, replacement, inserted)[i + 1] == history[i]
  {
  }

  /** The content of the leading system message, if there is one. */
  function Existing(history: seq<Message>): string
  {
    if StartsWithSystem(history) then history[0].content else ""
  }

  /** The tool information the builders built on the base class compute. */
  function ToolInfo(tools: seq<ToolDefinition>, config: PromptConfig, date: string, dump: Dump): Result<string>
  {
    SystemContent(tools, ToolHeader(config, tools, date), config.toolInstructions, dump)
  }

  /** Computing the tool information as `build_chat` does: the names, the header, then
      `_build_system_content`. */
  method ComputeToolInfo(tools: seq<ToolDefinition>, config: PromptConfig, date: string, dump: Dump)
    returns (r: Result<string>)
    ensures r == ToolInfo(tools, config, date, dump)
  {
    var toolNames := Names(tools);
    var header := config.header(Join(", ", toolNames), date);
    r := BuildSystemContent(tools, header, config.toolInstructions, dump);
  }
}
