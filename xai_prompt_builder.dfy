/**
 * The xAI prompt builder (`prompt_builders/xai/xai_prompt_builder.py`). Its own
 * `_build_system_content` describes each tool under a `###` heading with one line per
 * parameter. The result goes into the leading system message under a `## Tools
 * Available:` heading, or first as a new system message.
 *
 * As written, the parameter loop tests each name against `parameters.get("required", [])`.
 * `model_dump()` keeps unset fields, so with no `required` list that value is `None`, and
 * the test raises `TypeError` for the first parameter. The model records that
 * (`ParamInfoAsWritten`) and builds the prompt with the evident intent, an unset list
 * marking every parameter optional (`ParamInfo`).
 */
module XaiPromptBuilder {
  import opened Wrappers
  import opened JsonValue
  import opened PyStr
  import opened ChatMessages
  import opened BasePromptBuilder
  import PyReplace

  // ----- the parameter lines -----

  function Status(name: string, required: seq<string>): string
  {
    if name in required then "(required)" else "(optional)"
  }

  /** The line for one parameter: its name, whether it is required, its description and
      its type, with `No description` and `any` when the schema leaves them out. */
  function ParamLine(name: string, details: Fields, required: seq<string>): string
  {
    LineHead(name, required) + LineTail(details)
  }

  function LineHead(name: string, required: seq<string>): string
  {
    "- " + name + " " + Status(name, required) + ": "
  }

  function LineTail(details: Fields): string
  {
    Str(Get(details, "description").GetOr(JStr("No description"))) + " (Type: " + Str(Get(details, "type").GetOr(JStr("any"))) + ")\n"
  }

  const ParametersHeading := "\nParameters:\n"

  const TypeErrorMessage := "TypeError: argument of type 'NoneType' is not iterable"

  /** The heading, then one line per parameter in the order of the schema's properties. */
  function ParamText(props: seq<(string, Fields)>, required: seq<string>): string
  {
    if props == [] then ParametersHeading
    else ParamText(props[..|props| - 1], required) + ParamLine(props[|props| - 1].0, props[|props| - 1].1, required)
  }

  /** `param_info` as the loop computes it, or the `TypeError` raised when the schema has
      properties but no `required` list. */
  function ParamInfoAsWritten(p: Option<FunctionParameters>): Result<string>
  {
    if p.None? then Success("")
    else if p.value.required.None? && p.value.properties != [] then Failure(TypeErrorMessage)
    else Success(ParamText(p.value.properties, p.value.required.GetOr([])))
  }

  /** The parameter loop as written, concatenating line by line. */
  method XaiParamInfo(p: Option<FunctionParameters>) returns (r: Result<string>)
    ensures r == ParamInfoAsWritten(p)
  {
    if p.None? {
      return Success("");
    }
    var properties := p.value.properties;
    var required := p.value.required;
    var paramInfo := ParametersHeading;
    for i := 0 to |properties|
      invariant required.None? ==> i == 0
      invariant paramInfo == ParamText(properties[..i], required.GetOr([]))
    {
      if required.None? {
        return Failure(TypeErrorMessage);
      }
      ParamTextSnoc(properties, i, required.value);
      var paramName := properties[i].0;
      var paramDetails := properties[i].1;
      var reqStatus := if paramName in required.value then "(required)" else "(optional)";
      var paramDesc := Get(paramDetails, "description").GetOr(JStr("No description"));
      var paramType := Get(paramDetails, "type").GetOr(JStr("any"));
      paramInfo := paramInfo + ("- " + paramName + " " + reqStatus + ": " + (Str(paramDesc) + " (Type: " + Str(paramType) + ")\n"));
    }
    assert properties[..|properties|] == properties;
    r := Success(paramInfo);
  }

  /** One more property adds its line, built as the loop builds it. */
  lemma {:induction false} ParamTextSnoc(props: seq<(string, Fields)>, i: int, required: seq<string>)
    requires 0 <= i < |props|
    ensures ParamText(props[..i + 1], required) == ParamText(props[..i], required) +
      ("- " + props[i].0 + " " + (if props[i].0 in required then "(required)" else "(optional)") + ": " +
       (Str(Get(props[i].1, "description").GetOr(JStr("No description"))) + " (Type: " +
        Str(Get(props[i].1, "type").GetOr(JStr("any"))) + ")\n"))
  {
    assert props[..i + 1][..i] == props[..i];
  }

  /** The parameter information as evidently intended: an unset `required` list marks
      every parameter optional. */
  function ParamInfo(p: Option<FunctionParameters>): string
  {
    if p.None? then "" else ParamText(p.value.properties, p.value.required.GetOr([]))
  }

  /** As written, a schema with a parameter and no `required` list raises; in every other
      case the loop gives the intended text. */
  lemma {:induction false} RequiredUnsetRaises(p: Option<FunctionParameters>)
    ensures p.Some? && p.value.properties != [] && p.value.required.None? ==>
      ParamInfoAsWritten(p) == Failure(TypeErrorMessage)
    ensures !(p.Some? && p.value.properties != [] && p.value.required.None?) ==>
      ParamInfoAsWritten(p) == Success(ParamInfo(p))
  {
  }

  /** The intended text starts with the heading alone; each further property adds its
      line, which names the parameter and is marked `(required)` exactly when the
      `required` list names it, and otherwise `(optional)`. */
  lemma {:induction false} ParamInfoMarks(props: seq<(string, Fields)>, name: string, details: Fields, required: seq<string>)
    ensures ParamText([], required) == ParametersHeading
    ensures ParamText(props + [(name, details)], required) ==
      ParamText(props, required) + LineHead(name, required) + LineTail(details)
    ensures PyReplace.StartsWith(LineHead(name, required), "- " + name + " " + "(required)") <==> name in required
    ensures PyReplace.StartsWith(LineHead(name, required), "- " + name + " " + "(optional)") <==> name !in required
  {
    assert (props + [(name, details)])[..|props|] == props;
    var a := "- " + name + " ";
    var s := Status(name, required);
    assert LineHead(name, required) == a + s + ": ";
    assert (a + s + ": ")[..|a| + 10] == a + s;
    assert "(required)"[1] == 'r' && "(optional)"[1] == 'o';
    assert (a + s)[|a| + 1] == s[1];
  }

  // ----- _build_system_content -----

  /** One tool under a `###` heading: its description, or `No description available`, then
      its parameter lines. */
  function ToolDescription(t: ToolDefinition): string
  {
    "### " + t.name + "\n" + (if t.description.Some? && t.description.value != "" then t.description.value else "No description available") +
    "\n" + ParamInfo(t.parameters)
  }

  function Descriptions(tools: seq<ToolDefinition>): (r: seq<string>)
    ensures |r| == |tools|
    ensures forall i :: 0 <= i < |tools| ==> r[i] == ToolDescription(tools[i])
  {
    if tools == [] then [] else Descriptions(tools[..|tools| - 1]) + [ToolDescription(tools[|tools| - 1])]
  }

  /** xAI's system content: the header, the tool descriptions separated by blank lines,
      then the instructions. */
  function SystemContent(tools: seq<ToolDefinition>, header: string, instructions: string): string
  {
    header + "\n\n" + Join("\n\n", Descriptions(tools)) + "\n\n" + instructions
  }

  /** `_build_system_content`, appending one description per tool. */
  method BuildSystemContent(tools: seq<ToolDefinition>, header: string, instructions: string) returns (r: string)
    ensures r == SystemContent(tools, header, instructions)
  {
    var toolDescriptions: seq<string> := [];
    for i := 0 to |tools|
      invariant toolDescriptions == Descriptions(tools[..i])
    {
      assert tools[..i + 1][..i] == tools[..i];
      var description := if tools[i].description.Some? && tools[i].description.value != "" then tools[i].description.value
        else "No description available";
      toolDescriptions := toolDescriptions + ["### " + tools[i].name + "\n" + description + "\n" + ParamInfo(tools[i].parameters)];
    }
    assert tools[..|tools|] == tools;
    r := header + "\n\n" + Join("\n\n", toolDescriptions) + "\n\n" + instructions;
  }

  /** A tool without a description is described as having none available. */
  lemma {:induction false} MissingDescription(t: ToolDefinition)
    requires t.description.None? || t.description.value == ""
    ensures ToolDescription(t) == "### " + t.name + "\n" + "No description available" + "\n" + ParamInfo(t.parameters)
  {
  }

  // ----- build_chat -----

  function ToolInfo(tools: seq<ToolDefinition>, config: PromptConfig, date: string): string
  {
    SystemContent(tools, ToolHeader(config, tools, date), config.toolInstructions)
  }

  const ToolsHeading := "## Tools Available:\n\n"

  function Chat(history: seq<Message>, info: string): seq<Message>
  {
    WithSystem(history, Existing(history) + "\n\n" + ToolsHeading + info + "\n\n", ToolsHeading + info)
  }

  /** `build_chat`: the history itself when there are no tools, otherwise a new list
      carrying the tool information. */
  method BuildChat(history: array<Message>, tools: seq<ToolDefinition>, config: PromptConfig, date: string)
    returns (out: array<Message>)
    ensures tools == [] ==> out == history
    ensures tools != [] ==> fresh(out) && out[..] == Chat(history[..], ToolInfo(tools, config, date))
  {
    if tools == [] {
      return history;
    }
    var toolNames := Names(tools);
    var header := config.header(Join(", ", toolNames), date);
    var info := BuildSystemContent(tools, header, config.toolInstructions);
    out := CopyWithSystem(history, Existing(history[..]) + "\n\n" + ToolsHeading + info + "\n\n", ToolsHeading + info);
  }

  /** A leading system message keeps the length and gets the tools heading and information
      after a blank line; otherwise they come first as a new system message. The other
      messages are unchanged. */
  lemma {:induction false} ChatShape(history: seq<Message>, info: string)
    ensures StartsWithSystem(history) ==>
      |Chat(history, info)| == |history| &&
      Chat(history, info)[0] == SystemMessage(history[0].content + "\n\n" + ToolsHeading + info + "\n\n") &&
      Chat(history, info)[1..] == history[1..]
    ensures !StartsWithSystem(history) ==>
      Chat(history, info) == [SystemMessage(ToolsHeading + info)] + history
  {
  }

  /** `build_text` always raises `NotImplementedError`. */
  function BuildText(context: Fields): (r: Result<string>)
    ensures r.Failure?
  {
    Failure("NotImplementedError: xAI models use chat completions interface. Use build_chat() instead.")
  }
}
