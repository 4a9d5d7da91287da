/**
 * `BaseToolCallParser` of `tools/parsers/base_tool_call_parser.py`: `parse` cleans the
 * text, hands it to the subclass's `extract`, renames `parameters` to `arguments` in every
 * tool call and at top level, and validates a result that carries no error.
 *
 * `extract` is a parameter: a function from the cleaned text to the dict it returns.
 * Python exceptions raised on the way are modelled by their messages: a `ValueError`
 * (only `validate` raises one) becomes `{"error": message}`, any other exception
 * `{"error": "Unexpected error: " + message}`.
 */
module BaseToolCallParser {
  import opened Wrappers
  import opened PyStr
  import opened PyReplace
  import opened JsonValue

  const UnexpectedPrefix := "Unexpected error: "

  /** Every token removed in turn, the first token first. */
  function RemoveTokens(tokens: seq<string>, text: string): string
  {
    if tokens == [] then text else RemoveTokens(tokens[1..], RemoveAll(text, tokens[0]))
  }

  /** `clean_text`: each token of the `clean_tokens` entry (none when it is absent) is
      replaced by nothing, in order, and the result is stripped. */
  method CleanText(cleanTokens: Option<seq<string>>, text: string) returns (r: string)
    ensures r == Strip(RemoveTokens(cleanTokens.GetOr([]), text))
  {
    var tokens := cleanTokens.GetOr([]);
    r := text;
    var i := 0;
    while i < |tokens|
      invariant 0 <= i <= |tokens|
      invariant RemoveTokens(tokens[i..], r) == RemoveTokens(tokens, text)
    {
      assert tokens[i..][1..] == tokens[i + 1..];
      r := RemoveAll(r, tokens[i]);
      i := i + 1;
    }
    r := Strip(r);
  }

  /** Text in which no token occurs is only stripped. */
  lemma {:induction false} RemoveTokensAbsent(tokens: seq<string>, text: string)
    requires forall i :: 0 <= i < |tokens| ==> !Contains(text, tokens[i])
    ensures RemoveTokens(tokens, text) == text
    decreases |tokens|
  {
    if tokens != [] {
      RemoveAllAbsent(text, tokens[0]);
      RemoveTokensAbsent(tokens[1..], text);
    }
  }

  /** With a single token, cleaning drops exactly its occurrences: the text is the pieces
      `split` leaves, concatenated, then stripped. */
  lemma {:induction false} CleanOneToken(token: string, text: string)
    requires token != []
    ensures Strip(RemoveTokens([token], text)) == Strip(Concat(Split(text, token)))
  {
    RemoveAllIsSplitConcat(text, token);
  }

  const ExpectedList := "Expected a list of tool calls"
  const ExpectedDict := "Each tool call must be a dictionary"
  const ExpectedKeys := "Each tool call must contain 'name' and ('arguments' or 'parameters') keys)"

  /** A well-formed result: its `tool_calls` is a list of dicts each holding `name` and
      `arguments`. */
  predicate WellFormed(data: seq<(string, Json)>)
  {
    var tc := Get(data, "tool_calls");
    tc.Some? && tc.value.JArr? &&
    forall i :: 0 <= i < |tc.value.items| ==> CallShaped(tc.value.items[i])
  }

  predicate CallShaped(call: Json)
  {
    call.JObj? && "name" in Keys(call.fields) && "arguments" in Keys(call.fields)
  }

  /** The message of the first call that fails the checks of `validate`, in order. */
  function CallsError(calls: seq<Json>): (r: Option<string>)
    ensures r.None? <==> forall i :: 0 <= i < |calls| ==> CallShaped(calls[i])
    ensures r == Some(ExpectedDict) || r == Some(ExpectedKeys) || r == None
  {
    if calls == [] then None
    else if !calls[0].JObj? then Some(ExpectedDict)
    else if !CallShaped(calls[0]) then Some(ExpectedKeys)
    else
      var r := CallsError(calls[1..]);
      assert forall i :: 1 <= i < |calls| ==> calls[i] == calls[1..][i - 1];
      r
  }

  /** `validate`: `None` when it returns `True`, else the message of the `ValueError`. */
  function Validate(data: seq<(string, Json)>): (r: Option<string>)
    ensures r.None? <==> WellFormed(data)
    ensures !(Get(data, "tool_calls").Some? && Get(data, "tool_calls").value.JArr?) ==> r == Some(ExpectedList)
    ensures r.Some? ==> r.value in {ExpectedList, ExpectedDict, ExpectedKeys}
  {
    var tc := Get(data, "tool_calls");
    if tc.None? || !tc.value.JArr? then Some(ExpectedList) else CallsError(tc.value.items)
  }

  /** What `for tool_call in value` iterates over: the items of a list, the keys of a
      dict, the characters of a string; other values raise `TypeError`. Numbers are
      modelled as `int`. */
  function Iterated(v: Json): (r: Result<seq<Json>>)
    ensures v.JArr? ==> r == Success(v.items)
    ensures v.JObj? ==> r.Success? && |r.value| == |v.fields|
    ensures v.JStr? ==> r.Success? && |r.value| == |v.s|
    ensures v.JNull? || v.JBool? || v.JNum? ==> r.Failure?
  {
    match v
    case JArr(items) => Success(items)
    case JObj(fields) => Success(seq(|fields|, i requires 0 <= i < |fields| => JStr(fields[i].0)))
    case JStr(s) => Success(seq(|s|, i requires 0 <= i < |s| => JStr([s[i]])))
    case JNum(_) => Failure("'int' object is not iterable")
    case JBool(_) => Failure("'bool' object is not iterable")
    case JNull => Failure("'NoneType' object is not iterable")
  }

  /** `d["arguments"] = d.pop("parameters")` on a dict holding `parameters`. */
  function MoveParameters(fields: seq<(string, Json)>): (r: seq<(string, Json)>)
    requires "parameters" in Keys(fields)
  {
    Put(Remove(fields, "parameters"), "arguments", Get(fields, "parameters").value)
  }

  /** One tool call through `if "parameters" in tool_call: ...`: a dict holding the key
      has it renamed; a string containing it has no `pop`, a list holding it cannot be
      popped by a string, and `in` on a number, boolean or `None` raises. */
  function RenameCall(call: Json): (r: Result<Json>)
  {
    match call
    case JObj(fields) =>
      if "parameters" in Keys(fields) then Success(JObj(MoveParameters(fields))) else Success(call)
    case JStr(s) =>
      if Contains(s, "parameters") then Failure("'str' object has no attribute 'pop'") else Success(call)
    case JArr(items) =>
      if JStr("parameters") in items then Failure("'str' object cannot be interpreted as an integer")
      else Success(call)
    case JNum(_) => Failure("argument of type 'int' is not iterable")
    case JBool(_) => Failure("argument of type 'bool' is not iterable")
    case JNull => Failure("argument of type 'NoneType' is not iterable")
  }

  /** The loop over the tool calls: each renamed in turn, stopping at the first that
      raises. */
  function RenameCalls(calls: seq<Json>): Result<seq<Json>>
  {
    if calls == [] then Success([])
    else
      match RenameCalls(calls[..|calls| - 1])
      case Failure(e) => Failure(e)
      case Success(done) =>
        match RenameCall(calls[|calls| - 1])
        case Failure(e) => Failure(e)
        case Success(c) => Success(done + [c])
  }

  /** The renaming steps of `parse`: the tool calls (only a list's items can change, as
      dicts are changed in place), then the top level. A failure carries the message of
      the exception raised. */
  function Renamed(data: seq<(string, Json)>): Result<seq<(string, Json)>>
  {
    var tc := Get(data, "tool_calls");
    var afterCalls :=
      if tc.None? then Success(data)
      else match Iterated(tc.value)
        case Failure(e) => Failure(e)
        case Success(calls) =>
          match RenameCalls(calls)
          case Failure(e) => Failure(e)
          case Success(done) => Success(if tc.value.JArr? then Put(data, "tool_calls", JArr(done)) else data);
    match afterCalls
    case Failure(e) => Failure(e)
    case Success(d) => Success(if "parameters" in Keys(d) then MoveParameters(d) else d)
  }

  /** What `parse` returns for the dict `extract` gave. */
  function ParseOutcome(extracted: seq<(string, Json)>): seq<(string, Json)>
  {
    match Renamed(extracted)
    case Failure(e) => [("error", JStr(UnexpectedPrefix + e))]
    case Success(d) =>
      if "error" in Keys(d) then d
      else match Validate(d)
        case Some(message) => [("error", JStr(message))]
        case None => d
  }

  /** `parse`, with the loop of the source over the tool calls. */
  method Parse(extract: string -> seq<(string, Json)>, cleanTokens: Option<seq<string>>, text: string)
    returns (r: seq<(string, Json)>)
    ensures r == ParseOutcome(extract(Strip(RemoveTokens(cleanTokens.GetOr([]), text))))
  {
    var cleanedText := CleanText(cleanTokens, text);
    var renamed := RenameParameters(extract(cleanedText));
    if renamed.Failure? {
      return [("error", JStr(UnexpectedPrefix + renamed.error))];
    }
    var data := renamed.value;
    if "error" !in Keys(data) {
      var invalid := Validate(data);
      if invalid.Some? {
        return [("error", JStr(invalid.value))];
      }
    }
    r := data;
  }

  /** The renaming steps of `parse`, in place: the tool calls, then the top level. */
  method RenameParameters(extracted: seq<(string, Json)>) returns (r: Result<seq<(string, Json)>>)
    ensures r == Renamed(extracted)
  {
    var data := extracted;
    var tc := Get(data, "tool_calls");
    if tc.Some? {
      var iterated := Iterated(tc.value);
      if iterated.Failure? {
        return Failure(iterated.error);
      }
      var done := RenameEach(iterated.value);
      if done.Failure? {
        return Failure(done.error);
      }
      if tc.value.JArr? {
        data := Put(data, "tool_calls", JArr(done.value));
      }
    }
    if "parameters" in Keys(data) {
      data := MoveParameters(data);
    }
    r := Success(data);
  }

  /** The loop over the tool calls, stopping at the first that raises. */
  method RenameEach(calls: seq<Json>) returns (r: Result<seq<Json>>)
    ensures r == RenameCalls(calls)
  {
    var done: seq<Json> := [];
    var i := 0;
    while i < |calls|
      invariant 0 <= i <= |calls|
      invariant RenameCalls(calls[..i]) == Success(done)
    {
      assert calls[..i + 1][..i] == calls[..i];
      var renamed := RenameCall(calls[i]);
      if renamed.Failure? {
        RenameFailureStays(calls[..i + 1], calls[i + 1..]);
        assert calls[..i + 1] + calls[i + 1..] == calls;
        return Failure(renamed.error);
      }
      done := done + [renamed.value];
      i := i + 1;
    }
    assert calls[..i] == calls;
    r := Success(done);
  }

  /** Once a call raises, later calls change nothing. */
  lemma {:induction false} RenameFailureStays(a: seq<Json>, b: seq<Json>)
    requires RenameCalls(a).Failure?
    ensures RenameCalls(a + b) == RenameCalls(a)
    decreases |b|
  {
    if b == [] {
      assert a + b == a;
    } else {
      var n := |b| - 1;
      assert (a + b)[..|a + b| - 1] == a + b[..n];
      RenameFailureStays(a, b[..n]);
    }
  }

  /** Renaming a dict that holds `parameters` moves its value to `arguments`, overwriting
      any value there, drops `parameters` and leaves every other key as it was. */
  lemma {:induction false} MoveParametersGet(fields: seq<(string, Json)>, x: string)
    requires "parameters" in Keys(fields)
    ensures Get(MoveParameters(fields), x) ==
      if x == "arguments" then Get(fields, "parameters")
      else if x == "parameters" then None
      else Get(fields, x)
  {
    GetPut(Remove(fields, "parameters"), "arguments", Get(fields, "parameters").value, x);
    GetRemove(fields, "parameters", x);
  }

  /** A call that renames successfully holds no `parameters`, and it is left as it is
      unless it is a dict that held them. */
  lemma {:induction false} RenameCallShape(call: Json)
    requires RenameCall(call).Success?
    ensures RenameCall(call).value.JObj? ==> "parameters" !in Keys(RenameCall(call).value.fields)
    ensures !(call.JObj? && "parameters" in Keys(call.fields)) ==> RenameCall(call).value == call
  {
    if call.JObj? && "parameters" in Keys(call.fields) {
      MoveParametersGet(call.fields, "parameters");
    }
  }

  /** Calls renamed successfully keep their number and order, each renamed as on its
      own. */
  lemma {:induction false} RenameCallsPointwise(calls: seq<Json>)
    requires RenameCalls(calls).Success?
    ensures |RenameCalls(calls).value| == |calls|
    ensures forall i :: 0 <= i < |calls| ==>
      RenameCall(calls[i]).Success? && RenameCalls(calls).value[i] == RenameCall(calls[i]).value
    decreases |calls|
  {
    if calls != [] {
      var n := |calls| - 1;
      RenameCallsPointwise(calls[..n]);
    }
  }

  /** A result that already carries an error, with no tool calls or parameters to rename,
      is returned unchanged and not validated. */
  lemma {:induction false} ErrorPassesThrough(extracted: seq<(string, Json)>)
    requires "error" in Keys(extracted)
    requires "tool_calls" !in Keys(extracted) && "parameters" !in Keys(extracted)
    ensures ParseOutcome(extracted) == extracted
  {
  }

  /** A result of `parse` without an error is a well-formed list of calls, none of which
      holds `parameters`. */
  lemma {:induction false} SuccessShape(extracted: seq<(string, Json)>)
    requires "error" !in Keys(ParseOutcome(extracted))
    ensures WellFormed(ParseOutcome(extracted))
    ensures var calls := Get(ParseOutcome(extracted), "tool_calls").value.items;
      forall i :: 0 <= i < |calls| ==> "parameters" !in Keys(calls[i].fields)
  {
    NoErrorMeansValidated(extracted);
    var d := Renamed(extracted).value;
    var tc := Get(extracted, "tool_calls");
    var calls := Get(d, "tool_calls").value.items;
    forall i | 0 <= i < |calls| ensures "parameters" !in Keys(calls[i].fields)
    {
      assert tc.Some? && tc.value.JArr? by {
        TopLevelMoveKeepsCalls(extracted);
      }
      var done := RenameCalls(tc.value.items).value;
      TopLevelMoveKeepsCalls(extracted);
      RenameCallsPointwise(tc.value.items);
      RenameCallShape(tc.value.items[i]);
    }
  }

  /** An outcome without an error is the renamed dict, which passed validation. */
  lemma {:induction false} NoErrorMeansValidated(extracted: seq<(string, Json)>)
    ensures "error" !in Keys(ParseOutcome(extracted)) ==>
      Renamed(extracted).Success? && ParseOutcome(extracted) == Renamed(extracted).value &&
      Validate(Renamed(extracted).value).None?
  {
    var r := ParseOutcome(extracted);
    if Renamed(extracted).Failure? {
      assert Keys(r)[0] == "error";
    } else if "error" !in Keys(Renamed(extracted).value) && Validate(Renamed(extracted).value).Some? {
      assert Keys(r)[0] == "error";
    }
  }

  /** The top-level renaming leaves `tool_calls` alone; the tool calls of a successful
      renaming are the original value when it is not a list, else the renamed items. */
  lemma {:induction false} TopLevelMoveKeepsCalls(extracted: seq<(string, Json)>)
    requires Renamed(extracted).Success?
    ensures var tc := Get(extracted, "tool_calls");
      tc.Some? && tc.value.JArr? ==>
        RenameCalls(tc.value.items).Success? &&
        Get(Renamed(extracted).value, "tool_calls") == Some(JArr(RenameCalls(tc.value.items).value))
    ensures var tc := Get(extracted, "tool_calls");
      !(tc.Some? && tc.value.JArr?) ==> Get(Renamed(extracted).value, "tool_calls") == tc
  {
    var tc := Get(extracted, "tool_calls");
    var d := if tc.Some? && tc.value.JArr? then Put(extracted, "tool_calls", JArr(RenameCalls(tc.value.items).value)) else extracted;
    if tc.Some? && tc.value.JArr? {
      GetPut(extracted, "tool_calls", JArr(RenameCalls(tc.value.items).value), "tool_calls");
    }
    if "parameters" in Keys(d) {
      MoveParametersGet(d, "tool_calls");
    }
  }
}
