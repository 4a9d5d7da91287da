/**
 * `JSONToolCallParser` of `tools/parsers/json_tool_call_parser.py`: the segments found by
 * `find_json_content` (the same scan as `JsonSegments`) are loaded one by one with
 * `json5.loads`; a dict is appended, a list spliced in, anything else dropped. Unlike the
 * parser in `tools/core/parsers`, values are not re-loaded, only `ValueError` skips a
 * segment, and any other exception ends the extraction with an "Unexpected error".
 */
module JsonToolCallParser {
  import opened Wrappers
  import opened JsonValue
  import opened JsonSegments
  import CoreJsonToolCallParser
  import opened BaseToolCallParser

  /** How far the loop over the segments has got: the calls collected so far, or the
      message of the exception that ended it. */
  datatype Gathered = Collected(calls: seq<Json>) | Aborted(message: string)

  /** The calls one loaded value adds: a dict itself, the items of a list, else none. */
  function Added(v: Json): (r: seq<Json>)
  {
    if v.JObj? then [v] else if v.JArr? then v.items else []
  }

  /** One segment more: once aborted, nothing changes; a `ValueError` skips the segment,
      another exception aborts with its message, a loaded value adds its calls. */
  function Step(g: Gathered, loaded: Loaded): Gathered
  {
    match g
    case Aborted(_) => g
    case Collected(calls) =>
      match loaded
      case Raised(ValueError, _) => g
      case Raised(OtherException, message) => Aborted(message)
      case Parsed(v) => Collected(calls + Added(v))
  }

  /** The loop over all the segments, in order. */
  function Gather(loads: string -> Loaded, segments: seq<string>): Gathered
  {
    if segments == [] then Collected([])
    else Step(Gather(loads, segments[..|segments| - 1]), loads(segments[|segments| - 1]))
  }

  /** The dict `extract` returns for the outcome of the loop. */
  function Outcome(g: Gathered): (r: seq<(string, Json)>)
  {
    match g
    case Aborted(message) => [("error", JStr(UnexpectedPrefix + message))]
    case Collected(calls) => CoreJsonToolCallParser.ExtractResult(calls)
  }

  /** `extract`, with the loop of the source and its early exit on an unexpected
      exception. */
  method Extract(loads: string -> Loaded, text: string) returns (r: seq<(string, Json)>)
    ensures r == Outcome(Gather(loads, Segments(text)))
  {
    var jsonStrings := FindJsonContent(text);
    var validCalls: seq<Json> := [];
    var k := 0;
    while k < |jsonStrings|
      invariant 0 <= k <= |jsonStrings|
      invariant Gather(loads, jsonStrings[..k]) == Collected(validCalls)
    {
      assert jsonStrings[..k + 1][..k] == jsonStrings[..k];
      var loaded := loads(jsonStrings[k]);
      if loaded.Raised? && loaded.kind == OtherException {
        AbortedStays(loads, jsonStrings[..k + 1], jsonStrings[k + 1..]);
        assert jsonStrings[..k + 1] + jsonStrings[k + 1..] == jsonStrings;
        return [("error", JStr(UnexpectedPrefix + loaded.message))];
      }
      if loaded.Parsed? {
        var parsed := loaded.value;
        if parsed.JObj? {
          validCalls := validCalls + [parsed];
        } else if parsed.JArr? {
          validCalls := validCalls + parsed.items;
        }
      }
      k := k + 1;
    }
    assert jsonStrings[..k] == jsonStrings;
    r := if validCalls != [] then [("tool_calls", JArr(validCalls))]
         else [("error", JStr(CoreJsonToolCallParser.NoValidCalls))];
  }

  /** Once the loop has aborted, later segments change nothing. */
  lemma {:induction false} AbortedStays(loads: string -> Loaded, a: seq<string>, b: seq<string>)
    requires Gather(loads, a).Aborted?
    ensures Gather(loads, a + b) == Gather(loads, a)
    decreases |b|
  {
    if b == [] {
      assert a + b == a;
    } else {
      var n := |b| - 1;
      assert (a + b)[..|a + b| - 1] == a + b[..n];
      AbortedStays(loads, a, b[..n]);
    }
  }

  /** Without an unexpected exception, consecutive runs of segments contribute their
      calls in order. */
  lemma {:induction false} GatherAppend(loads: string -> Loaded, a: seq<string>, b: seq<string>)
    requires Gather(loads, a).Collected? && Gather(loads, b).Collected?
    ensures Gather(loads, a + b) == Collected(Gather(loads, a).calls + Gather(loads, b).calls)
    decreases |b|
  {
    if b == [] {
      assert a + b == a;
    } else {
      var n := |b| - 1;
      var ab := a + b;
      assert ab[..|ab| - 1] == a + b[..n] && ab[|ab| - 1] == b[n];
      GatherAppend(loads, a, b[..n]);
    }
  }

  /** The loop aborts exactly when some segment raises an exception other than
      `ValueError`, and then with the message of the first such segment; otherwise every
      segment raises `ValueError` or loads. */
  lemma {:induction false} FirstUnexpectedDecides(loads: string -> Loaded, segments: seq<string>)
    ensures Gather(loads, segments).Collected? <==>
      forall j :: 0 <= j < |segments| ==> !(loads(segments[j]).Raised? && loads(segments[j]).kind == OtherException)
    ensures Gather(loads, segments).Aborted? ==>
      exists j :: 0 <= j < |segments| && loads(segments[j]) == Raised(OtherException, Gather(loads, segments).message) &&
        forall i :: 0 <= i < j ==> !(loads(segments[i]).Raised? && loads(segments[i]).kind == OtherException)
    decreases |segments|
  {
    if segments != [] {
      var n := |segments| - 1;
      var front := segments[..n];
      FirstUnexpectedDecides(loads, front);
      assert forall j :: 0 <= j < n ==> segments[j] == front[j];
      if Gather(loads, front).Aborted? {
        var j :| 0 <= j < |front| && loads(front[j]) == Raised(OtherException, Gather(loads, front).message) &&
          forall i :: 0 <= i < j ==> !(loads(front[i]).Raised? && loads(front[i]).kind == OtherException);
        assert segments[j] == front[j];
      }
    }
  }

  /** Segments that all load or raise `ValueError` give the calls of the loaded dicts and
      lists, in order; with none left the result is the "No valid tool calls found"
      error. */
  lemma {:induction false} CollectedCalls(loads: string -> Loaded, segments: seq<string>)
    requires Gather(loads, segments).Collected?
    ensures Gather(loads, segments).calls == LoadedCalls(loads, segments)
    ensures Outcome(Gather(loads, segments)) ==
      if LoadedCalls(loads, segments) == [] then [("error", JStr("No valid tool calls found"))]
      else [("tool_calls", JArr(LoadedCalls(loads, segments)))]
    decreases |segments|
  {
    if segments != [] {
      var n := |segments| - 1;
      CollectedCalls(loads, segments[..n]);
      LoadedCallsSnoc(loads, segments[..n], segments[n]);
      assert segments[..n] + [segments[n]] == segments;
    }
  }

  lemma {:induction false} LoadedCallsSnoc(loads: string -> Loaded, a: seq<string>, s: string)
    ensures LoadedCalls(loads, a + [s]) ==
      LoadedCalls(loads, a) + (if loads(s).Parsed? then Added(loads(s).value) else [])
    decreases |a|
  {
    if a != [] {
      assert (a + [s])[1..] == a[1..] + [s];
      LoadedCallsSnoc(loads, a[1..], s);
    } else {
      assert [] + [s] == [s];
    }
  }

  /** The calls of the segments that load, in order, concatenated: the reference the loop
      is compared with. */
  function LoadedCalls(loads: string -> Loaded, segments: seq<string>): seq<Json>
  {
    if segments == [] then []
    else
      var l := loads(segments[0]);
      (if l.Parsed? then Added(l.value) else []) + LoadedCalls(loads, segments[1..])
  }
}
