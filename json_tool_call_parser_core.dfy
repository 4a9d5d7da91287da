/**
 * `JSONToolCallParser` of `tools/core/parsers/json_tool_call_parser.py`: every segment
 * `find_json_content` finds is loaded with `json5.loads`, string values that look like
 * JSON are loaded again recursively, dicts are kept and lists spliced in, and a segment
 * whose loading raises anything is skipped.
 *
 * `loads` is a parameter. Every string a JSON text yields is shorter than that text,
 * since a string literal needs its quotes; `LoadsShrink` states this, and it is what
 * makes the recursive re-loading terminate.
 */
module CoreJsonToolCallParser {
  import opened Wrappers
  import opened PyStr
  import opened JsonValue
  import opened JsonSegments

  /** The length of the longest string value inside `v` (dict keys are not counted). */
  function MaxStr(v: Json): nat
  {
    match v
    case JStr(s) => |s|
    case JArr(items) => MaxStrItems(items)
    case JObj(fields) => MaxStrFields(fields)
    case _ => 0
  }

  function MaxStrItems(items: seq<Json>): nat
  {
    if items == [] then 0
    else
      var a, b := MaxStr(items[0]), MaxStrItems(items[1..]);
      if a < b then b else a
  }

  function MaxStrFields(fields: seq<(string, Json)>): nat
  {
    if fields == [] then 0
    else
      var a, b := MaxStrField(fields[0]), MaxStrFields(fields[1..]);
      if a < b then b else a
  }

  function MaxStrField(field: (string, Json)): nat
  {
    MaxStr(field.1)
  }

  /** The number of nodes of `v`. */
  function Size(v: Json): nat
  {
    match v
    case JArr(items) => 1 + SizeItems(items)
    case JObj(fields) => 1 + SizeFields(fields)
    case _ => 1
  }

  function SizeItems(items: seq<Json>): nat
  {
    if items == [] then 0 else 1 + Size(items[0]) + SizeItems(items[1..])
  }

  function SizeFields(fields: seq<(string, Json)>): nat
  {
    if fields == [] then 0
    else
      1 + SizeField(fields[0]) + SizeFields(fields[1..])
  }

  function SizeField(field: (string, Json)): nat
  {
    Size(field.1)
  }

  /** Every string a successful load yields is shorter than the text loaded. */
  ghost predicate LoadsShrink(loads: string -> Loaded)
  {
    forall t :: loads(t).Parsed? ==> MaxStr(loads(t).value) < |t|
  }

  /** A string that, stripped, starts with `{` or `[`. */
  predicate LooksLikeJson(s: string)
  {
    var t := Strip(s);
    t != [] && (t[0] == '{' || t[0] == '[')
  }

  /** `parse_nested_json`: strings that look like JSON are loaded and processed again,
      keeping the string when loading raises; dict values and list items are processed
      in place; everything else is returned as it is. */
  function ParseNested(loads: string -> Loaded, v: Json): (r: Json)
    requires LoadsShrink(loads)
    ensures v.JObj? ==> r.JObj? && |r.fields| == |v.fields|
    ensures v.JObj? ==> forall i :: 0 <= i < |r.fields| ==> r.fields[i].0 == v.fields[i].0
    ensures v.JArr? ==> r.JArr? && |r.items| == |v.items|
    ensures v.JNull? || v.JBool? || v.JNum? ==> r == v
    ensures v.JStr? && !LooksLikeJson(v.s) ==> r == v
    ensures v.JStr? && LooksLikeJson(v.s) && loads(Strip(v.s)).Raised? ==> r == v
    decreases MaxStr(v), Size(v)
  {
    match v
    case JStr(s) =>
      var t := Strip(s);
      if t != [] && (t[0] == '{' || t[0] == '[') then
        match loads(t)
        case Parsed(p) => ParseNested(loads, p)
        case Raised(_, _) => v
      else v
    case JObj(fields) => JObj(ParseFields(loads, fields))
    case JArr(items) => JArr(ParseItems(loads, items))
    case _ => v
  }

  function ParseItems(loads: string -> Loaded, items: seq<Json>): (r: seq<Json>)
    requires LoadsShrink(loads)
    ensures |r| == |items|
    decreases MaxStrItems(items), SizeItems(items)
  {
    if items == [] then []
    else [ParseNested(loads, items[0])] + ParseItems(loads, items[1..])
  }

  function ParseFields(loads: string -> Loaded, fields: seq<(string, Json)>): (r: seq<(string, Json)>)
    requires LoadsShrink(loads)
    ensures |r| == |fields|
    ensures forall i :: 0 <= i < |r| ==> r[i].0 == fields[i].0
    decreases MaxStrFields(fields), SizeFields(fields)
  {
    if fields == [] then []
    else
      var (k, x) := fields[0];
      assert MaxStrField(fields[0]) == MaxStr(x) && SizeField(fields[0]) == Size(x);
      [(k, ParseNested(loads, x))] + ParseFields(loads, fields[1..])
  }

  /** No string inside `v` still looks like JSON that would load. */
  ghost predicate Settled(loads: string -> Loaded, v: Json)
  {
    match v
    case JStr(s) => !LooksLikeJson(s) || loads(Strip(s)).Raised?
    case JArr(items) => forall i :: 0 <= i < |items| ==> Settled(loads, items[i])
    case JObj(fields) => forall i :: 0 <= i < |fields| ==> Settled(loads, fields[i].1)
    case _ => true
  }

  /** After `parse_nested_json` nothing is left to re-load. */
  lemma {:induction false} ParseNestedSettled(loads: string -> Loaded, v: Json)
    requires LoadsShrink(loads)
    ensures Settled(loads, ParseNested(loads, v))
    decreases MaxStr(v), Size(v)
  {
    match v
    case JStr(s) =>
      var t := Strip(s);
      if t != [] && (t[0] == '{' || t[0] == '[') && loads(t).Parsed? {
        ParseNestedSettled(loads, loads(t).value);
      }
    case JObj(fields) => ParseFieldsSettled(loads, fields);
    case JArr(items) => ParseItemsSettled(loads, items);
    case _ =>
  }

  lemma {:induction false} ParseItemsSettled(loads: string -> Loaded, items: seq<Json>)
    requires LoadsShrink(loads)
    ensures forall i :: 0 <= i < |items| ==> Settled(loads, ParseItems(loads, items)[i])
    decreases MaxStrItems(items), SizeItems(items)
  {
    if items != [] {
      ParseNestedSettled(loads, items[0]);
      ParseItemsSettled(loads, items[1..]);
      var r := ParseItems(loads, items);
      assert forall i :: 1 <= i < |items| ==> r[i] == ParseItems(loads, items[1..])[i - 1];
    }
  }

  lemma {:induction false} ParseFieldsSettled(loads: string -> Loaded, fields: seq<(string, Json)>)
    requires LoadsShrink(loads)
    ensures forall i :: 0 <= i < |fields| ==> Settled(loads, ParseFields(loads, fields)[i].1)
    decreases MaxStrFields(fields), SizeFields(fields)
  {
    if fields != [] {
      assert MaxStrField(fields[0]) == MaxStr(fields[0].1) && SizeField(fields[0]) == Size(fields[0].1);
      ParseNestedSettled(loads, fields[0].1);
      ParseFieldsSettled(loads, fields[1..]);
      var r := ParseFields(loads, fields);
      assert forall i :: 1 <= i < |fields| ==> r[i] == ParseFields(loads, fields[1..])[i - 1];
    }
  }

  /** A settled value is left as it is, so applying `parse_nested_json` twice is applying
      it once. */
  lemma {:induction false} SettledFixed(loads: string -> Loaded, v: Json)
    requires LoadsShrink(loads) && Settled(loads, v)
    ensures ParseNested(loads, v) == v
    decreases Size(v)
  {
    match v
    case JObj(fields) => SettledFieldsFixed(loads, fields);
    case JArr(items) => SettledItemsFixed(loads, items);
    case _ =>
  }

  lemma {:induction false} SettledItemsFixed(loads: string -> Loaded, items: seq<Json>)
    requires LoadsShrink(loads) && forall i :: 0 <= i < |items| ==> Settled(loads, items[i])
    ensures ParseItems(loads, items) == items
    decreases SizeItems(items)
  {
    if items != [] {
      SettledFixed(loads, items[0]);
      SettledItemsFixed(loads, items[1..]);
    }
  }

  lemma {:induction false} SettledFieldsFixed(loads: string -> Loaded, fields: seq<(string, Json)>)
    requires LoadsShrink(loads) && forall i :: 0 <= i < |fields| ==> Settled(loads, fields[i].1)
    ensures ParseFields(loads, fields) == fields
    decreases SizeFields(fields)
  {
    if fields != [] {
      assert SizeField(fields[0]) == Size(fields[0].1);
      SettledFixed(loads, fields[0].1);
      SettledFieldsFixed(loads, fields[1..]);
    }
  }

  lemma {:induction false} ParseNestedIdempotent(loads: string -> Loaded, v: Json)
    requires LoadsShrink(loads)
    ensures ParseNested(loads, ParseNested(loads, v)) == ParseNested(loads, v)
  {
    ParseNestedSettled(loads, v);
    SettledFixed(loads, ParseNested(loads, v));
  }

  /** The calls one segment contributes: nothing when loading raises, the processed dict,
      the items of the processed list, or nothing for any other value. */
  function Contribution(loads: string -> Loaded, segment: string): seq<Json>
    requires LoadsShrink(loads)
  {
    match loads(segment)
    case Raised(_, _) => []
    case Parsed(v) =>
      var p := ParseNested(loads, v);
      if p.JObj? then [p] else if p.JArr? then p.items else []
  }

  /** The calls of all segments, in segment order. */
  function Calls(loads: string -> Loaded, segments: seq<string>): seq<Json>
    requires LoadsShrink(loads)
  {
    if segments == [] then []
    else Calls(loads, segments[..|segments| - 1]) + Contribution(loads, segments[|segments| - 1])
  }

  const NoValidCalls := "No valid tool calls found"

  /** `{"tool_calls": calls}` when some call survives, else the error dict. */
  function ExtractResult(calls: seq<Json>): (r: seq<(string, Json)>)
  {
    if calls != [] then [("tool_calls", JArr(calls))] else [("error", JStr(NoValidCalls))]
  }

  /** `extract`: the segments of the text, each loaded and processed, dicts appended and
      lists spliced in. */
  method Extract(loads: string -> Loaded, text: string) returns (r: seq<(string, Json)>)
    requires LoadsShrink(loads)
    ensures r == ExtractResult(Calls(loads, Segments(text)))
  {
    var jsonStrings := FindJsonContent(text);
    var validCalls: seq<Json> := [];
    var k := 0;
    while k < |jsonStrings|
      invariant 0 <= k <= |jsonStrings|
      invariant validCalls == Calls(loads, jsonStrings[..k])
    {
      assert jsonStrings[..k + 1][..k] == jsonStrings[..k];
      var loaded := loads(jsonStrings[k]);
      if loaded.Parsed? {
        var parsed := ParseNested(loads, loaded.value);
        if parsed.JObj? {
          validCalls := validCalls + [parsed];
        } else if parsed.JArr? {
          validCalls := validCalls + parsed.items;
        }
      }
      k := k + 1;
    }
    assert jsonStrings[..k] == jsonStrings;
    r := if validCalls != [] then [("tool_calls", JArr(validCalls))] else [("error", JStr(NoValidCalls))];
  }

  /** One more segment adds its own contribution after the others. */
  lemma {:induction false} CallsSnoc(loads: string -> Loaded, segments: seq<string>, segment: string)
    requires LoadsShrink(loads)
    ensures Calls(loads, segments + [segment]) == Calls(loads, segments) + Contribution(loads, segment)
  {
    var all := segments + [segment];
    assert all[..|all| - 1] == segments;
  }

  lemma {:induction false} AppendAssoc(x: seq<Json>, y: seq<Json>, z: seq<Json>)
    ensures x + y + z == x + (y + z)
  {
  }

  /** The calls of consecutive runs of segments are those of each run, in order. */
  lemma {:induction false} CallsAppend(loads: string -> Loaded, a: seq<string>, b: seq<string>)
    requires LoadsShrink(loads)
    ensures Calls(loads, a + b) == Calls(loads, a) + Calls(loads, b)
    decreases |b|
  {
    if b == [] {
      assert a + b == a;
    } else {
      var n := |b| - 1;
      assert a + b == (a + b[..n]) + [b[n]];
      assert b == b[..n] + [b[n]];
      CallsAppend(loads, a, b[..n]);
      CallsSnoc(loads, a + b[..n], b[n]);
      CallsSnoc(loads, b[..n], b[n]);
      AppendAssoc(Calls(loads, a), Calls(loads, b[..n]), Contribution(loads, b[n]));
    }
  }

  /** Every call returned is settled: nothing in it looks like JSON that would still
      load. */
  lemma {:induction false} CallsSettled(loads: string -> Loaded, segments: seq<string>)
    requires LoadsShrink(loads)
    ensures forall i :: 0 <= i < |Calls(loads, segments)| ==> Settled(loads, Calls(loads, segments)[i])
    decreases |segments|
  {
    if segments != [] {
      var n := |segments| - 1;
      CallsSettled(loads, segments[..n]);
      var c := Contribution(loads, segments[n]);
      if loads(segments[n]).Parsed? {
        ParseNestedSettled(loads, loads(segments[n]).value);
      }
      assert forall i :: 0 <= i < |c| ==> Settled(loads, c[i]);
    }
  }

  /** A segment that does not load contributes nothing; one that loads to a dict
      contributes that dict, processed. */
  lemma {:induction false} ContributionCases(loads: string -> Loaded, segment: string)
    requires LoadsShrink(loads)
    ensures loads(segment).Raised? ==> Contribution(loads, segment) == []
    ensures loads(segment).Parsed? && loads(segment).value.JObj? ==>
      Contribution(loads, segment) == [ParseNested(loads, loads(segment).value)]
    ensures loads(segment).Parsed? && loads(segment).value.JArr? ==>
      |Contribution(loads, segment)| == |loads(segment).value.items|
  {
  }
}
