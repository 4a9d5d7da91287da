/**
 * `VendorToolCallDetectionStrategy` of `vendor_detection_strategy.py`: the model's own
 * structured tool-call fragments are accumulated (the latest non-empty name, all the
 * argument pieces), and a chunk whose finish reason is `"tool_calls"` turns them into one
 * tool call. `json.loads` is the parameter `loads`; a `ValueError` stands for its
 * `JSONDecodeError`, and any other exception propagates out of `detect_chunk`.
 */
module VendorDetectionStrategy {
  import opened Wrappers
  import opened JsonValue
  import opened Detection

  const GeneratedId := "call_generated"

  /** The name and the arguments accumulated so far. */
  datatype Pending = Pending(name: Option<string>, args: string)

  /** Everything the strategy keeps between chunks. */
  datatype VendorState = VendorState(pending: Pending, collected: seq<ToolCall>, found: bool)

  const Initial := VendorState(Pending(None, ""), [], false)

  /** The first tool-call fragment of a delta, when its list is present and non-empty. */
  function Fragment(delta: SseDelta): Option<SseToolCall>
  {
    if delta.toolCalls.Some? && delta.toolCalls.value != [] then Some(delta.toolCalls.value[0]) else None
  }

  /** The name a fragment sets, when it carries a non-empty one. */
  function NameOf(frag: Option<SseToolCall>): Option<string>
  {
    if frag.Some? && frag.value.func.Some? && frag.value.func.value.name != [] then Some(frag.value.func.value.name)
    else None
  }

  /** The argument text a fragment carries, or nothing. */
  function ArgsOf(frag: Option<SseToolCall>): string
  {
    if frag.Some? && frag.value.func.Some? then frag.value.func.value.arguments else ""
  }

  /** One fragment read into the pending call. */
  function Accumulated(p: Pending, frag: Option<SseToolCall>): Pending
  {
    Pending(if NameOf(frag).Some? then NameOf(frag) else p.name,
            if ArgsOf(frag) != [] then p.args + ArgsOf(frag) else p.args)
  }

  /** The arguments of the call: `{}` for none, else what `loads` makes of them, with a
      decode error kept as `{"_malformed": raw}`. */
  function ParsedArgs(loads: string -> Loaded, args: string): Result<Json>
  {
    if args == [] then Success(JObj([]))
    else match loads(args)
      case Parsed(v) => Success(v)
      case Raised(ValueError, _) => Success(JObj([("_malformed", JStr(args))]))
      case Raised(OtherException, message) => Failure(message)
  }

  /** The call's id: the fragment's own, when it has a non-empty one. */
  function CallId(frag: Option<SseToolCall>): string
  {
    if frag.Some? && Truthy(frag.value.id) then frag.value.id.value else GeneratedId
  }

  /** The tool call a finished pending call becomes. */
  function Completed(loads: string -> Loaded, name: string, args: string, frag: Option<SseToolCall>): Result<ToolCall>
  {
    match ParsedArgs(loads, args)
    case Failure(e) => Failure(e)
    case Success(v) => MakeToolCall(CallId(frag), JStr("function"), JStr(name), v)
  }

  /** `detect_chunk`, and the state it leaves: the fragment is read first, so an exception
      keeps what was accumulated; a finishing chunk with a pending name completes a call,
      which does not clear the pending one. */
  function Detected(loads: string -> Loaded, s: VendorState, chunk: SseChunk): (Result<DetectionResult>, VendorState)
  {
    if chunk.choices == [] then (Success(Bare(NoMatch, None)), s)
    else
      var choice := chunk.choices[0];
      var frag := Fragment(choice.delta);
      Decided(loads, s, Accumulated(s.pending, frag), frag, TextOf(choice.delta), choice.finishReason == Some("tool_calls"))
  }

  /** The text a delta passes on: its content, `None` when empty. */
  function TextOf(delta: SseDelta): Option<string>
  {
    if Truthy(delta.content) then delta.content else None
  }

  /** What follows once the fragment is read into `p`. */
  function Decided(loads: string -> Loaded, s: VendorState, p: Pending, frag: Option<SseToolCall>, text: Option<string>,
                   finishing: bool): (Result<DetectionResult>, VendorState)
  {
    if finishing && Truthy(p.name) then
      match Completed(loads, p.name.value, p.args, frag)
      case Failure(e) => (Failure(e), s.(pending := p))
      case Success(call) =>
        (Success(DetectionResult(CompleteMatch, Some([call]), text, None)), VendorState(p, s.collected + [call], true))
    else if Truthy(p.name) || p.args != [] then (Success(DetectionResult(PartialMatch, None, text, None)), s.(pending := p))
    else (Success(DetectionResult(NoMatch, None, text, None)), s.(pending := p))
  }

  /** The calls a result emits: those of a complete match. */
  function CallsOf(r: Result<DetectionResult>): seq<ToolCall>
  {
    if r.Success? && r.value.state == CompleteMatch then r.value.toolCalls.GetOr([]) else []
  }

  /** What one chunk does to the state: the pending call takes in the chunk's fragment,
      and the collected calls grow by exactly the calls the result emits. */
  lemma {:induction false} DetectedState(loads: string -> Loaded, s: VendorState, chunk: SseChunk)
    ensures Detected(loads, s, chunk).1.pending ==
      if chunk.choices == [] then s.pending else Accumulated(s.pending, Fragment(chunk.choices[0].delta))
    ensures Detected(loads, s, chunk).1.collected == s.collected + CallsOf(Detected(loads, s, chunk).0)
    ensures Detected(loads, s, chunk).1.found <==>
      s.found || (Detected(loads, s, chunk).0.Success? && Detected(loads, s, chunk).0.value.state == CompleteMatch)
  {
  }

  /** `finalize_detection`: all the collected calls once one has completed. */
  function Finalized(s: VendorState): DetectionResult
  {
    if s.found then DetectionResult(CompleteMatch, Some(s.collected), None, None) else Bare(NoMatch, None)
  }

  class VendorStrategy {
    const loads: string -> Loaded
    var partialName: Option<string>
    var partialArgs: string
    var collectedToolCalls: seq<ToolCall>
    var foundCompleteCall: bool

    function State(): VendorState
      reads this
    {
      VendorState(Pending(partialName, partialArgs), collectedToolCalls, foundCompleteCall)
    }

    constructor (loads: string -> Loaded)
      ensures this.loads == loads && State() == Initial
    {
      this.loads := loads;
      partialName := None;
      partialArgs := "";
      collectedToolCalls := [];
      foundCompleteCall := false;
    }

    method Reset()
      modifies this
      ensures State() == Initial
    {
      partialName := None;
      partialArgs := "";
      collectedToolCalls := [];
      foundCompleteCall := false;
    }

    method DetectChunk(chunk: SseChunk) returns (r: Result<DetectionResult>)
      modifies this
      ensures r == Detected(loads, old(State()), chunk).0
      ensures State() == Detected(loads, old(State()), chunk).1
    {
      var toolCallData: Option<SseToolCall> := None;
      if chunk.choices == [] {
        return Success(Bare(NoMatch, None));
      }
      var delta := chunk.choices[0].delta;
      var finishReason := chunk.choices[0].finishReason;
      var textContent := if delta.content.Some? && delta.content.value != [] then delta.content else None;
      if delta.toolCalls.Some? && delta.toolCalls.value != [] {
        toolCallData := Some(delta.toolCalls.value[0]);
        var functionName := if toolCallData.value.func.Some? then Some(toolCallData.value.func.value.name) else None;
        var arguments := if toolCallData.value.func.Some? then Some(toolCallData.value.func.value.arguments) else None;
        if functionName.Some? && functionName.value != [] {
          partialName := functionName;
        }
        if arguments.Some? && arguments.value != [] {
          partialArgs := partialArgs + arguments.value;
        }
      }
      ghost var before := old(State());
      assert toolCallData == Fragment(delta);
      assert Pending(partialName, partialArgs) == Accumulated(before.pending, toolCallData);
      assert textContent == TextOf(delta);
      ghost var outcome := Decided(loads, before, Pending(partialName, partialArgs), toolCallData, textContent,
                                   finishReason == Some("tool_calls"));
      assert Detected(loads, before, chunk) == outcome;
      if finishReason == Some("tool_calls") && partialName.Some? && partialName.value != [] {
        r := CompleteCall(toolCallData, textContent);
        return;
      }
      if (partialName.Some? && partialName.value != []) || partialArgs != [] {
        return Success(DetectionResult(PartialMatch, None, textContent, None));
      }
      return Success(DetectionResult(NoMatch, None, textContent, None));
    }

    /** Lines 111-131 of `detect_chunk`: the pending call becomes a tool call, which is
        collected and returned. */
    method CompleteCall(toolCallData: Option<SseToolCall>, textContent: Option<string>) returns (r: Result<DetectionResult>)
      requires Truthy(partialName)
      modifies this
      ensures r == Decided(loads, old(State()), old(State()).pending, toolCallData, textContent, true).0
      ensures State() == Decided(loads, old(State()), old(State()).pending, toolCallData, textContent, true).1
    {
      var parsedArgs := ParseArguments(partialArgs);
      if parsedArgs.Failure? {
        return Failure(parsedArgs.error);
      }
      var id := if toolCallData.Some? && toolCallData.value.id.Some? && toolCallData.value.id.value != []
                then toolCallData.value.id.value else GeneratedId;
      assert id == CallId(toolCallData);
      var toolCall := MakeToolCall(id, JStr("function"), JStr(partialName.value), parsedArgs.value);
      if toolCall.Failure? {
        return Failure(toolCall.error);
      }
      collectedToolCalls := collectedToolCalls + [toolCall.value];
      foundCompleteCall := true;
      return Success(DetectionResult(CompleteMatch, Some([toolCall.value]), textContent, None));
    }

    /** The `try`/`except` around `json.loads` of the accumulated arguments. */
    method ParseArguments(args: string) returns (r: Result<Json>)
      ensures r == ParsedArgs(loads, args)
    {
      if args == [] {
        return Success(JObj([]));
      }
      var loaded := loads(args);
      if loaded.Raised? && loaded.kind == OtherException {
        return Failure(loaded.message);
      }
      r := Success(if loaded.Parsed? then loaded.value else JObj([("_malformed", JStr(args))]));
    }

    method FinalizeDetection() returns (r: DetectionResult)
      ensures r == Finalized(State())
    {
      if foundCompleteCall {
        return DetectionResult(CompleteMatch, Some(collectedToolCalls), None, None);
      }
      if (partialName.Some? && partialName.value != []) || partialArgs != [] {
        return Bare(NoMatch, None);
      }
      return Bare(NoMatch, None);
    }
  }

  /** The results of a stream of chunks, in order, and the state after the last one. */
  datatype Trace = Trace(results: seq<Result<DetectionResult>>, state: VendorState)

  /** A stream of chunks from state `s`. A failing chunk is recorded and the stream goes on
      from the state it left. */
  function Run(loads: string -> Loaded, s: VendorState, chunks: seq<SseChunk>): Trace
  {
    if chunks == [] then Trace([], s)
    else
      var prev := Run(loads, s, chunks[..|chunks| - 1]);
      var step := Detected(loads, prev.state, chunks[|chunks| - 1]);
      Trace(prev.results + [step.0], step.1)
  }

  /** The fragments of a stream of chunks, one per chunk that has a choice. */
  function Fragments(chunks: seq<SseChunk>): seq<Option<SseToolCall>>
  {
    if chunks == [] then []
    else
      var last := chunks[|chunks| - 1];
      Fragments(chunks[..|chunks| - 1]) + (if last.choices == [] then [] else [Fragment(last.choices[0].delta)])
  }

  /** All the argument pieces of some fragments, concatenated in order. */
  function AllArgs(frags: seq<Option<SseToolCall>>): string
  {
    if frags == [] then "" else ArgsOf(frags[0]) + AllArgs(frags[1..])
  }

  lemma {:induction false} AllArgsSnoc(frags: seq<Option<SseToolCall>>, f: Option<SseToolCall>)
    ensures AllArgs(frags + [f]) == AllArgs(frags) + ArgsOf(f)
    decreases |frags|
  {
    if frags == [] {
      assert [] + [f] == [f];
    } else {
      assert (frags + [f])[1..] == frags[1..] + [f];
      AllArgsSnoc(frags[1..], f);
    }
  }

  /** The pending call after one more chunk. */
  lemma {:induction false} RunPending(loads: string -> Loaded, s: VendorState, chunks: seq<SseChunk>)
    requires chunks != []
    ensures var last := chunks[|chunks| - 1];
      var before := Run(loads, s, chunks[..|chunks| - 1]).state.pending;
      Run(loads, s, chunks).state.pending ==
        if last.choices == [] then before else Accumulated(before, Fragment(last.choices[0].delta))
  {
    var n := |chunks| - 1;
    var prev := Run(loads, s, chunks[..n]);
    assert Run(loads, s, chunks).state == Detected(loads, prev.state, chunks[n]).1;
    DetectedState(loads, prev.state, chunks[n]);
  }

  /** The pending arguments are all the argument pieces streamed so far, in order, whatever
      the finish reasons, completions and failures along the way. */
  lemma {:induction false} ArgumentsAccumulate(loads: string -> Loaded, s: VendorState, chunks: seq<SseChunk>)
    ensures Run(loads, s, chunks).state.pending.args == s.pending.args + AllArgs(Fragments(chunks))
    decreases |chunks|
  {
    if chunks == [] {
      assert s.pending.args + "" == s.pending.args;
    } else {
      var n := |chunks| - 1;
      ArgumentsAccumulate(loads, s, chunks[..n]);
      RunPending(loads, s, chunks);
      if chunks[n].choices != [] {
        var f := Fragment(chunks[n].choices[0].delta);
        assert Fragments(chunks) == Fragments(chunks[..n]) + [f];
        AccumulatedArgs(Run(loads, s, chunks[..n]).state.pending, Fragments(chunks[..n]), f, s.pending.args);
      } else {
        assert Fragments(chunks) == Fragments(chunks[..n]);
      }
    }
  }

  lemma {:induction false} AccumulatedArgs(p: Pending, frags: seq<Option<SseToolCall>>, f: Option<SseToolCall>, a: string)
    requires p.args == a + AllArgs(frags)
    ensures Accumulated(p, f).args == a + AllArgs(frags + [f])
  {
    AllArgsSnoc(frags, f);
  }

  /** Fragment `j` is the last one that carries a name. */
  predicate LastNamed(frags: seq<Option<SseToolCall>>, j: int)
  {
    0 <= j < |frags| && NameOf(frags[j]).Some? && forall k :: j < k < |frags| ==> NameOf(frags[k]).None?
  }

  /** The pending name is the last non-empty name streamed, or the initial one if none
      was. */
  lemma {:induction false} LastNameWins(loads: string -> Loaded, s: VendorState, chunks: seq<SseChunk>)
    ensures (forall j :: 0 <= j < |Fragments(chunks)| ==> NameOf(Fragments(chunks)[j]).None?) ==>
      Run(loads, s, chunks).state.pending.name == s.pending.name
    ensures forall j :: LastNamed(Fragments(chunks), j) ==> Run(loads, s, chunks).state.pending.name == NameOf(Fragments(chunks)[j])
    decreases |chunks|
  {
    if chunks != [] {
      var n := |chunks| - 1;
      LastNameWins(loads, s, chunks[..n]);
      RunPending(loads, s, chunks);
      var front := Fragments(chunks[..n]);
      if chunks[n].choices != [] {
        var f := Fragment(chunks[n].choices[0].delta);
        assert Fragments(chunks) == front + [f];
        AccumulatedName(Run(loads, s, chunks[..n]).state.pending, front, f, s.pending.name);
      } else {
        assert Fragments(chunks) == front;
      }
    }
  }

  lemma {:induction false} AccumulatedName(p: Pending, frags: seq<Option<SseToolCall>>, f: Option<SseToolCall>, initial: Option<string>)
    requires (forall j :: 0 <= j < |frags| ==> NameOf(frags[j]).None?) ==> p.name == initial
    requires forall j :: LastNamed(frags, j) ==> p.name == NameOf(frags[j])
    ensures var all := frags + [f];
      (forall j :: 0 <= j < |all| ==> NameOf(all[j]).None?) ==> Accumulated(p, f).name == initial
    ensures forall j :: LastNamed(frags + [f], j) ==> Accumulated(p, f).name == NameOf((frags + [f])[j])
  {
    var all := frags + [f];
    assert forall j :: 0 <= j < |frags| ==> all[j] == frags[j];
    assert all[|frags|] == f;
    forall j | LastNamed(all, j)
      ensures Accumulated(p, f).name == NameOf(all[j])
    {
      if j < |frags| {
        assert LastNamed(frags, j);
      }
    }
  }

  /** The calls of the results that are complete matches, in order. */
  function EmittedCalls(rs: seq<Result<DetectionResult>>): seq<ToolCall>
  {
    if rs == [] then []
    else
      EmittedCalls(rs[..|rs| - 1]) + CallsOf(rs[|rs| - 1])
  }

  /** Whether some result is a complete match. */
  predicate AnyComplete(rs: seq<Result<DetectionResult>>)
  {
    exists i :: 0 <= i < |rs| && rs[i].Success? && rs[i].value.state == CompleteMatch
  }

  /** The collected calls are exactly the calls emitted by complete matches, in order, and
      a call has been found exactly when some chunk was a complete match. */
  lemma {:induction false} CollectedAreEmitted(loads: string -> Loaded, s: VendorState, chunks: seq<SseChunk>)
    ensures Run(loads, s, chunks).state.collected == s.collected + EmittedCalls(Run(loads, s, chunks).results)
    ensures Run(loads, s, chunks).state.found <==> s.found || AnyComplete(Run(loads, s, chunks).results)
    ensures |Run(loads, s, chunks).results| == |chunks|
    decreases |chunks|
  {
    if chunks != [] {
      var n := |chunks| - 1;
      CollectedAreEmitted(loads, s, chunks[..n]);
      var rs, t := Run(loads, s, chunks[..n]).results, Run(loads, s, chunks[..n]).state;
      var r := Detected(loads, t, chunks[n]).0;
      RunStep(loads, s, chunks);
      DetectedState(loads, t, chunks[n]);
      EmittedSnoc(rs, r);
    }
  }

  lemma {:induction false} EmittedSnoc(rs: seq<Result<DetectionResult>>, r: Result<DetectionResult>)
    ensures EmittedCalls(rs + [r]) == EmittedCalls(rs) + CallsOf(r)
    ensures AnyComplete(rs + [r]) <==> AnyComplete(rs) || (r.Success? && r.value.state == CompleteMatch)
  {
    var all := rs + [r];
    assert all[..|all| - 1] == rs;
    assert forall i :: 0 <= i < |rs| ==> all[i] == rs[i];
    if AnyComplete(rs) {
      var i :| 0 <= i < |rs| && rs[i].Success? && rs[i].value.state == CompleteMatch;
      assert all[i] == rs[i];
    }
    if r.Success? && r.value.state == CompleteMatch {
      assert all[|rs|] == r;
    }
  }

  /** The trace after one more chunk. */
  lemma {:induction false} RunStep(loads: string -> Loaded, s: VendorState, chunks: seq<SseChunk>)
    requires chunks != []
    ensures var prev := Run(loads, s, chunks[..|chunks| - 1]);
      var step := Detected(loads, prev.state, chunks[|chunks| - 1]);
      Run(loads, s, chunks) == Trace(prev.results + [step.0], step.1)
  {
  }

  /** At the end of a stream that started fresh, finalizing returns every emitted call as
      one complete match if any chunk completed a call, and `NO_MATCH` otherwise. */
  lemma {:induction false} StreamFinalized(loads: string -> Loaded, chunks: seq<SseChunk>)
    ensures var rs, s := Run(loads, Initial, chunks).results, Run(loads, Initial, chunks).state;
      (AnyComplete(rs) ==> Finalized(s) == DetectionResult(CompleteMatch, Some(EmittedCalls(rs)), None, None)) &&
      (!AnyComplete(rs) ==> Finalized(s) == Bare(NoMatch, None))
  {
    var tr := Run(loads, Initial, chunks);
    CollectedAreEmitted(loads, Initial, chunks);
    assert tr.state.collected == EmittedCalls(tr.results);
  }

  /** A chunk without choices is `NO_MATCH` without content and changes nothing. */
  lemma {:induction false} NoChoicesNoMatch(loads: string -> Loaded, s: VendorState, chunk: SseChunk)
    requires chunk.choices == []
    ensures Detected(loads, s, chunk) == (Success(DetectionResult(NoMatch, None, None, None)), s)
  {
  }

  /** Every chunk with a choice that does not fail passes its text on unchanged (`None`
      for empty text), whatever its state. */
  lemma {:induction false} TextPassesThrough(loads: string -> Loaded, s: VendorState, chunk: SseChunk)
    requires chunk.choices != [] && Detected(loads, s, chunk).0.Success?
    ensures Detected(loads, s, chunk).0.value.content ==
      if Truthy(chunk.choices[0].delta.content) then chunk.choices[0].delta.content else None
    ensures Detected(loads, s, chunk).0.value.sseChunk == None
  {
  }

  /** A finishing chunk with a pending name and arguments `loads` accepts as a dict emits
      exactly one call, with that name and those arguments, and appends it to the
      collected ones. */
  lemma {:induction false} CompletionEmitsOne(loads: string -> Loaded, s: VendorState, chunk: SseChunk, fields: seq<(string, Json)>)
    requires chunk.choices != [] && chunk.choices[0].finishReason == Some("tool_calls")
    requires var p := Accumulated(s.pending, Fragment(chunk.choices[0].delta));
      Truthy(p.name) && p.args != [] && loads(p.args) == Parsed(JObj(fields))
    ensures var (r, t) := Detected(loads, s, chunk);
      var p := Accumulated(s.pending, Fragment(chunk.choices[0].delta));
      var call := ToolCall(CallId(Fragment(chunk.choices[0].delta)), FunctionDetail(p.name.value, fields));
      r.Success? && r.value.state == CompleteMatch && r.value.toolCalls == Some([call]) &&
      t == VendorState(p, s.collected + [call], true)
  {
  }

  /** Arguments `loads` cannot decode are kept raw under `_malformed`; no arguments at all
      give `{}`. */
  lemma {:induction false} ArgumentsFallbacks(loads: string -> Loaded, args: string)
    ensures args == [] ==> ParsedArgs(loads, args) == Success(JObj([]))
    ensures args != [] && loads(args).Raised? && loads(args).kind == ValueError ==>
      ParsedArgs(loads, args) == Success(JObj([("_malformed", JStr(args))]))
    ensures ParsedArgs(loads, args).Success? ==> ParsedArgs(loads, args).value.JObj? || (args != [] && loads(args).Parsed?)
  {
  }

  /** Arguments that decode to something other than a dict fail the tool-call model, and
      the exception propagates. */
  lemma {:induction false} NonDictArgumentsFail(loads: string -> Loaded, s: VendorState, chunk: SseChunk)
    requires chunk.choices != [] && chunk.choices[0].finishReason == Some("tool_calls")
    requires var p := Accumulated(s.pending, Fragment(chunk.choices[0].delta));
      Truthy(p.name) && p.args != [] && loads(p.args).Parsed? && !loads(p.args).value.JObj?
    ensures Detected(loads, s, chunk).0 == Failure("validation error for FunctionDetail")
  {
  }

  /** A finishing chunk without any pending name completes nothing: `PARTIAL_MATCH` while
      arguments are pending, `NO_MATCH` otherwise, and no call is collected. */
  lemma {:induction false} NoNameNoCompletion(loads: string -> Loaded, s: VendorState, chunk: SseChunk)
    requires chunk.choices != []
    requires !Truthy(Accumulated(s.pending, Fragment(chunk.choices[0].delta)).name)
    ensures var (r, t) := Detected(loads, s, chunk);
      r.Success? && t.collected == s.collected && t.found == s.found &&
      r.value.state == (if Accumulated(s.pending, Fragment(chunk.choices[0].delta)).args != [] then PartialMatch else NoMatch)
  {
  }

  /** Completing does not clear the pending call: a second finishing chunk with no new
      fragment emits the same call again and collects it twice. */
  lemma {:induction false} CompletionRepeats(loads: string -> Loaded, s: VendorState, chunk: SseChunk)
    requires chunk.choices != [] && chunk.choices[0].finishReason == Some("tool_calls")
    requires Fragment(chunk.choices[0].delta) == None
    requires Detected(loads, s, chunk).0.Success? && Detected(loads, s, chunk).0.value.state == CompleteMatch
    ensures var (r, t) := Detected(loads, s, chunk);
      var (r2, t2) := Detected(loads, t, chunk);
      r2 == r && t2.collected == s.collected + r.value.toolCalls.value + r.value.toolCalls.value
  {
  }
}
