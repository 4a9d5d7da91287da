/**
 * `ManualToolCallDetectionStrategy` of `manual_detection_strategy.py`: the text of each
 * streamed chunk goes through the whitespace-insensitive buffered processor; text before a
 * tool-call marker is passed on, and from the marker on everything is collected and handed
 * to the tool-call parser when the stream ends.
 *
 * The pattern file becomes the pattern table given to the constructor, and the parser's
 * `parse` a function parameter. An exception the processor raises (`KeyError`,
 * `IndexError`) propagates out of `detect_chunk`: the method then returns `Failure`.
 */
module ManualDetectionStrategy {
  import opened Wrappers
  import opened PyStr
  import opened TrieSpec
  import opened PatternUtils
  import opened Streaming
  import opened BaseBufferedProcessor
  import opened AhoCorasick
  import opened AhoCorasickNormalized
  import opened BufferedProcessorNormalized
  import opened JsonValue
  import opened BaseToolCallParser
  import opened Detection

  const Apology := "Sorry, but I was unable to complete your request. Please try again."
  const PlaceholderId := "123456789"

  /** The text of a chunk: the first choice's delta content, if there is a choice. */
  function ChunkContent(chunk: SseChunk): Option<string>
  {
    if chunk.choices == [] then None else chunk.choices[0].delta.content
  }

  /** Whether a tool call is being collected, and what has been collected. */
  datatype Mode = Mode(inToolCall: bool, toolCallBuffer: string)

  /** What `detect_chunk` does with the processor's result for a chunk with text: an error
      gives `NO_MATCH`; a match starts collecting at the marker and returns empty content;
      while collecting, the chunk's text is appended whole; otherwise the processor's
      output, if any, is passed on. */
  function OnProcessed(m: Mode, text: string, chunk: SseChunk, pr: PatternMatchResult): (DetectionResult, Mode)
  {
    if Truthy(pr.error) then (Bare(NoMatch, Some(chunk)), m)
    else if pr.matched then
      (DetectionResult(PartialMatch, None, Some(""), Some(chunk)), Mode(true, pr.textWithToolCall.GetOr([])))
    else if m.inToolCall then (Bare(PartialMatch, Some(chunk)), Mode(true, m.toolCallBuffer + text))
    else if Truthy(pr.output) then (DetectionResult(PartialMatch, None, pr.output, Some(chunk)), m)
    else (Bare(NoMatch, Some(chunk)), m)
  }

  /** The tool call `_extract_tool_calls` builds from one entry: `.get` needs a dict; the
      arguments come from `parameters`, else `arguments`; the type defaults to
      `"function"`. */
  function EntryToolCall(entry: Json): (r: Result<ToolCall>)
    ensures r.Success? ==> entry.JObj? && r.value.id == PlaceholderId
  {
    match entry
    case JObj(f) =>
      var args := match Get(f, "parameters")
        case Some(p) => p
        case None => Get(f, "arguments").GetOr(JNull);
      MakeToolCall(PlaceholderId, Get(f, "type").GetOr(JStr("function")), Get(f, "name").GetOr(JNull), args)
    case _ => Failure("'" + TypeName(entry) + "' object has no attribute 'get'")
  }

  /** The entries `parsed_output.get("tool_calls", [])` iterates over. */
  function Entries(parsed: seq<(string, Json)>): Result<seq<Json>>
  {
    match Get(parsed, "tool_calls")
    case None => Success([])
    case Some(v) => Iterated(v)
  }

  /** The tool calls of the entries, in order, or the first exception. */
  function EntriesToolCalls(entries: seq<Json>): Result<seq<ToolCall>>
  {
    if entries == [] then Success([])
    else
      match EntriesToolCalls(entries[..|entries| - 1])
      case Failure(e) => Failure(e)
      case Success(done) =>
        match EntryToolCall(entries[|entries| - 1])
        case Failure(e) => Failure(e)
        case Success(c) => Success(done + [c])
  }

  function ToolCallsOf(parsed: seq<(string, Json)>): Result<seq<ToolCall>>
  {
    match Entries(parsed)
    case Failure(e) => Failure(e)
    case Success(entries) => EntriesToolCalls(entries)
  }

  /** `_extract_tool_calls`, with the loop of the source. */
  method ExtractToolCalls(parsed: seq<(string, Json)>) returns (r: Result<seq<ToolCall>>)
    ensures r == ToolCallsOf(parsed)
  {
    var entries := Entries(parsed);
    if entries.Failure? {
      return Failure(entries.error);
    }
    var items := entries.value;
    var toolCalls: seq<ToolCall> := [];
    var i := 0;
    while i < |items|
      invariant 0 <= i <= |items|
      invariant EntriesToolCalls(items[..i]) == Success(toolCalls)
    {
      var call := EntryToolCall(items[i]);
      if call.Failure? {
        EntriesStop(items, i, toolCalls);
        return Failure(call.error);
      }
      EntriesExtend(items, i, toolCalls);
      toolCalls := toolCalls + [call.value];
      i := i + 1;
    }
    assert items[..i] == items;
    r := Success(toolCalls);
  }

  /** One more entry that converts extends the tool calls by its call. */
  lemma {:induction false} EntriesExtend(items: seq<Json>, i: nat, done: seq<ToolCall>)
    requires i < |items| && EntriesToolCalls(items[..i]) == Success(done)
    requires EntryToolCall(items[i]).Success?
    ensures EntriesToolCalls(items[..i + 1]) == Success(done + [EntryToolCall(items[i]).value])
  {
    assert items[..i + 1][..i] == items[..i];
  }

  /** The first entry that does not convert decides the outcome for the whole list. */
  lemma {:induction false} EntriesStop(items: seq<Json>, i: nat, done: seq<ToolCall>)
    requires i < |items| && EntriesToolCalls(items[..i]) == Success(done)
    requires EntryToolCall(items[i]).Failure?
    ensures EntriesToolCalls(items) == Failure(EntryToolCall(items[i]).error)
  {
    EntriesFailAt(items, i, done);
    EntriesFailureStays(items, i + 1);
  }

  lemma {:induction false} EntriesFailAt(items: seq<Json>, i: nat, done: seq<ToolCall>)
    requires i < |items| && EntriesToolCalls(items[..i]) == Success(done)
    requires EntryToolCall(items[i]).Failure?
    ensures EntriesToolCalls(items[..i + 1]) == Failure(EntryToolCall(items[i]).error)
  {
    assert items[..i + 1][..i] == items[..i];
  }

  /** Once the first `n` entries raise, later entries do not matter. */
  lemma {:induction false} EntriesFailureStays(items: seq<Json>, n: nat)
    requires n <= |items| && EntriesToolCalls(items[..n]).Failure?
    ensures EntriesToolCalls(items) == EntriesToolCalls(items[..n])
    decreases |items| - n
  {
    if n == |items| {
      assert items[..n] == items;
    } else {
      var init := items[..|items| - 1];
      assert init[..n] == items[..n];
      EntriesFailureStays(init, n);
    }
  }

  /** An entry that is a dict with a string `name`, dict `arguments` and no `type` or
      `parameters`: what a successful parse of the base parser leaves, plus the types the
      tool-call model checks. */
  predicate PlainCall(entry: Json)
  {
    entry.JObj? && "parameters" !in Keys(entry.fields) && "type" !in Keys(entry.fields) &&
    Get(entry.fields, "name").Some? && Get(entry.fields, "name").value.JStr? &&
    Get(entry.fields, "arguments").Some? && Get(entry.fields, "arguments").value.JObj?
  }

  /** The tool call a plain entry stands for. */
  function PlainToolCall(entry: Json): ToolCall
    requires PlainCall(entry)
  {
    ToolCall(PlaceholderId, FunctionDetail(Get(entry.fields, "name").value.s, Get(entry.fields, "arguments").value.fields))
  }

  /** Plain entries give one tool call each, in order, with the placeholder id and the
      entry's own name and arguments. */
  lemma {:induction false} PlainEntriesToolCalls(entries: seq<Json>)
    requires forall i :: 0 <= i < |entries| ==> PlainCall(entries[i])
    ensures EntriesToolCalls(entries).Success?
    ensures |EntriesToolCalls(entries).value| == |entries|
    ensures forall i :: 0 <= i < |entries| ==> EntriesToolCalls(entries).value[i] == PlainToolCall(entries[i])
    decreases |entries|
  {
    if entries != [] {
      var n := |entries| - 1;
      var front := entries[..n];
      PlainEntriesToolCalls(front);
      PlainEntry(entries[n]);
      var done := EntriesToolCalls(front).value;
      var calls := done + [PlainToolCall(entries[n])];
      assert EntriesToolCalls(entries) == Success(calls);
      SnocPointwise(entries, done, PlainToolCall(entries[n]), PlainToolCall);
    }
  }

  /** Appending `f` of the last element to `f` of the ones before gives `f` of all. */
  lemma {:induction false} SnocPointwise<A, B>(xs: seq<A>, done: seq<B>, y: B, f: A --> B)
    requires xs != [] && |done| == |xs| - 1
    requires forall i :: 0 <= i < |xs| ==> f.requires(xs[i])
    requires forall i :: 0 <= i < |done| ==> done[i] == f(xs[i])
    requires y == f(xs[|xs| - 1])
    ensures forall i :: 0 <= i < |xs| ==> (done + [y])[i] == f(xs[i])
  {
  }

  /** A plain entry converts without an error. */
  lemma {:induction false} PlainEntry(e: Json)
    requires PlainCall(e)
    ensures EntryToolCall(e) == Success(PlainToolCall(e))
  {
  }

  /** `parameters` wins over `arguments` when an entry holds both. */
  lemma {:induction false} ParametersPreferred(fields: seq<(string, Json)>, name: string, params: seq<(string, Json)>)
    requires Get(fields, "name") == Some(JStr(name)) && Get(fields, "parameters") == Some(JObj(params))
    requires Get(fields, "type").None?
    ensures EntryToolCall(JObj(fields)) == Success(ToolCall(PlaceholderId, FunctionDetail(name, params)))
  {
  }

  /** What `finalize_detection` returns, given the mode, the held-back tail it flushes and
      the parser: while collecting, the flushed text is appended and the whole is parsed,
      a parse error giving `NO_MATCH` with the apology and otherwise `COMPLETE_MATCH` with
      the tool calls; else the flushed text, if any, is passed on. The new buffer comes
      second. */
  function Finalized(m: Mode, trailing: string, parse: string -> seq<(string, Json)>): (Result<DetectionResult>, string)
  {
    var flushed := Flushed(trailing);
    if m.inToolCall then
      var buffer := if Truthy(flushed.output) then m.toolCallBuffer + flushed.output.value else m.toolCallBuffer;
      var data := parse(buffer);
      if "error" in Keys(data) then (Success(DetectionResult(NoMatch, None, Some(Apology), None)), buffer)
      else match ToolCallsOf(data)
        case Failure(e) => (Failure(e), buffer)
        case Success(calls) => (Success(DetectionResult(CompleteMatch, Some(calls), None, None)), buffer)
    else if Truthy(flushed.output) then (Success(DetectionResult(PartialMatch, None, flushed.output, None)), m.toolCallBuffer)
    else (Success(Bare(NoMatch, None)), m.toolCallBuffer)
  }

  class ManualStrategy {
    const processor: NormalizedProcessor
    const parse: string -> seq<(string, Json)>
    var preToolCallContent: seq<string>
    var toolCallBuffer: string
    var inToolCall: bool
    var accumulationMode: bool

    ghost predicate Valid()
      reads this, processor, processor.automaton, processor.automaton.automaton
    {
      processor.Valid()
    }

    /** The processor step for `text` from the current state. */
    ghost function ProcessorStep(text: string): Result<(PatternMatchResult, string)>
      reads this, processor, processor.base, processor.automaton, processor.automaton.automaton
    {
      var combined := processor.base.trailingBufferOriginal + text;
      NormalizedStep(processor.automaton.patternLengths, processor.maxPatternLen, processor.base.toolCallMessage,
        combined, Matches(processor.automaton.normalizedPatterns, processor.automaton.automaton.fed, Normalized(combined)))
    }

    /** A fresh strategy collects nothing and owns a fresh processor. */
    constructor (patterns: seq<Pattern>, toolCallMessage: string, parse: string -> seq<(string, Json)>)
      requires patterns != [] && DistinctNames(patterns) && NoEmpty(NormalizePatterns(patterns))
      ensures Valid() && fresh(processor) && fresh(processor.base) && fresh(processor.automaton)
      ensures fresh(processor.automaton.automaton)
      ensures processor.base.trailingBufferOriginal == [] && processor.automaton.automaton.fed == []
      ensures this.parse == parse
      ensures preToolCallContent == [] && toolCallBuffer == [] && !inToolCall && !accumulationMode
    {
      processor := new NormalizedProcessor(patterns, toolCallMessage);
      this.parse := parse;
      preToolCallContent := [];
      toolCallBuffer := [];
      inToolCall := false;
      accumulationMode := false;
    }

    /** Clears every field and the processor's held-back tail; the automaton cursor is
        left where it is. */
    method Reset()
      modifies this, processor.base
      ensures preToolCallContent == [] && toolCallBuffer == [] && !inToolCall && !accumulationMode
      ensures processor.base.trailingBufferOriginal == []
      ensures unchanged(processor.automaton.automaton)
    {
      processor.base.ResetStates();
      preToolCallContent := [];
      toolCallBuffer := [];
      inToolCall := false;
      accumulationMode := false;
    }

    /** `detect_chunk`: a chunk without text is `NO_MATCH` and touches nothing; otherwise
        the text goes through the processor, whose exception propagates, and its result
        decides as `OnProcessed` says. */
    method DetectChunk(chunk: SseChunk) returns (r: Result<DetectionResult>)
      requires Valid()
      modifies this, processor.base, processor.automaton.automaton
      ensures Valid()
      ensures !Truthy(ChunkContent(chunk)) ==>
        r == Success(Bare(NoMatch, Some(chunk))) && inToolCall == old(inToolCall) &&
        toolCallBuffer == old(toolCallBuffer) && unchanged(processor.base, processor.automaton.automaton)
      ensures Truthy(ChunkContent(chunk)) && old(ProcessorStep(ChunkContent(chunk).value)).Failure? ==>
        r == Failure(old(ProcessorStep(ChunkContent(chunk).value)).error) &&
        inToolCall == old(inToolCall) && toolCallBuffer == old(toolCallBuffer)
      ensures Truthy(ChunkContent(chunk)) && old(ProcessorStep(ChunkContent(chunk).value)).Success? ==>
        r.Success? && processor.base.trailingBufferOriginal == old(ProcessorStep(ChunkContent(chunk).value)).value.1 &&
        (r.value, Mode(inToolCall, toolCallBuffer)) ==
          OnProcessed(Mode(old(inToolCall), old(toolCallBuffer)), ChunkContent(chunk).value, chunk,
                      old(ProcessorStep(ChunkContent(chunk).value)).value.0)
      ensures preToolCallContent == old(preToolCallContent) && accumulationMode == old(accumulationMode)
    {
      if chunk.choices == [] {
        return Success(Bare(NoMatch, Some(chunk)));
      }
      var chunkContent := chunk.choices[0].delta.content;
      if chunkContent.None? || chunkContent.value == [] {
        return Success(Bare(NoMatch, Some(chunk)));
      }
      var processed := processor.ProcessChunk(chunkContent.value);
      if processed.Failure? {
        return Failure(processed.error);
      }
      var detected := React(chunkContent.value, chunk, processed.value);
      return Success(detected);
    }

    /** The part of `detect_chunk` after the processor has stepped: decides on its result
        as `OnProcessed` says, changing only the tool-call mode and buffer. */
    method React(text: string, chunk: SseChunk, result: PatternMatchResult) returns (r: DetectionResult)
      modifies this
      ensures (r, Mode(inToolCall, toolCallBuffer)) ==
        OnProcessed(Mode(old(inToolCall), old(toolCallBuffer)), text, chunk, result)
      ensures preToolCallContent == old(preToolCallContent) && accumulationMode == old(accumulationMode)
    {
      if result.error.Some? && result.error.value != [] {
        return Bare(NoMatch, Some(chunk));
      }
      if result.matched {
        inToolCall := true;
        toolCallBuffer := result.textWithToolCall.GetOr([]);
        return DetectionResult(PartialMatch, None, Some(""), Some(chunk));
      }
      if inToolCall {
        toolCallBuffer := toolCallBuffer + text;
        return Bare(PartialMatch, Some(chunk));
      }
      if result.output.Some? && result.output.value != [] {
        return DetectionResult(PartialMatch, None, result.output, Some(chunk));
      }
      return Bare(NoMatch, Some(chunk));
    }

    /** `finalize_detection`: flushes the processor and decides as `Finalized` says. The
        strategy stays in tool-call mode. */
    method FinalizeDetection() returns (r: Result<DetectionResult>)
      modifies this, processor.base
      ensures processor.base.trailingBufferOriginal == []
      ensures (r, toolCallBuffer) ==
        Finalized(Mode(old(inToolCall), old(toolCallBuffer)), old(processor.base.trailingBufferOriginal), parse)
      ensures inToolCall == old(inToolCall)
      ensures preToolCallContent == old(preToolCallContent) && accumulationMode == old(accumulationMode)
    {
      var finalResult := processor.base.FlushBuffer();
      if inToolCall {
        if finalResult.output.Some? && finalResult.output.value != [] {
          toolCallBuffer := toolCallBuffer + finalResult.output.value;
        }
        var parsedToolCallData := parse(toolCallBuffer);
        if "error" in Keys(parsedToolCallData) {
          return Success(DetectionResult(NoMatch, None, Some(Apology), None));
        }
        var parsedToolCalls := ExtractToolCalls(parsedToolCallData);
        if parsedToolCalls.Failure? {
          return Failure(parsedToolCalls.error);
        }
        return Success(DetectionResult(CompleteMatch, Some(parsedToolCalls.value), None, None));
      }
      if finalResult.output.Some? && finalResult.output.value != [] {
        return Success(DetectionResult(PartialMatch, None, finalResult.output, None));
      }
      return Success(Bare(NoMatch, None));
    }
  }

  /** A processor step that matches splits its input: the output and the text handed on
      as the tool call are the whole combined text, and nothing is held back. */
  lemma {:induction false} MatchedStepSplits(lens: map<string, int>, maxLen: int, message: string, combined: string,
                          found: seq<(int, string)>)
    requires NormalizedStep(lens, maxLen, message, combined, found).Success?
    requires NormalizedStep(lens, maxLen, message, combined, found).value.0.matched
    ensures var (pr, tail) := NormalizedStep(lens, maxLen, message, combined, found).value;
      pr.output.Some? && pr.textWithToolCall.Some? && !Truthy(pr.error) && tail == [] &&
      pr.output.value + pr.textWithToolCall.value == combined
  {
    var im := IndexMap(combined);
    var p := PickEarliest(found, lens, im).value.value;
    var start := PyIndex(im, p.normStart).value;
    assert 0 <= start < |combined|;
    assert combined[..start] + combined[start..] == combined;
  }

  /** The text before the marker is lost: on the chunk that matches, the processor's output
      is neither returned (the content is empty) nor kept (the buffer starts at the
      marker), although output and buffer together are the whole combined text. */
  lemma {:induction false} PreMarkerTextLost(m: Mode, text: string, chunk: SseChunk,
                          lens: map<string, int>, maxLen: int, message: string, combined: string,
                          found: seq<(int, string)>)
    requires NormalizedStep(lens, maxLen, message, combined, found).Success?
    requires NormalizedStep(lens, maxLen, message, combined, found).value.0.matched
    ensures var pr := NormalizedStep(lens, maxLen, message, combined, found).value.0;
      var (res, m2) := OnProcessed(m, text, chunk, pr);
      res.state == PartialMatch && res.content == Some("") &&
      m2.inToolCall && pr.output.value + m2.toolCallBuffer == combined
  {
    MatchedStepSplits(lens, maxLen, message, combined, found);
  }

  /** Before any match, what is returned is exactly the processor's output: the emitted
      text, as `PARTIAL_MATCH`, or `NO_MATCH` when nothing is emitted; the mode stays. */
  lemma {:induction false} BeforeMatchPassesOutput(m: Mode, text: string, chunk: SseChunk, pr: PatternMatchResult)
    requires !m.inToolCall && !pr.matched && !Truthy(pr.error)
    ensures var (res, m2) := OnProcessed(m, text, chunk, pr);
      m2 == m && res.sseChunk == Some(chunk) && res.toolCalls == None &&
      (Truthy(pr.output) ==> res.state == PartialMatch && res.content == pr.output) &&
      (!Truthy(pr.output) ==> res.state == NoMatch && res.content == None)
  {
  }

  /** Once collecting, nothing is returned as content, and the chunk's text is appended
      whole unless a new match replaces the buffer. */
  lemma {:induction false} CollectingAppends(m: Mode, text: string, chunk: SseChunk, pr: PatternMatchResult)
    requires m.inToolCall && !Truthy(pr.error)
    ensures var (res, m2) := OnProcessed(m, text, chunk, pr);
      res.state == PartialMatch && m2.inToolCall &&
      (!pr.matched ==> res.content == None && m2.toolCallBuffer == m.toolCallBuffer + text) &&
      (pr.matched ==> res.content == Some("") && m2.toolCallBuffer == pr.textWithToolCall.GetOr([]))
  {
  }

  /** The held-back tail is counted twice: while collecting, a chunk whose step matches
      nothing is appended whole, yet the step keeps its last characters back, and
      finalizing appends them again. Right after a match nothing is held back, so the text
      parsed is the buffer, the chunk, and the chunk's own tail once more. */
  lemma {:induction false} TailCountedTwice(m: Mode, text: string, chunk: SseChunk, lens: map<string, int>, maxLen: int,
                         message: string, parse: string -> seq<(string, Json)>)
    requires m.inToolCall
    ensures var step := NormalizedStep(lens, maxLen, message, text, []);
      var (pr, tail) := step.value;
      var m2 := OnProcessed(m, text, chunk, pr).1;
      step.Success? && Finalized(m2, tail, parse).1 == m.toolCallBuffer + text + tail &&
      IsSuffix(tail, text)
  {
    NormalizedNoMatchSplit(lens, maxLen, message, text);
  }
}
