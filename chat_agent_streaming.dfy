/**
 * The turn state machine of `StreamingChatAgent` (`agent/chat_agent_streaming.py`): one
 * call of `stream_step` dispatches on the context's state until it is `COMPLETED`,
 * yielding the chunks the handlers produce.
 *
 * The surroundings are given as an environment: for the k-th entry into `STREAMING`, the
 * detection results the strategy returns for that stream's chunks and its finalize
 * result (a `Failure` stands for an exception raised by the model stream, the prompt
 * builder or the strategy); and, per tool call, whether the registry knows the tool and
 * what executing it yields. Chunks are reduced to the text, stop or status they carry.
 */
module ChatAgentStreaming {
  import opened Wrappers
  import opened PyStr
  import opened Detection

  datatype StreamState = Streaming | ToolDetection | ExecutingTools | Intermediate | Completing | Completed

  datatype AgentStatus = Starting | ToolDetected | ToolsExecuted | MaxDepth | Continuing

  datatype Message =
    | SystemMessage(content: string)
    | UserMessage(content: string)
    | AssistantText(content: string)
    | AssistantCalls(calls: seq<ToolCall>)
    | ToolMessage(name: string, content: string, toolCallId: string)

  /** A chunk the agent yields: user-visible text, a stop chunk with optional content, or
      a status chunk with the tool calls it reports. */
  datatype Sse = TextChunk(text: string) | StopChunk(content: Option<string>) | StatusChunk(status: AgentStatus, tools: Option<seq<ToolCall>>)

  const ErrorApology := "I apologize - I've encountered an unexpected error. Please try your request again."
  const DepthMessage := "Maximum streaming depth reached. Please try your request again."

  /** What one model stream gives the agent: a detection result per chunk and the
      finalize result. */
  datatype Turn = Turn(detections: seq<Result<DetectionResult>>, final: Result<DetectionResult>)

  /** What running one tool gives: its result, or the exception it raised. */
  datatype ToolOutcome = ToolReturned(result: string) | ToolFailed(message: string)

  datatype Env = Env(turns: int -> Turn, known: string -> bool, execute: ToolCall -> ToolOutcome)

  /** The fields of a `StreamContext` the state machine reads and writes. */
  datatype Snapshot = Snapshot(
    history: seq<Message>,
    messageBuffer: string,
    toolCalls: Option<seq<ToolCall>>,
    state: StreamState,
    count: int,
    max: int)

  /** The text chunks for some texts, in order. */
  function TextChunks(texts: seq<string>): (r: seq<Sse>)
    ensures |r| == |texts| && forall i :: 0 <= i < |texts| ==> r[i] == TextChunk(texts[i])
  {
    if texts == [] then [] else TextChunks(texts[..|texts| - 1]) + [TextChunk(texts[|texts| - 1])]
  }

  /** The content a detection result contributes, if any. */
  function ContentOf(d: DetectionResult): seq<string>
  {
    if Truthy(d.content) then [d.content.value] else []
  }

  /** How a stream ends for the agent: interrupted by an exception, at a complete match
      with its tool calls, or at its end; each with the texts emitted. */
  datatype StreamOutcome =
    | Interrupted(emitted: seq<string>)
    | MatchedCalls(emitted: seq<string>, calls: seq<ToolCall>)
    | StreamEnded(emitted: seq<string>)

  /** The loop of `_handle_streaming` over the detection results, with the texts emitted
      so far in `acc`. */
  function Streamed(ds: seq<Result<DetectionResult>>, final: Result<DetectionResult>, acc: seq<string>): StreamOutcome
  {
    if ds == [] then
      match final
      case Failure(_) => Interrupted(acc)
      case Success(f) =>
        if f.state == CompleteMatch then MatchedCalls(acc + ContentOf(f), f.toolCalls.GetOr([]))
        else StreamEnded(acc + ContentOf(f))
    else
      match ds[0]
      case Failure(_) => Interrupted(acc)
      case Success(d) =>
        if d.state == CompleteMatch then MatchedCalls(acc + ContentOf(d), d.toolCalls.GetOr([]))
        else Streamed(ds[1..], final, acc + ContentOf(d))
  }

  /** The assistant message recording the emitted texts, if there are any. */
  function Said(texts: seq<string>): seq<Message>
  {
    if texts == [] then [] else [AssistantText(Join("", texts))]
  }

  /** What `_handle_streaming` emits and records once its stream has produced `o`,
      with `s` the context after the entry count was raised. */
  function Applied(s: Snapshot, o: StreamOutcome): (seq<Sse>, Snapshot)
  {
    match o
    case Interrupted(e) => (TextChunks(e) + [StopChunk(Some(ErrorApology))], s)
    case MatchedCalls(e, calls) =>
      (TextChunks(e), s.(history := s.history + Said(e), toolCalls := Some(calls), state := ToolDetection))
    case StreamEnded(e) =>
      (TextChunks(e) + [StopChunk(None)], s.(history := s.history + Said(e), state := Completing))
  }

  /** `_handle_streaming` under the error wrapper. */
  function StreamingStep(env: Env, s: Snapshot): (seq<Sse>, Snapshot)
  {
    var c := s.count + 1;
    if c > s.max then ([StopChunk(Some(DepthMessage))], s.(count := c, state := Completing))
    else Applied(s.(count := c), Streamed(env.turns(c).detections, env.turns(c).final, []))
  }

  /** `run_tool`: an unknown tool raises, a known one is executed. */
  function RunTool(env: Env, call: ToolCall): ToolOutcome
  {
    if !env.known(call.func.name) then ToolFailed("Tool " + call.func.name + " not found")
    else env.execute(call)
  }

  /** `asyncio.gather` over the tool calls: one outcome per call, in call order. */
  function Outcomes(env: Env, calls: seq<ToolCall>): (r: seq<ToolOutcome>)
    ensures |r| == |calls| && forall i :: 0 <= i < |calls| ==> r[i] == RunTool(env, calls[i])
  {
    seq(|calls|, i requires 0 <= i < |calls| => RunTool(env, calls[i]))
  }

  /** The message recording one tool's outcome. */
  function RecordOf(call: ToolCall, outcome: ToolOutcome): Message
  {
    match outcome
    case ToolFailed(m) => AssistantText("Error executing tool " + call.func.name + ": " + m)
    case ToolReturned(result) => ToolMessage(call.func.name, result, call.id)
  }

  /** The messages the execution loop appends: per call, the call, then its outcome. */
  function Records(calls: seq<ToolCall>, outcomes: seq<ToolOutcome>): seq<Message>
    requires |calls| == |outcomes|
  {
    if calls == [] then []
    else
      var n := |calls| - 1;
      Records(calls[..n], outcomes[..n]) + [AssistantCalls([calls[n]]), RecordOf(calls[n], outcomes[n])]
  }

  /** `_handle_tool_execution` under the error wrapper: a non-blank message buffer is
      recorded and cleared first; without tool calls the iteration raises. */
  function ExecutionStep(env: Env, s: Snapshot): (seq<Sse>, Snapshot)
  {
    var flush := Strip(s.messageBuffer) != [];
    var h := if flush then s.history + [AssistantText(s.messageBuffer)] else s.history;
    var buffer := if flush then "" else s.messageBuffer;
    match s.toolCalls
    case None => ([StopChunk(Some(ErrorApology))], s.(history := h, messageBuffer := buffer))
    case Some(calls) =>
      ([StatusChunk(ToolsExecuted, None)],
       s.(history := h + Records(calls, Outcomes(env, calls)), messageBuffer := buffer, state := Intermediate))
  }

  /** `_handle_tool_detection` under the error wrapper: the state moves on before the
      status chunk listing the calls is built. */
  function DetectionStep(s: Snapshot): (seq<Sse>, Snapshot)
  {
    match s.toolCalls
    case None => ([StopChunk(Some(ErrorApology))], s.(state := ExecutingTools))
    case Some(calls) => ([StatusChunk(ToolDetected, Some(calls))], s.(state := ExecutingTools))
  }

  /** One iteration of the loop of `stream_step`. */
  function Dispatched(env: Env, s: Snapshot): (seq<Sse>, Snapshot)
  {
    match s.state
    case Streaming => StreamingStep(env, s)
    case ToolDetection => DetectionStep(s)
    case ExecutingTools => ExecutionStep(env, s)
    case Intermediate => ([StatusChunk(Continuing, None)], s.(messageBuffer := "", state := Streaming))
    case Completing => ([StopChunk(None)], s.(state := Completed))
    case Completed => ([], s)
  }

  /** Tool calls are recorded whenever the machine is about to report or run them. */
  predicate Inv(s: Snapshot)
  {
    (s.state == ToolDetection || s.state == ExecutingTools) ==> s.toolCalls.Some?
  }

  function Phase(state: StreamState): nat
  {
    match state
    case Completed => 0
    case Completing => 1
    case _ => 2
  }

  /** The dispatches left before `STREAMING` is entered once more than allowed. */
  function Measure(s: Snapshot): nat
  {
    var left := s.max - s.count + 1;
    4 * (if left < 0 then 0 else left) +
      match s.state
      case ToolDetection => 3
      case ExecutingTools => 2
      case Intermediate => 1
      case _ => 0
  }

  /** Every dispatch keeps the invariant and moves the machine closer to the end: only
      `STREAMING` re-enters itself, and it uses up an entry each time. */
  lemma {:induction false} DispatchProgress(env: Env, s: Snapshot)
    requires Inv(s) && s.state != Completed
    ensures Inv(Dispatched(env, s).1)
    ensures var t := Dispatched(env, s).1;
      Phase(t.state) < Phase(s.state) || (Phase(t.state) == Phase(s.state) && Measure(t) < Measure(s))
  {
    if s.state == Streaming {
      var c := s.count + 1;
      if c <= s.max {
        match Streamed(env.turns(c).detections, env.turns(c).final, [])
        case Interrupted(e) =>
        case MatchedCalls(e, calls) =>
        case StreamEnded(e) =>
      }
    }
  }

  /** The whole of `stream_step` from a context: the chunks yielded and the final
      context. */
  function Run(env: Env, s: Snapshot): (seq<Sse>, Snapshot)
    requires Inv(s)
    decreases Phase(s.state), Measure(s)
  {
    if s.state == Completed then ([], s)
    else
      DispatchProgress(env, s);
      var step := Dispatched(env, s);
      var rest := Run(env, step.1);
      (step.0 + rest.0, rest.1)
  }

  /** A run that dispatches at least once: the first dispatch's chunks, then the rest. */
  lemma {:induction false} RunUnfold(env: Env, s: Snapshot)
    requires Inv(s) && s.state != Completed
    ensures Inv(Dispatched(env, s).1)
    ensures Run(env, s) == (Dispatched(env, s).0 + Run(env, Dispatched(env, s).1).0, Run(env, Dispatched(env, s).1).1)
  {
    DispatchProgress(env, s);
  }

  /** `_initialize_context`'s history: the last `limit` messages when `limit` is
      positive, else all of them, after the system prompt if one is set. */
  function InitialHistory(history: seq<Message>, limit: int, systemPrompt: Option<string>): seq<Message>
  {
    var selected := if limit > 0 && limit < |history| then history[|history| - limit..] else history;
    if Truthy(systemPrompt) then [SystemMessage(systemPrompt.value)] + selected else selected
  }

  function Initial(history: seq<Message>, limit: int, systemPrompt: Option<string>, max: int): Snapshot
  {
    Snapshot(InitialHistory(history, limit, systemPrompt), "", None, Streaming, 0, max)
  }

  class StreamContext {
    var conversationHistory: seq<Message>
    var messageBuffer: string
    var currentToolCall: Option<seq<ToolCall>>
    var currentState: StreamState
    var streamingEntryCount: int
    var maxStreamingIterations: int

    function Current(): Snapshot
      reads this
    {
      Snapshot(conversationHistory, messageBuffer, currentToolCall, currentState, streamingEntryCount, maxStreamingIterations)
    }

    constructor (history: seq<Message>, max: int)
      ensures Current() == Snapshot(history, "", None, Streaming, 0, max)
    {
      conversationHistory := history;
      messageBuffer := "";
      currentToolCall := None;
      currentState := Streaming;
      streamingEntryCount := 0;
      maxStreamingIterations := max;
    }
  }

  class StreamingChatAgent {
    const historyLimit: int
    const systemPrompt: Option<string>
    const maxStreamingIterations: int
    const env: Env

    /** The configuration read by the constructor, with the source's defaults. */
    constructor (historyLimit: Option<int>, systemPrompt: Option<string>, maxStreamingIterations: Option<int>, env: Env)
      ensures this.historyLimit == historyLimit.GetOr(3) && this.systemPrompt == systemPrompt
      ensures this.maxStreamingIterations == maxStreamingIterations.GetOr(1) && this.env == env
    {
      this.historyLimit := historyLimit.GetOr(3);
      this.systemPrompt := systemPrompt;
      this.maxStreamingIterations := maxStreamingIterations.GetOr(1);
      this.env := env;
    }

    method InitializeContext(history: seq<Message>) returns (ctx: StreamContext)
      ensures fresh(ctx) && ctx.Current() == Initial(history, historyLimit, systemPrompt, maxStreamingIterations)
    {
      var selected := if historyLimit > 0 && historyLimit < |history| then history[|history| - historyLimit..] else history;
      if systemPrompt.Some? && systemPrompt.value != [] {
        selected := [SystemMessage(systemPrompt.value)] + selected;
      }
      ctx := new StreamContext(selected, maxStreamingIterations);
    }

    /** `stream_step`: dispatches until the context is `COMPLETED`. */
    method StreamStep(history: seq<Message>) returns (out: seq<Sse>, ctx: StreamContext)
      ensures fresh(ctx)
      ensures (out, ctx.Current()) == Run(env, Initial(history, historyLimit, systemPrompt, maxStreamingIterations))
    {
      ctx := InitializeContext(history);
      ghost var start := ctx.Current();
      out := [];
      while ctx.currentState != Completed
        invariant Inv(ctx.Current())
        invariant out + Run(env, ctx.Current()).0 == Run(env, start).0
        invariant Run(env, ctx.Current()).1 == Run(env, start).1
        decreases Phase(ctx.currentState), Measure(ctx.Current())
      {
        ghost var before := ctx.Current();
        DispatchProgress(env, before);
        var chunks := Dispatch(ctx);
        RunUnfold(env, before);
        assert out + chunks + Run(env, ctx.Current()).0 == out + Run(env, before).0;
        out := out + chunks;
      }
      assert Run(env, ctx.Current()) == ([], ctx.Current());
      assert out + [] == out;
    }

    method Dispatch(ctx: StreamContext) returns (out: seq<Sse>)
      modifies ctx
      ensures (out, ctx.Current()) == Dispatched(env, old(ctx.Current()))
    {
      match ctx.currentState
      case Streaming => out := HandleStreaming(ctx);
      case ToolDetection => out := HandleToolDetection(ctx);
      case ExecutingTools => out := HandleToolExecution(ctx);
      case Intermediate =>
        ctx.messageBuffer := "";
        ctx.currentState := Streaming;
        out := [StatusChunk(Continuing, None)];
      case Completing =>
        out := [StopChunk(None)];
        ctx.currentState := Completed;
      case Completed => out := [];
    }

    method HandleToolDetection(ctx: StreamContext) returns (out: seq<Sse>)
      modifies ctx
      ensures (out, ctx.Current()) == DetectionStep(old(ctx.Current()))
    {
      ctx.currentState := ExecutingTools;
      if ctx.currentToolCall.None? {
        return [StopChunk(Some(ErrorApology))];
      }
      out := [StatusChunk(ToolDetected, ctx.currentToolCall)];
    }

    method HandleToolExecution(ctx: StreamContext) returns (out: seq<Sse>)
      modifies ctx
      ensures (out, ctx.Current()) == ExecutionStep(env, old(ctx.Current()))
    {
      if Strip(ctx.messageBuffer) != [] {
        ctx.conversationHistory := ctx.conversationHistory + [AssistantText(ctx.messageBuffer)];
        ctx.messageBuffer := "";
      }
      if ctx.currentToolCall.None? {
        return [StopChunk(Some(ErrorApology))];
      }
      var calls := ctx.currentToolCall.value;
      var results := Outcomes(env, calls);
      var history := RecordOutcomes(ctx.conversationHistory, calls, results);
      ctx.conversationHistory := history;
      ctx.currentState := Intermediate;
      out := [StatusChunk(ToolsExecuted, None)];
    }

    /** The `zip` loop of `_handle_tool_execution`: per call, the call and then its
        outcome are appended to the history. */
    method RecordOutcomes(history: seq<Message>, calls: seq<ToolCall>, results: seq<ToolOutcome>)
      returns (r: seq<Message>)
      requires |calls| == |results|
      ensures r == history + Records(calls, results)
    {
      r := history;
      var i := 0;
      while i < |calls|
        invariant 0 <= i <= |calls|
        invariant r == history + Records(calls[..i], results[..i])
      {
        assert calls[..i + 1][..i] == calls[..i] && results[..i + 1][..i] == results[..i];
        var call, result := calls[i], results[i];
        r := r + [AssistantCalls([call])];
        match result {
          case ToolFailed(m) =>
            r := r + [AssistantText("Error executing tool " + call.func.name + ": " + m)];
          case ToolReturned(res) =>
            r := r + [ToolMessage(call.func.name, res, call.id)];
        }
        i := i + 1;
      }
      assert calls[..i] == calls && results[..i] == results;
    }

    method HandleStreaming(ctx: StreamContext) returns (out: seq<Sse>)
      modifies ctx
      ensures (out, ctx.Current()) == StreamingStep(env, old(ctx.Current()))
    {
      ctx.streamingEntryCount := ctx.streamingEntryCount + 1;
      if ctx.streamingEntryCount > ctx.maxStreamingIterations {
        out := [StopChunk(Some(DepthMessage))];
        ctx.currentState := Completing;
        return;
      }
      out := StreamTurn(ctx, env.turns(ctx.streamingEntryCount));
    }

    /** The body of `_handle_streaming` past the depth check: the detection results of
        `turn` are emitted in order until one fails or completes a tool call. */
    method StreamTurn(ctx: StreamContext, turn: Turn) returns (out: seq<Sse>)
      modifies ctx
      ensures (out, ctx.Current()) == Applied(old(ctx.Current()), Streamed(turn.detections, turn.final, []))
    {
      ghost var entered := ctx.Current();
      var accumulated: seq<string> := [];
      out := [];
      var i := 0;
      while i < |turn.detections|
        invariant 0 <= i <= |turn.detections|
        invariant Streamed(turn.detections, turn.final, []) == Streamed(turn.detections[i..], turn.final, accumulated)
        invariant out == TextChunks(accumulated)
        invariant ctx.Current() == entered
      {
        var detection := turn.detections[i];
        if detection.Failure? {
          out := out + [StopChunk(Some(ErrorApology))];
          assert Streamed(turn.detections, turn.final, []) == Interrupted(accumulated);
          return;
        }
        var result := detection.value;
        if result.state == CompleteMatch {
          out := HandleCompleteMatch(ctx, result, accumulated);
          assert Streamed(turn.detections, turn.final, []) ==
            MatchedCalls(accumulated + ContentOf(result), result.toolCalls.GetOr([]));
          return;
        }
        if result.content.Some? && result.content.value != [] {
          assert TextChunks(accumulated + [result.content.value])[..|accumulated|] == TextChunks(accumulated);
          accumulated := accumulated + [result.content.value];
          out := out + [TextChunk(result.content.value)];
        } else {
          assert accumulated + [] == accumulated;
        }
        i := i + 1;
      }
      assert turn.detections[i..] == [];
      out := FinishStream(ctx, turn.final, accumulated);
    }

    /** The end of `_handle_streaming` once the detection results are exhausted: the
        strategy's final result decides, with the texts emitted so far in `accumulated`. */
    method FinishStream(ctx: StreamContext, final: Result<DetectionResult>, accumulated: seq<string>)
      returns (out: seq<Sse>)
      modifies ctx
      ensures (out, ctx.Current()) == Applied(old(ctx.Current()), Streamed([], final, accumulated))
    {
      out := TextChunks(accumulated);
      if final.Failure? {
        out := out + [StopChunk(Some(ErrorApology))];
        return;
      }
      var finalResult := final.value;
      if finalResult.state == CompleteMatch {
        out := HandleCompleteMatch(ctx, finalResult, accumulated);
        return;
      }
      var texts := accumulated;
      if finalResult.content.Some? && finalResult.content.value != [] {
        assert TextChunks(texts + [finalResult.content.value])[..|texts|] == TextChunks(texts);
        texts := texts + [finalResult.content.value];
        out := out + [TextChunk(finalResult.content.value)];
      } else {
        assert texts + [] == texts;
      }
      assert Streamed([], final, accumulated) == StreamEnded(texts);
      if texts != [] {
        ctx.conversationHistory := ctx.conversationHistory + [AssistantText(Join("", texts))];
      }
      out := out + [StopChunk(None)];
      ctx.currentState := Completing;
      assert ctx.Current() == old(ctx.Current()).(history := old(ctx.conversationHistory) + Said(texts), state := Completing);
    }

    /** `_handle_complete_match`: emits the match's text, records the calls and the text
        of the stream, and moves to `TOOL_DETECTION`. */
    method HandleCompleteMatch(ctx: StreamContext, result: DetectionResult, accumulated: seq<string>)
      returns (out: seq<Sse>)
      modifies ctx
      ensures var e := accumulated + ContentOf(result);
        out == TextChunks(e) &&
        ctx.Current() == old(ctx.Current()).(history := old(ctx.conversationHistory) + Said(e),
                                                toolCalls := Some(result.toolCalls.GetOr([])), state := ToolDetection)
    {
      var texts := accumulated;
      if result.content.Some? && result.content.value != [] {
        texts := texts + [result.content.value];
      }
      assert texts == accumulated + ContentOf(result);
      out := TextChunks(texts);
      ctx.currentToolCall := if result.toolCalls.Some? then result.toolCalls else Some([]);
      if texts != [] {
        ctx.conversationHistory := ctx.conversationHistory + [AssistantText(Join("", texts))];
      }
      ctx.currentState := ToolDetection;
    }
  }
}
