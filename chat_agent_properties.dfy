/**
 * What a whole `stream_step` of `StreamingChatAgent` promises, stated on the run of the
 * turn state machine: it always completes, the history only grows, the model is streamed
 * a bounded number of times, and each kind of stream (plain answer, tool round, failure,
 * refused entry) yields a fixed shape of chunks.
 */
module ChatAgentProperties {
  import opened Wrappers
  import opened PyStr
  import opened Detection
  import opened ChatAgentStreaming

  /** Only the completing handler leads to `COMPLETED`, and it yields one empty stop chunk. */
  lemma {:induction false} CompletedOnlyFromCompleting(env: Env, s: Snapshot)
    requires s.state != Completed && Dispatched(env, s).1.state == Completed
    ensures s.state == Completing && Dispatched(env, s).0 == [StopChunk(None)]
  {
    if s.state == Streaming && s.count + 1 <= s.max {
      match Streamed(env.turns(s.count + 1).detections, env.turns(s.count + 1).final, [])
      case Interrupted(e) =>
      case MatchedCalls(e, calls) =>
      case StreamEnded(e) =>
    }
  }

  /** Every run ends `COMPLETED`, and a run that dispatched anything ends with the empty
      stop chunk of `_handle_completing`. */
  lemma {:induction false} RunCompletes(env: Env, s: Snapshot)
    requires Inv(s)
    ensures Run(env, s).1.state == Completed
    ensures s.state != Completed ==>
      Run(env, s).0 != [] && Run(env, s).0[|Run(env, s).0| - 1] == StopChunk(None)
    decreases Phase(s.state), Measure(s)
  {
    if s.state != Completed {
      DispatchProgress(env, s);
      var t := Dispatched(env, s).1;
      RunCompletes(env, t);
      if t.state == Completed {
        CompletedOnlyFromCompleting(env, s);
      }
    }
  }

  /** One dispatch only appends to the history and leaves the depth limit alone. */
  lemma {:induction false} DispatchedExtends(env: Env, s: Snapshot)
    ensures s.history <= Dispatched(env, s).1.history
    ensures Dispatched(env, s).1.max == s.max
  {
    if s.state == Streaming && s.count + 1 <= s.max {
      match Streamed(env.turns(s.count + 1).detections, env.turns(s.count + 1).final, [])
      case Interrupted(e) =>
      case MatchedCalls(e, calls) =>
      case StreamEnded(e) =>
    }
  }

  /** The history a run leaves extends the one it started from: messages are appended,
      never dropped or rewritten. */
  lemma {:induction false} HistoryExtends(env: Env, s: Snapshot)
    requires Inv(s)
    ensures s.history <= Run(env, s).1.history
    ensures Run(env, s).1.max == s.max
    decreases Phase(s.state), Measure(s)
  {
    if s.state != Completed {
      DispatchProgress(env, s);
      DispatchedExtends(env, s);
      HistoryExtends(env, Dispatched(env, s).1);
    }
  }

  function Larger(a: int, b: int): int
  {
    if a < b then b else a
  }

  /** One dispatch raises the entry count by at most one, and never past the limit plus one. */
  lemma {:induction false} DispatchedCount(env: Env, s: Snapshot)
    ensures var t := Dispatched(env, s).1;
      s.count <= t.count <= s.count + 1 && t.max == s.max &&
      Larger(t.count, t.max) <= Larger(s.count, s.max) + 1 &&
      (t.count > t.max && t.count > s.count ==> t.state == Completing)
  {
    DispatchedExtends(env, s);
    if s.state == Streaming && s.count + 1 <= s.max {
      match Streamed(env.turns(s.count + 1).detections, env.turns(s.count + 1).final, [])
      case Interrupted(e) =>
      case MatchedCalls(e, calls) =>
      case StreamEnded(e) =>
    }
  }

  /** `max_streaming_iterations` bounds the streams: from a count within the limit, a run
      enters `STREAMING` at most once past the limit, where it is refused. */
  lemma {:induction false} StreamsBounded(env: Env, s: Snapshot)
    requires Inv(s) && s.count <= s.max
    ensures s.count <= Run(env, s).1.count <= s.max + 1
    decreases Phase(s.state), Measure(s)
  {
    if s.state != Completed {
      DispatchProgress(env, s);
      DispatchedCount(env, s);
      var t := Dispatched(env, s).1;
      if t.count <= t.max {
        StreamsBounded(env, t);
      } else {
        // the refused entry moved the machine to COMPLETING, which only completes
        assert t.state == Completing;
        assert Run(env, t).1 == t.(state := Completed);
      }
    }
  }

  /** Entering `STREAMING` once more than allowed yields the depth message, then the empty
      stop chunk, and records nothing. */
  lemma {:induction false} DepthRefused(env: Env, s: Snapshot)
    requires s.state == Streaming && s.count >= s.max
    ensures Run(env, s).0 == [StopChunk(Some(DepthMessage)), StopChunk(None)]
    ensures Run(env, s).1 == s.(count := s.count + 1, state := Completed)
  {
    var t := Dispatched(env, s).1;
    assert t == s.(count := s.count + 1, state := Completing);
    assert Run(env, t.(state := Completed)) == ([], t.(state := Completed));
    assert Run(env, t) == ([StopChunk(None)] + [], t.(state := Completed));
  }

  /** A stream that raises yields its text so far and the apology, but leaves the state
      `STREAMING` with the history untouched: the next dispatch opens another stream. */
  lemma {:induction false} InterruptedRetries(env: Env, s: Snapshot, e: seq<string>)
    requires s.state == Streaming && s.count + 1 <= s.max
    requires Streamed(env.turns(s.count + 1).detections, env.turns(s.count + 1).final, []) == Interrupted(e)
    ensures Run(env, s).0 ==
      TextChunks(e) + [StopChunk(Some(ErrorApology))] + Run(env, s.(count := s.count + 1)).0
    ensures Run(env, s).1 == Run(env, s.(count := s.count + 1)).1
    ensures Dispatched(env, s).1.state == Streaming && Dispatched(env, s).1.history == s.history
  {
  }

  /** A stream that ends without a tool call yields its texts and two empty stop chunks
      (one from `_handle_streaming`, one from `_handle_completing`), and records the
      texts as one assistant message. */
  lemma {:induction false} PlainAnswer(env: Env, s: Snapshot, e: seq<string>)
    requires s.state == Streaming && s.count + 1 <= s.max
    requires Streamed(env.turns(s.count + 1).detections, env.turns(s.count + 1).final, []) == StreamEnded(e)
    ensures Run(env, s).0 == TextChunks(e) + [StopChunk(None), StopChunk(None)]
    ensures Run(env, s).1 == s.(count := s.count + 1, history := s.history + Said(e), state := Completed)
  {
    var t := s.(count := s.count + 1, history := s.history + Said(e), state := Completing);
    RunUnfold(env, s);
    EndedStep(env, s, e);
    CompletingRun(env, t);
    assert TextChunks(e) + [StopChunk(None)] + [StopChunk(None)] == TextChunks(e) + [StopChunk(None), StopChunk(None)];
  }

  /** The dispatch of a stream that ends without a tool call. */
  lemma {:induction false} EndedStep(env: Env, s: Snapshot, e: seq<string>)
    requires s.state == Streaming && s.count + 1 <= s.max
    requires Streamed(env.turns(s.count + 1).detections, env.turns(s.count + 1).final, []) == StreamEnded(e)
    ensures Dispatched(env, s) ==
      (TextChunks(e) + [StopChunk(None)], s.(count := s.count + 1, history := s.history + Said(e), state := Completing))
  {
    assert Dispatched(env, s) == StreamingStep(env, s);
    assert StreamingStep(env, s) == Applied(s.(count := s.count + 1), StreamEnded(e));
  }

  /** From `COMPLETING` one more dispatch yields an empty stop chunk and the run ends. */
  lemma {:induction false} CompletingRun(env: Env, t: Snapshot)
    requires t.state == Completing
    ensures Run(env, t) == ([StopChunk(None)], t.(state := Completed))
  {
    RunUnfold(env, t);
    assert Run(env, t.(state := Completed)) == ([], t.(state := Completed));
    assert [StopChunk(None)] + [] == [StopChunk(None)];
  }

  /** The texts the results of a stream contribute, in order. */
  function Contents(ds: seq<DetectionResult>): seq<string>
  {
    if ds == [] then [] else ContentOf(ds[0]) + Contents(ds[1..])
  }

  /** A stream only adds to the texts already emitted, and only non-empty ones. */
  lemma {:induction false} StreamedEmits(ds: seq<Result<DetectionResult>>, final: Result<DetectionResult>, acc: seq<string>)
    ensures var e := Streamed(ds, final, acc).emitted;
      acc <= e && forall i :: |acc| <= i < |e| ==> e[i] != []
    decreases |ds|
  {
    if ds != [] && ds[0].Success? && ds[0].value.state != CompleteMatch {
      StreamedEmits(ds[1..], final, acc + ContentOf(ds[0].value));
    }
  }

  /** A stream in which nothing raises and no tool call completes ends with every
      result's text emitted, in order. */
  lemma {:induction false} StreamedAllPass(ds: seq<Result<DetectionResult>>, final: DetectionResult, acc: seq<string>)
    requires forall i :: 0 <= i < |ds| ==> ds[i].Success? && ds[i].value.state != CompleteMatch
    requires final.state != CompleteMatch
    ensures Streamed(ds, Success(final), acc) ==
      StreamEnded(acc + Contents(seq(|ds|, i requires 0 <= i < |ds| => ds[i].value) + [final]))
    decreases |ds|
  {
    var values := seq(|ds|, i requires 0 <= i < |ds| => ds[i].value);
    if ds == [] {
      assert values + [final] == [final];
      assert Contents([final]) == ContentOf(final) + Contents([]);
    } else {
      var tail := seq(|ds| - 1, i requires 0 <= i < |ds| - 1 => ds[1..][i].value);
      StreamedAllPass(ds[1..], final, acc + ContentOf(ds[0].value));
      assert (values + [final])[1..] == tail + [final];
      assert acc + ContentOf(ds[0].value) + Contents(tail + [final]) == acc + Contents(values + [final]);
    }
  }

  /** The first result that raises interrupts the stream: the texts before it are kept,
      nothing after it is read. */
  lemma {:induction false} StreamedStopsAt(ds: seq<Result<DetectionResult>>, final: Result<DetectionResult>, acc: seq<string>, k: nat)
    requires k < |ds| && ds[k].Failure?
    requires forall i :: 0 <= i < k ==> ds[i].Success? && ds[i].value.state != CompleteMatch
    ensures Streamed(ds, final, acc) ==
      Interrupted(acc + Contents(seq(k, i requires 0 <= i < k => ds[i].value)))
    decreases k
  {
    var values := seq(k, i requires 0 <= i < k => ds[i].value);
    if k == 0 {
      assert Contents(values) == [];
    } else {
      var tail := seq(k - 1, i requires 0 <= i < k - 1 => ds[1..][i].value);
      StreamedStopsAt(ds[1..], final, acc + ContentOf(ds[0].value), k - 1);
      assert values[1..] == tail;
      assert acc + ContentOf(ds[0].value) + Contents(tail) == acc + Contents(values);
    }
  }

  /** From `EXECUTING_TOOLS` with an empty buffer, two dispatches run and record the
      calls and return to `STREAMING`. */
  lemma {:induction false} ExecutionCycle(env: Env, s: Snapshot, calls: seq<ToolCall>)
    requires s.state == ExecutingTools && s.toolCalls == Some(calls) && s.messageBuffer == ""
    ensures var next := s.(history := s.history + Records(calls, Outcomes(env, calls)), state := Streaming);
      Run(env, s) ==
        ([StatusChunk(ToolsExecuted, None), StatusChunk(Continuing, None)] + Run(env, next).0, Run(env, next).1)
  {
    var s3 := s.(history := s.history + Records(calls, Outcomes(env, calls)), state := Intermediate);
    var next := s3.(state := Streaming);
    RunUnfold(env, s);
    ExecutedStep(env, s, calls);
    RunUnfold(env, s3);
    assert Dispatched(env, s3) == ([StatusChunk(Continuing, None)], next);
    var rest := Run(env, next).0;
    ChunkPair(StatusChunk(ToolsExecuted, None), StatusChunk(Continuing, None), rest);
  }

  /** Chunks yielded in turn: `a`, then `b`, then `rest`. */
  lemma {:induction false} ConsAssoc(a: seq<Sse>, b: seq<Sse>, rest: seq<Sse>)
    ensures a + (b + rest) == a + b + rest
  {
  }

  lemma {:induction false} ChunkPair(x: Sse, y: Sse, rest: seq<Sse>)
    ensures [x] + ([y] + rest) == [x, y] + rest
  {
  }

  lemma {:induction false} ChunkTriple(x: Sse, y: Sse, z: Sse, rest: seq<Sse>)
    ensures [x] + ([y, z] + rest) == [x, y, z] + rest
  {
  }

  /** The dispatch in `EXECUTING_TOOLS` with an empty buffer runs and records the calls. */
  lemma {:induction false} ExecutedStep(env: Env, s: Snapshot, calls: seq<ToolCall>)
    requires s.state == ExecutingTools && s.toolCalls == Some(calls) && s.messageBuffer == ""
    ensures Dispatched(env, s) ==
      ([StatusChunk(ToolsExecuted, None)],
       s.(history := s.history + Records(calls, Outcomes(env, calls)), state := Intermediate))
  {
    assert Strip(s.messageBuffer) == [];
    assert Dispatched(env, s) == ExecutionStep(env, s);
  }

  /** From `TOOL_DETECTION` with calls recorded and an empty buffer, three dispatches
      report, run and record the calls and return to `STREAMING`. */
  lemma {:induction false} ToolCycle(env: Env, s: Snapshot, calls: seq<ToolCall>)
    requires s.state == ToolDetection && s.toolCalls == Some(calls) && s.messageBuffer == ""
    ensures var next := s.(history := s.history + Records(calls, Outcomes(env, calls)), state := Streaming);
      Run(env, s) ==
        ([StatusChunk(ToolDetected, Some(calls)), StatusChunk(ToolsExecuted, None), StatusChunk(Continuing, None)]
           + Run(env, next).0,
         Run(env, next).1)
  {
    var s2 := s.(state := ExecutingTools);
    RunUnfold(env, s);
    assert Dispatched(env, s) == ([StatusChunk(ToolDetected, Some(calls))], s2);
    ExecutionCycle(env, s2, calls);
    var next := s.(history := s.history + Records(calls, Outcomes(env, calls)), state := Streaming);
    assert s2.(history := s2.history + Records(calls, Outcomes(env, calls)), state := Streaming) == next;
    var rest := Run(env, next).0;
    ChunkTriple(StatusChunk(ToolDetected, Some(calls)), StatusChunk(ToolsExecuted, None), StatusChunk(Continuing, None), rest);
  }

  /** The dispatch of a stream that completes a tool call. */
  lemma {:induction false} MatchedStep(env: Env, s: Snapshot, e: seq<string>, calls: seq<ToolCall>)
    requires s.state == Streaming && s.count + 1 <= s.max
    requires Streamed(env.turns(s.count + 1).detections, env.turns(s.count + 1).final, []) == MatchedCalls(e, calls)
    ensures Dispatched(env, s) ==
      (TextChunks(e), s.(count := s.count + 1, history := s.history + Said(e), toolCalls := Some(calls), state := ToolDetection))
  {
    assert Dispatched(env, s) == StreamingStep(env, s);
    assert StreamingStep(env, s) == Applied(s.(count := s.count + 1), MatchedCalls(e, calls));
  }

  /** A stream that completes a tool call takes three more dispatches to reach
      `STREAMING` again: the detected calls are reported, run and recorded, and the
      machine continues with an empty buffer. */
  lemma {:induction false} ToolRound(env: Env, s: Snapshot, e: seq<string>, calls: seq<ToolCall>)
    requires s.state == Streaming && s.count + 1 <= s.max && s.messageBuffer == ""
    requires Streamed(env.turns(s.count + 1).detections, env.turns(s.count + 1).final, []) == MatchedCalls(e, calls)
    ensures var next := s.(count := s.count + 1, history := s.history + Said(e) + Records(calls, Outcomes(env, calls)),
                           toolCalls := Some(calls));
      Run(env, s) ==
        (TextChunks(e) + [StatusChunk(ToolDetected, Some(calls)), StatusChunk(ToolsExecuted, None),
                          StatusChunk(Continuing, None)] + Run(env, next).0,
         Run(env, next).1)
  {
    var s1 := s.(count := s.count + 1, history := s.history + Said(e), toolCalls := Some(calls), state := ToolDetection);
    RunUnfold(env, s);
    MatchedStep(env, s, e, calls);
    ToolCycle(env, s1, calls);
    var next := s1.(history := s1.history + Records(calls, Outcomes(env, calls)), state := Streaming);
    var status := [StatusChunk(ToolDetected, Some(calls)), StatusChunk(ToolsExecuted, None), StatusChunk(Continuing, None)];
    ConsAssoc(TextChunks(e), status, Run(env, next).0);
  }

  /** Per tool call, in call order: the call, then its result or the error it raised. */
  lemma {:induction false} RecordsShape(calls: seq<ToolCall>, outcomes: seq<ToolOutcome>)
    requires |calls| == |outcomes|
    ensures |Records(calls, outcomes)| == 2 * |calls|
    ensures forall i :: 0 <= i < |calls| ==>
      Records(calls, outcomes)[2 * i] == AssistantCalls([calls[i]]) &&
      Records(calls, outcomes)[2 * i + 1] == RecordOf(calls[i], outcomes[i])
  {
    if calls != [] {
      var n := |calls| - 1;
      RecordsShape(calls[..n], outcomes[..n]);
    }
  }

  /** A tool the registry does not know is recorded as an error message naming it. */
  lemma {:induction false} UnknownToolRecorded(env: Env, call: ToolCall)
    requires !env.known(call.func.name)
    ensures RecordOf(call, RunTool(env, call)) ==
      AssistantText("Error executing tool " + call.func.name + ": Tool " + call.func.name + " not found")
  {
  }

  /** The initial history: the system prompt first when one is set, then the last `limit`
      messages when `limit` is positive, or all of them. */
  lemma {:induction false} InitialHistoryShape(history: seq<Message>, limit: int, systemPrompt: Option<string>)
    ensures var h := InitialHistory(history, limit, systemPrompt);
      var k := if Truthy(systemPrompt) then 1 else 0;
      |h| >= k && (Truthy(systemPrompt) ==> h[0] == SystemMessage(systemPrompt.value)) &&
      h[k..] == history[|history| - |h[k..]|..] &&
      |h[k..]| == (if limit > 0 && limit < |history| then limit else |history|)
  {
  }
}
