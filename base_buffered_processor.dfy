/**
 * The buffering shared by the processors of `base_buffered_processor.py`: the tail of the
 * text that has not been emitted yet, carried from one chunk to the next.
 *
 * Python subclassing becomes composition: each processor owns one `BufferedBase`, and its
 * own `ProcessChunk` performs the base class's `process_chunk` around its own matching
 * step.
 */
module BaseBufferedProcessor {
  import opened Wrappers
  import opened Streaming

  /** What `flush_buffer` reports for a held-back tail: the tail as output, or the default
      result when nothing is held back. */
  function Flushed(trailing: string): (r: PatternMatchResult)
    ensures r.output.Some? <==> trailing != []
    ensures r.output.Some? ==> r.output.value == trailing
    ensures !r.matched && r.patternName == None && r.textWithToolCall == None
  {
    if trailing != [] then Emitted(trailing) else Default
  }

  class BufferedBase {
    const toolCallMessage: string
    var trailingBufferOriginal: string

    /** A fresh processor holds nothing back. */
    constructor (toolCallMessage: string)
      ensures this.toolCallMessage == toolCallMessage && trailingBufferOriginal == []
    {
      this.toolCallMessage := toolCallMessage;
      trailingBufferOriginal := [];
    }

    /** Forgets the held-back tail; nothing else of the processor changes. */
    method ResetStates()
      modifies this
      ensures trailingBufferOriginal == []
    {
      trailingBufferOriginal := [];
    }

    /** Emits the held-back tail, if any, and holds nothing back afterwards. */
    method FlushBuffer() returns (result: PatternMatchResult)
      modifies this
      ensures result == Flushed(old(trailingBufferOriginal)) && trailingBufferOriginal == []
    {
      result := Default;
      if trailingBufferOriginal != [] {
        result := result.(output := Some(trailingBufferOriginal));
        trailingBufferOriginal := [];
      }
    }
  }

  /** Chunks that never match are emitted in full: if every call emits `outs[i]` and keeps
      `tails[i+1]` out of `tails[i] + chunks[i]`, all outputs followed by the last tail are
      the first tail followed by all chunks. */
  lemma {:induction false} NoMatchStream(tails: seq<string>, outs: seq<string>, chunks: seq<string>)
    requires |tails| == |outs| + 1 && |outs| == |chunks|
    requires forall i :: 0 <= i < |outs| ==> outs[i] + tails[i + 1] == tails[i] + chunks[i]
    ensures Concat(outs) + tails[|outs|] == tails[0] + Concat(chunks)
    decreases |outs|
  {
    if outs != [] {
      var n := |outs| - 1;
      NoMatchStream(tails[..n + 1], outs[..n], chunks[..n]);
      ConcatSnoc(outs[..n], outs[n]);
      ConcatSnoc(chunks[..n], chunks[n]);
      assert outs[..n] + [outs[n]] == outs;
      assert chunks[..n] + [chunks[n]] == chunks;
      calc {
        Concat(outs) + tails[n + 1];
        Concat(outs[..n]) + (outs[n] + tails[n + 1]);
        Concat(outs[..n]) + (tails[n] + chunks[n]);
        (Concat(outs[..n]) + tails[n]) + chunks[n];
        tails[0] + Concat(chunks[..n]) + chunks[n];
      }
    }
  }

  /** All strings of `parts` one after another. */
  function Concat(parts: seq<string>): string
  {
    if parts == [] then [] else parts[0] + Concat(parts[1..])
  }

  lemma {:induction false} ConcatSnoc(parts: seq<string>, p: string)
    ensures Concat(parts + [p]) == Concat(parts) + p
    decreases |parts|
  {
    if parts == [] {
      assert Concat([p]) == p + Concat([]);
    } else {
      assert (parts + [p])[1..] == parts[1..] + [p];
      ConcatSnoc(parts[1..], p);
    }
  }
}
