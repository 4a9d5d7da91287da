/**
 * The server-sent-events reader of the watsonx adapter (`WatsonXAdapter._make_sse_request`
 * and `_parse_sse_event` in `llm/adapters/watsonx/watsonx_adapter.py`): response lines are
 * stripped and collected until a blank line, each collected group is parsed into an
 * event, and the data of every event that has data and parses as JSON is yielded.
 *
 * This is a simplified reading of "Interpreting an event stream" (section 9.2.6 of the
 * WHATWG HTML Living Standard): values are stripped on both sides instead of losing one
 * leading space, `data` values are concatenated without the line feed the standard puts
 * between them, and lines after the last blank line are never dispatched.
 *
 * The HTTP request, UTF-8 decoding and the retry and timeout handling are not modelled:
 * the reader receives the decoded lines. `json.loads` is a parameter.
 */
module WatsonxSse {
  import opened Wrappers
  import opened PyStr
  import opened JsonValue

  datatype SseEvent = SseEvent(id: Option<string>, event: Option<string>, data: Option<string>)

  /** The stripped values of the lines that start with `prefix`, in order. */
  function Values(lines: seq<string>, prefix: string): (r: seq<string>)
    ensures |r| <= |lines|
  {
    if lines == [] then []
    else
      var line := lines[|lines| - 1];
      Values(lines[..|lines| - 1], prefix) + (if prefix <= line then [Strip(line[|prefix|..])] else [])
  }

  /** One more line adds its value when it has the prefix. */
  lemma {:induction false} ValuesSnoc(lines: seq<string>, line: string, prefix: string)
    ensures prefix <= line ==> Values(lines + [line], prefix) == Values(lines, prefix) + [Strip(line[|prefix|..])]
    ensures !(prefix <= line) ==> Values(lines + [line], prefix) == Values(lines, prefix)
  {
    var all := lines + [line];
    assert all[..|all| - 1] == lines;
    assert Values(lines, prefix) + [] == Values(lines, prefix);
  }

  /** A line starts with at most one of the three field prefixes. */
  lemma {:induction false} PrefixesExclusive(line: string)
    ensures "id:" <= line ==> !("event:" <= line) && !("data:" <= line)
    ensures "event:" <= line ==> !("data:" <= line)
  {
    if "id:" <= line {
      assert line[0] == 'i';
    }
    if "event:" <= line {
      assert line[0] == 'e';
    }
  }

  /** The event after one more line, from the event before it. */
  lemma {:induction false} EventSnoc(lines: seq<string>, line: string)
    ensures var e := EventOf(lines);
      EventOf(lines + [line]) ==
        if "id:" <= line then e.(id := Some(Strip(line[3..])))
        else if "event:" <= line then e.(event := Some(Strip(line[6..])))
        else if "data:" <= line then e.(data := Some(e.data.GetOr("") + Strip(line[5..])))
        else e
  {
    ValuesSnoc(lines, line, "id:");
    ValuesSnoc(lines, line, "event:");
    ValuesSnoc(lines, line, "data:");
    PrefixesExclusive(line);
    if "data:" <= line {
      var vs, v := Values(lines, "data:"), Strip(line[5..]);
      JoinSnoc("", vs, v);
      if vs == [] {
        assert "" + v == v;
      } else {
        assert Join("", vs) + "" + v == Join("", vs) + v;
      }
    }
  }

  function Last(vs: seq<string>): Option<string>
  {
    if vs == [] then None else Some(vs[|vs| - 1])
  }

  /** The event a group of lines describes: the last `id` and `event` values, and all
      `data` values run together; a field no line sets is absent. */
  function EventOf(lines: seq<string>): SseEvent
  {
    var data := Values(lines, "data:");
    SseEvent(Last(Values(lines, "id:")), Last(Values(lines, "event:")),
             if data == [] then None else Some(Join("", data)))
  }

  /** `_parse_sse_event`: the lines are read in order, each one setting the field its
      prefix names. */
  method ParseSseEvent(lines: seq<string>) returns (event: SseEvent)
    ensures event == EventOf(lines)
  {
    event := SseEvent(None, None, None);
    var i := 0;
    while i < |lines|
      invariant 0 <= i <= |lines|
      invariant event == EventOf(lines[..i])
    {
      var line := lines[i];
      assert lines[..i + 1] == lines[..i] + [line];
      EventSnoc(lines[..i], line);
      if "id:" <= line {
        event := event.(id := Some(Strip(line[3..])));
      } else if "event:" <= line {
        event := event.(event := Some(Strip(line[6..])));
      } else if "data:" <= line {
        event := event.(data := Some(event.data.GetOr("") + Strip(line[5..])));
      }
      i := i + 1;
    }
    assert lines[..i] == lines;
  }

  /** The lines collected since the last blank line, stripped. */
  function Pending(lines: seq<string>): seq<string>
  {
    if lines == [] then []
    else
      var line := Strip(lines[|lines| - 1]);
      if line == [] then [] else Pending(lines[..|lines| - 1]) + [line]
  }

  /** What the reader has yielded, and the exception that ended it, if any. */
  datatype Read = Read(values: seq<Json>, raised: Option<string>)

  /** What one completed group contributes: its data parsed as JSON, nothing when it has
      no data or the data is not JSON, or the exception `json.loads` let through. */
  function Dispatch(group: seq<string>, loads: string -> Loaded): Read
  {
    match EventOf(group).data
    case None => Read([], None)
    case Some(d) =>
      match loads(d)
      case Parsed(v) => Read([v], None)
      case Raised(ValueError, _) => Read([], None)
      case Raised(OtherException, m) => Read([], Some(m))
  }

  /** The reader over the lines of a response: each blank line dispatches the group
      collected before it; an exception ends the reading. */
  function Yielded(lines: seq<string>, loads: string -> Loaded): Read
  {
    if lines == [] then Read([], None)
    else
      var init := lines[..|lines| - 1];
      var before := Yielded(init, loads);
      if before.raised.Some? || Strip(lines[|lines| - 1]) != [] then before
      else
        var d := Dispatch(Pending(init), loads);
        Read(before.values + d.values, d.raised)
  }

  /** The grouping loop of `_make_sse_request`. */
  method ReadEvents(rawLines: seq<string>, loads: string -> Loaded) returns (out: seq<Json>, raised: Option<string>)
    ensures Read(out, raised) == Yielded(rawLines, loads)
  {
    var buffer: seq<string> := [];
    out := [];
    raised := None;
    var i := 0;
    while i < |rawLines|
      invariant 0 <= i <= |rawLines|
      invariant Read(out, raised) == Yielded(rawLines[..i], loads)
      invariant buffer == Pending(rawLines[..i])
      invariant raised.None?
    {
      assert rawLines[..i + 1] == rawLines[..i] + [rawLines[i]];
      YieldedSnoc(rawLines[..i], rawLines[i], loads);
      PendingSnoc(rawLines[..i], rawLines[i]);
      var line := Strip(rawLines[i]);
      if line == [] {
        var event := ParseSseEvent(buffer);
        buffer := [];
        if event.data.Some? {
          match loads(event.data.value) {
            case Parsed(v) => out := out + [v];
            case Raised(kind, m) =>
              if kind == OtherException {
                raised := Some(m);
                assert Read(out, raised) == Yielded(rawLines[..i + 1], loads);
                YieldedGrows(rawLines[..i + 1], rawLines[i + 1..], loads);
                assert rawLines[..i + 1] + rawLines[i + 1..] == rawLines;
                return;
              }
          }
        }
      } else {
        buffer := buffer + [line];
      }
      i := i + 1;
    }
    assert rawLines[..i] == rawLines;
  }

  /** One more line for the reader. */
  lemma {:induction false} YieldedSnoc(init: seq<string>, line: string, loads: string -> Loaded)
    ensures Yielded(init + [line], loads) ==
      var before := Yielded(init, loads);
      if before.raised.Some? || Strip(line) != [] then before
      else
        var d := Dispatch(Pending(init), loads);
        Read(before.values + d.values, d.raised)
  {
    assert (init + [line])[..|init|] == init;
  }

  /** One more line for the pending group: a blank line empties it, any other line is
      added stripped. */
  lemma {:induction false} PendingSnoc(init: seq<string>, line: string)
    ensures Pending(init + [line]) == if Strip(line) == [] then [] else Pending(init) + [Strip(line)]
  {
    assert (init + [line])[..|init|] == init;
  }

  // ----- properties -----

  /** Every field takes the value of its last line, and `data` joins all of its lines with
      nothing between them. */
  lemma {:induction false} LastLineWins(lines: seq<string>, line: string)
    ensures "id:" <= line ==> EventOf(lines + [line]).id == Some(Strip(line[3..]))
    ensures "event:" <= line ==> EventOf(lines + [line]).event == Some(Strip(line[6..]))
    ensures "data:" <= line ==>
      EventOf(lines + [line]).data == Some(EventOf(lines).data.GetOr("") + Strip(line[5..]))
  {
    EventSnoc(lines, line);
    PrefixesExclusive(line);
  }

  /** A line with none of the three prefixes changes nothing; in particular an event
      without a `data` line has no data. */
  lemma {:induction false} OtherLinesIgnored(lines: seq<string>, line: string)
    requires !("id:" <= line) && !("event:" <= line) && !("data:" <= line)
    ensures EventOf(lines + [line]) == EventOf(lines)
  {
    EventSnoc(lines, line);
  }

  /** Lines after the last blank line never form an event. */
  lemma {:induction false} TrailingLinesDropped(lines: seq<string>, tail: seq<string>, loads: string -> Loaded)
    requires forall k :: 0 <= k < |tail| ==> Strip(tail[k]) != []
    ensures Yielded(lines + tail, loads) == Yielded(lines, loads)
    decreases |tail|
  {
    if tail != [] {
      var init := tail[..|tail| - 1];
      assert (lines + tail)[..|lines + tail| - 1] == lines + init;
      TrailingLinesDropped(lines, init, loads);
    } else {
      assert lines + tail == lines;
    }
  }

  /** After a blank line nothing collected before it is pending. */
  lemma {:induction false} PendingAfterBlank(before: seq<string>, after: seq<string>)
    requires before != [] && Strip(before[|before| - 1]) == []
    ensures Pending(before + after) == Pending(after)
    decreases |after|
  {
    if after == [] {
      assert before + after == before;
    } else {
      var init := after[..|after| - 1];
      assert (before + after)[..|before + after| - 1] == before + init;
      PendingAfterBlank(before, init);
    }
  }

  /** A blank line separates the stream into independent parts: what follows it is read
      as a stream of its own, unless reading already stopped on an exception. */
  lemma {:induction false} BlankLineSeparates(before: seq<string>, after: seq<string>, loads: string -> Loaded)
    requires before != [] && Strip(before[|before| - 1]) == []
    requires Yielded(before, loads).raised.None?
    ensures Yielded(before + after, loads) ==
      Read(Yielded(before, loads).values + Yielded(after, loads).values, Yielded(after, loads).raised)
    decreases |after|
  {
    if after == [] {
      assert before + after == before;
      assert Yielded(before, loads).values + [] == Yielded(before, loads).values;
    } else {
      var init, last := after[..|after| - 1], after[|after| - 1];
      assert after == init + [last];
      assert before + after == (before + init) + [last];
      YieldedSnoc(before + init, last, loads);
      YieldedSnoc(init, last, loads);
      BlankLineSeparates(before, init, loads);
      PendingAfterBlank(before, init);
      var y := Yielded(before, loads).values;
      var a := Yielded(init, loads);
      if a.raised.None? && Strip(after[|after| - 1]) == [] {
        var d := Dispatch(Pending(init), loads);
        assert y + a.values + d.values == y + (a.values + d.values);
      }
    }
  }

  /** Values are yielded in stream order: the reader of a longer stream starts with what
      the reader of its prefix yielded. */
  lemma {:induction false} YieldedGrows(lines: seq<string>, more: seq<string>, loads: string -> Loaded)
    ensures Yielded(lines, loads).values <= Yielded(lines + more, loads).values
    ensures Yielded(lines, loads).raised.Some? ==> Yielded(lines + more, loads) == Yielded(lines, loads)
    decreases |more|
  {
    if more == [] {
      assert lines + more == lines;
    } else {
      var init := more[..|more| - 1];
      assert (lines + more)[..|lines + more| - 1] == lines + init;
      YieldedGrows(lines, init, loads);
    }
  }

  /** A group whose data does not parse is skipped without stopping the reader. */
  lemma {:induction false} InvalidDataSkipped(lines: seq<string>, loads: string -> Loaded)
    requires lines != [] && Strip(lines[|lines| - 1]) == []
    requires Yielded(lines[..|lines| - 1], loads).raised.None?
    requires var d := EventOf(Pending(lines[..|lines| - 1])).data;
      d.None? || (loads(d.value).Raised? && loads(d.value).kind == ValueError)
    ensures Yielded(lines, loads) == Yielded(lines[..|lines| - 1], loads)
  {
    var before := Yielded(lines[..|lines| - 1], loads).values;
    assert before + [] == before;
  }
}
