/**
 * `PatternMatchResult` of `data_models/streaming.py`: what one buffered-processor call
 * reports. Every optional field is `None` unless the processor sets it.
 */
module Streaming {
  import opened Wrappers

  datatype PatternMatchResult = PatternMatchResult(
    output: Option<string>,
    patternName: Option<string>,
    matched: bool,
    textWithToolCall: Option<string>,
    toolCallMessage: Option<string>,
    error: Option<string>)

  /** The result with every field at its default. */
  const Default := PatternMatchResult(None, None, false, None, None, None)

  /** The default result with only `output` set. */
  function Emitted(text: string): (r: PatternMatchResult)
    ensures !r.matched && r.output == Some(text) && r.textWithToolCall == None
  {
    Default.(output := Some(text))
  }

  /** A match: the pattern name, the tool-call message, the text before the match and the
      text from the match on. */
  function MatchedAt(name: string, message: string, before: string, rest: string): (r: PatternMatchResult)
    ensures r.matched && r.patternName == Some(name) && r.toolCallMessage == Some(message)
    ensures r.output == Some(before) && r.textWithToolCall == Some(rest)
  {
    Default.(matched := true, patternName := Some(name), toolCallMessage := Some(message),
             output := Some(before), textWithToolCall := Some(rest))
  }
}
