# Flexo streaming agent core, modelled in Dafny

Flexo is a Python service that puts a chat-completions API in front of several LLM vendors
and runs tools on the model's behalf. This project models the parts of it that decide what
the client sees. They are:

- **Tool-call detection in a token stream.**
  - An Aho-Corasick automaton (plain and whitespace-normalised) finds tool-call markers.
  - Buffered processors keep the tail of the stream that might still grow into a marker.
  - Two detection strategies are modelled: a manual one over raw text, and a vendor one over
    streamed tool-call fragments.
- **Tool-call parsing.**
  - The bracket-depth JSON segment scanners.
  - The two JSON tool-call parsers.
  - The shared parse, clean and validate step of the base parser.
- **The streaming agent's state machine.**
  - Streaming, tool detection, tool execution, the intermediate step and completion.
  - The error wrapper and the bookkeeping of tool results.
- **The watsonx adapter's server-sent-events reader.**
- **The JSON-to-document formatter.**
- **The MCP tool observer.**
- **Tool wiring.**
  - The three tool registries.
  - The tool builder.
  - The REST tool base: settings checks, middleware, headers, and the retry and status table.
- **Tools.** The RAG, image-RAG, weather and Wikipedia tools.
- **The chat-completions route's helpers**, and the Watson Assistant conversion.
- **The prompt builders.**
  - The shared base.
  - OpenAI, xAI and Mistral AI.
  - watsonx Granite, Llama and Mistral.

Code that works by changing state step by step is modelled that way:
- the automaton and the buffered processors are classes whose methods update their fields;
- the loops of the source are `while`/`for` loops, proved against reference functions.

Code that only computes a value is modelled as functions and lemmas. The three kinds of
input the service takes from outside are parameters:
- the network;
- the environment;
- the configuration read from YAML files.

Error paths are values: `Result` and `Option`, or the error dictionaries the source returns.

## Model

| member | source | states |
|---|---|---|
| AhoCorasick.Automaton.constructor | src/llm/pattern_detection/aho_corasick.py:40-51 | Building over a pattern dictionary gives valid tables. The three tables have equal length, state 0 is the root, and every transition and failure link is a valid state. The trie spells exactly the prefixes of the patterns, failure links and output lists are final, and the cursor is at the root. |
| AhoCorasick.Automaton.BuildMachine | src/llm/pattern_detection/aho_corasick.py:53-83 | The root alone, then every pattern inserted in dictionary order, then the breadth-first failure pass give the valid automaton. |
| AhoCorasick.Automaton.Insert | src/llm/pattern_detection/aho_corasick.py:85-100 | Walking a pattern from the root creates exactly the missing states. The tables become the trie of the earlier patterns plus this one, and the name is appended to the output of the state spelling the pattern. |
| AhoCorasick.Automaton.AddState | src/llm/pattern_detection/aho_corasick.py:94-98 | A missing child gets a new state numbered as the old number of states, with failure link 0 and an empty output, and the walk's invariant moves one character on. |
| AhoCorasick.Automaton.ResetState | src/llm/pattern_detection/aho_corasick.py:102-108 | The cursor returns to the root and the text fed is forgotten; the tables are unchanged. |
| AhoCorasick.Automaton.SearchChunk | src/llm/pattern_detection/aho_corasick.py:110-134 | With no empty pattern, the matches reported are exactly `Matches(patterns, fed, chunk)`. That is, `(i, name)` for every pattern ending at index `i` of the chunk, including one that began in an earlier chunk, in increasing `i`. The cursor stays valid, the fed text grows by the chunk, and the tables are unchanged. |
| AhoCorasick.Goto | src/llm/pattern_detection/aho_corasick.py:128-130 | Following failure links while the character has no transition, then taking it or falling back to the root, reaches the state that spells the longest trie suffix of the current string plus the character. |
| AhoCorasick.LinkFailures | src/llm/pattern_detection/aho_corasick.py:68-83 | After the breadth-first pass, every non-root state fails to the state of its longest proper suffix the trie spells. Its output is the names of every pattern that is a suffix of its string, longest first. |
| AhoCorasick.LinkRootChildren | src/llm/pattern_detection/aho_corasick.py:69-72 | The children of the root are queued and fail to the root. |
| AhoCorasick.LinkChildren | src/llm/pattern_detection/aho_corasick.py:76-83 | Each child of the popped state is queued, gets its failure link from the parent's failure walk, and inherits that state's output. |
| AhoCorasick.LinkOneChild | src/llm/pattern_detection/aho_corasick.py:77-83 | Linking one child keeps the loop invariant: the child's failure link spells the longest proper suffix of its path that is in the trie, its output names every pattern that is a suffix of its path, and it is queued in order of depth. |
| AhoCorasick.SearchStep | src/llm/pattern_detection/aho_corasick.py:127-133 | One character fed from a state spelling the longest trie suffix reaches the state for the extended text, and its output adds exactly the matches ending at that index. |
| AhoCorasick.DocumentedExample | src/llm/pattern_detection/aho_corasick.py:121-124 | For `{'pat1': 'abc', 'pat2': 'bc'}` fed `'abc'`, both patterns end at index 2 and nothing ends at index 1. The result is `[(2, 'pat1'), (2, 'pat2')]`, not the `[(1, 'pat2'), (2, 'pat1')]` the documentation shows. |
| TrieSpec.Lookup | src/llm/pattern_detection/aho_corasick_normalized.py:81-86 | A dictionary lookup finds a text exactly when the name is a key, and the text found is stored under that name; otherwise it is the `KeyError` case. |
| TrieSpec.LookupDistinct | src/llm/pattern_detection/aho_corasick_normalized.py:81-86 | With distinct names, looking up an entry's name finds that entry's text. |
| TrieSpec.LongestSuffixSpec | src/llm/pattern_detection/aho_corasick.py:69-82 | The longest trie suffix of a text is a suffix of it and a path of the trie. |
| TrieSpec.LongestSuffixIsLongest | src/llm/pattern_detection/aho_corasick.py:69-82 | Every suffix of the text that the trie spells is a suffix of the longest one. |
| TrieSpec.LongestSuffixStep | src/llm/pattern_detection/aho_corasick.py:128-130 | The longest trie suffix after one more character depends on the earlier text only through its longest trie suffix, which is what lets the automaton keep a single state. |
| TrieSpec.SuffixNamesOfLongest | src/llm/pattern_detection/aho_corasick.py:83-133 | The names reported for a text depend only on its longest trie suffix. |
| TrieSpec.SuffixNamesMember | src/llm/pattern_detection/aho_corasick.py:83 | A name is listed for a text exactly when its pattern is non-empty and a suffix of the text. |
| TrieSpec.NamesOfMember | src/llm/pattern_detection/aho_corasick.py:100 | A name is listed for a text exactly when some entry pairs that name with that text. |
| TrieSpec.NamesOfOutsideTrie | src/llm/pattern_detection/aho_corasick.py:100 | A text the trie does not spell is no pattern's text. |
| TrieSpec.MatchesMember | src/llm/pattern_detection/aho_corasick.py:110-134 | `(i, n)` is reported exactly when `i` is inside the chunk and the non-empty pattern `n` ends at `i`, matching text that may begin in earlier chunks. |
| TrieSpec.MatchesOrdered | src/llm/pattern_detection/aho_corasick.py:127-133 | Reported indices lie inside the chunk and never decrease. |
| TrieSpec.MatchesConcat | src/llm/pattern_detection/aho_corasick.py:50-133 | Feeding `a` then `b` reports, for `b`, exactly the matches of feeding `a + b` at indices from `abs(a)` on, shifted back by `abs(a)`. |
| TrieSpec.MatchesSnoc | src/llm/pattern_detection/aho_corasick.py:127-133 | A chunk one character longer reports the earlier matches and then the matches at the new last index. |
| TrieSpec.AtPosition | src/llm/pattern_detection/aho_corasick.py:132-133 | Every output name is tagged with the current index, in output order. |
| TrieSpec.Shift | src/llm/pattern_detection/aho_corasick.py:127-133 | Shifting keeps the names and the order and moves every index by the offset. |
| TrieTables.InsertExisting | src/llm/pattern_detection/aho_corasick.py:94-99 | Following an existing transition keeps the tables and advances the walk by one character. |
| TrieTables.InsertNew | src/llm/pattern_detection/aho_corasick.py:94-99 | Creating the missing state adds exactly one path, `p[..i+1]`, linked from the current state. |
| TrieTables.NewPathOutside | src/llm/pattern_detection/aho_corasick.py:94 | A missing transition means the new path is not yet spelled by the trie. |
| TrieTables.PathExtend | src/llm/pattern_detection/aho_corasick.py:93-99 | Extending the inserted word by one character adds exactly one path. |
| TrieTables.FailStep | src/llm/pattern_detection/aho_corasick.py:79-129 | With no transition on the character, the longest trie suffix is found from the failure link. |
| TrieTables.ShallowStates | src/llm/pattern_detection/aho_corasick.py:70-72 | Every state of depth 0 or 1 is the root or a child of the root. |
| TrieTables.ParentLabel | src/llm/pattern_detection/aho_corasick.py:98 | A state's parent spells its string without the last character. |
| TrieInsert.RootOnly | src/llm/pattern_detection/aho_corasick.py:60-62 | The root alone is the trie of no patterns. |
| TrieInsert.InsertNewState | src/llm/pattern_detection/aho_corasick.py:94-98 | Appending a fresh state for `p[..i+1]` and linking it from the current state keeps the insertion invariant. |
| TrieInsert.InsertOldState | src/llm/pattern_detection/aho_corasick.py:99 | Following an existing transition keeps the insertion invariant. |
| TrieInsert.InsertFinish | src/llm/pattern_detection/aho_corasick.py:100 | At the end of the walk, appending the name to the state spelling the pattern gives the trie with that pattern added. |
| FailureLinks.RootChild | src/llm/pattern_detection/aho_corasick.py:70-72 | A child of the root fails to the root, which is its longest proper trie suffix, and is queued. |
| FailureLinks.Pop | src/llm/pattern_detection/aho_corasick.py:74-75 | Popping the head of the breadth-first queue starts the visit of its children with the queue still sorted by depth. |
| FailureLinks.Child | src/llm/pattern_detection/aho_corasick.py:76-83 | Linking one child through the state its parent's failure walk reached gives that child its correct failure link and output. |
| FailureLinks.LinkChild | src/llm/pattern_detection/aho_corasick.py:81-83 | The failure link and the extended output the child gets are its longest proper trie suffix and the names of the patterns ending there. |
| FailureLinks.ChildrenDone | src/llm/pattern_detection/aho_corasick.py:76-83 | Once all children of a state are linked, the main invariant of the pass holds again. |
| FailureLinks.AllLinked | src/llm/pattern_detection/aho_corasick.py:74 | When the queue is empty, every state is linked. |
| AhoCorasickNormalized.NormalizePatterns | src/llm/pattern_detection/aho_corasick_normalized.py:39-41 | Every pattern keeps its name and position, and its text becomes the text with all whitespace removed. |
| AhoCorasickNormalized.AutomatonNormalized.constructor | src/llm/pattern_detection/aho_corasick_normalized.py:36-44 | The pattern table holds the whitespace-free texts and the length table their lengths. The automaton is built over the normalised patterns and starts at the root with nothing fed. |
| AhoCorasickNormalized.AutomatonNormalized.ResetState | src/llm/pattern_detection/aho_corasick_normalized.py:46-52 | The inner automaton returns to the root and forgets the text fed. |
| AhoCorasickNormalized.AutomatonNormalized.SearchChunk | src/llm/pattern_detection/aho_corasick_normalized.py:54-72 | The chunk is searched as given, which is already normalised. With no empty pattern, the result is exactly the matches of the normalised patterns ending in that chunk, at indices into it. |
| AhoCorasickNormalized.AutomatonNormalized.GetPatternLength | src/llm/pattern_detection/aho_corasick_normalized.py:74-86 | A known name gives its recorded length; an unknown name is the `KeyError` case (`None`). |
| AhoCorasickNormalized.LengthsSpec | src/llm/pattern_detection/aho_corasick_normalized.py:38-42 | The length table has exactly the pattern names as keys, each bound to the length of its normalised text. |
| AhoCorasickNormalized.NormalizePatternsLookup | src/llm/pattern_detection/aho_corasick_normalized.py:39-41 | Normalising keeps the names distinct and unchanged, and every name maps to its pattern's whitespace-free text. |
| AhoCorasickNormalized.PatternLengthMatchesText | src/llm/pattern_detection/aho_corasick_normalized.py:74-86 | A name has a length exactly when it has a normalised pattern, and the length is that pattern's length. |
| AhoCorasickNormalized.HelloWorldExample | src/llm/pattern_detection/aho_corasick_normalized.py:66-70 | As documented, `{'pat1': 'hello world'}` normalises to `helloworld`, and searching `'helloworld'` from the root reports exactly one match, at index 9. |
| AhoCorasickNormalized.OnePatternOnce | src/llm/pattern_detection/aho_corasick_normalized.py:54-72 | A single non-empty pattern searched on its own text from the root is reported once, at the last index. |
| AhoCorasickNormalized.NoMatchBefore | src/llm/pattern_detection/aho_corasick_normalized.py:54-72 | No proper prefix of the only pattern, fed from the root, reports anything. |
| AhoCorasickPattern.LegacyProcessor.constructor | src/llm/pattern_detection/aho_corasick_pattern.py:155-160 | The automaton is built over the loaded patterns, the message is kept, nothing is held back, and the longest pattern length is recorded. `max` over no patterns raises, so the pattern set must be non-empty. |
| AhoCorasickPattern.LegacyProcessor.ResetStates | src/llm/pattern_detection/aho_corasick_pattern.py:162-169 | The automaton returns to the root and the held-back tail is cleared. |
| AhoCorasickPattern.LegacyProcessor.ProcessChunk | src/llm/pattern_detection/aho_corasick_pattern.py:171-232 | The held-back tail plus the chunk is searched from the current cursor. With no match, the longest-pattern-minus-one tail is kept back. With a match, the text is split at the start of the earliest match: the text before is emitted and the rest is carried as the tool call. The cursor is not reset after a match. |
| AhoCorasickPattern.LegacyProcessor.SearchCombined | src/llm/pattern_detection/aho_corasick_pattern.py:187-232 | The search and split of one combined text: the result and the new tail are the standard step applied to exactly the matches found, and every match names a known pattern. |
| AhoCorasickPattern.LegacyProcessor.FlushBuffer | src/llm/pattern_detection/aho_corasick_pattern.py:234-259 | The held-back tail is emitted as output, if there is one, and nothing is held back afterwards. |
| AhoCorasickPattern.RepeatedMatchExample | src/llm/pattern_detection/aho_corasick_pattern.py:190-230 | The cursor is not reset after a match. So the pattern `"aa"` fed `"aa"` and then `"a"` matches again: the second call reports a match ending at index 0, and splits off `"a"` as a tool call with empty output. |
| AhoCorasickPattern.FirstMatchExample | src/llm/pattern_detection/aho_corasick_pattern.py:190-230 | From the root, the pattern `"aa"` fed `"aa"` matches once, ending at index 1, and fed `"a"` matches nothing. |
| PatternUtils.IndexMap | src/llm/pattern_detection/pattern_utils.py:22-34 | There is one index per kept character, and each is a position of the original text. |
| PatternUtils.NormalizeAndMap | src/llm/pattern_detection/pattern_utils.py:22-34 | The loop over `enumerate(text)` returns the text without whitespace and the original index of every kept character. |
| PatternUtils.IndexMapMapsBack | src/llm/pattern_detection/pattern_utils.py:24-26 | The index map has one entry per normalised character. Entries are strictly increasing and in range, and each points at the very character it stands for, which is not whitespace. |
| PatternUtils.IndexMapCovers | src/llm/pattern_detection/pattern_utils.py:30-33 | Every non-whitespace position of the text appears in the index map, so no character is lost. |
| PatternUtils.NormalizedHasNoSpace | src/llm/pattern_detection/pattern_utils.py:25 | The normalised text contains no whitespace. |
| PatternUtils.NormalizedIdempotent | src/llm/pattern_detection/pattern_utils.py:25 | Normalising twice is normalising once. |
| PatternUtils.NoSpaceFixed | src/llm/pattern_detection/pattern_utils.py:25 | A text without whitespace is its own normalisation. |
| PatternUtils.NormalizedConcat | src/llm/pattern_detection/pattern_utils.py:30-33 | Normalisation distributes over concatenation, so normalising chunk by chunk equals normalising the whole stream. |
| PatternUtils.NormalizedBefore | src/llm/pattern_detection/pattern_utils.py:26 | The original text before the position of normalised character `a` normalises to the first `a` normalised characters. |
| PatternUtils.NormalizedFrom | src/llm/pattern_detection/pattern_utils.py:26 | The original text from the position of normalised character `a` normalises to the normalised text from `a`. |
| PatternUtils.NormalizedBetween | src/llm/pattern_detection/pattern_utils.py:26 | The original span between the positions of normalised characters `a` and `b` normalises to exactly `a..b` of the normalised text. |
| PatternUtils.AllSpaceBetween | src/llm/pattern_detection/pattern_utils.py:30-33 | Between two consecutive mapped positions the original text is all whitespace. |
| PatternUtils.AllSpaceAfterLast | src/llm/pattern_detection/pattern_utils.py:30-33 | After the last mapped position the original text is all whitespace. |
| BaseBufferedProcessor.BufferedBase.constructor | src/llm/pattern_detection/base_buffered_processor.py:23-25 | A fresh processor keeps the message and holds nothing back. |
| BaseBufferedProcessor.BufferedBase.ResetStates | src/llm/pattern_detection/base_buffered_processor.py:27-33 | The held-back tail is cleared. |
| BaseBufferedProcessor.BufferedBase.FlushBuffer | src/llm/pattern_detection/base_buffered_processor.py:63-83 | The held-back tail is emitted as output when it is non-empty, the default result is returned otherwise, and nothing is held back afterwards. |
| BaseBufferedProcessor.Flushed | src/llm/pattern_detection/base_buffered_processor.py:78-83 | The flush result carries an output exactly when the tail is non-empty, and that output is the tail. It never reports a match or a tool call. |
| BaseBufferedProcessor.NoMatchStream | src/llm/pattern_detection/base_buffered_processor.py:53-61 | Chunks that never match lose nothing. Suppose each call emits `outs[i]` and keeps `tails[i+1]`, splitting `tails[i] + chunks[i]`. Then all outputs followed by the last tail are the first tail followed by all chunks. |
| Detection.MakeToolCall | src/data_models/chat_completions.py:82-116 | Building a `ToolCall` succeeds exactly when the name is a string, the arguments are a dictionary and the type is `"function"`. The call then carries the id, the name and the arguments. |
| BufferedProcessorStandard.MaxTextLength | src/llm/pattern_detection/buffered_processor_standard.py:31 | `max` over no patterns is the error case (`None`). Otherwise the result is the length of some pattern and at least the length of every pattern. |
| BufferedProcessorStandard.Earliest | src/llm/pattern_detection/buffered_processor_standard.py:74 | `min(matches, key=...)` returns a reported match whose end index is no larger than any other, and the first such match: every match before it ends strictly later. |
| BufferedProcessorStandard.Processor.constructor | src/llm/pattern_detection/buffered_processor_standard.py:27-32 | The automaton is built over the loaded patterns and reset, nothing is held back, the message is kept, and the longest pattern length is recorded. The pattern set must be non-empty for `max`. |
| BufferedProcessorStandard.Processor.ProcessChunk | src/llm/pattern_detection/base_buffered_processor.py:35-61 | The held-back tail plus the chunk goes through one standard step on exactly the matches the automaton reports for it. The new tail is the one the step keeps. The automaton is back at the root after a match, and otherwise has been fed the combined text. |
| BufferedProcessorStandard.Processor.ProcessChunkImpl | src/llm/pattern_detection/buffered_processor_standard.py:34-85 | The result and the new tail are the standard step. With no match, the last `min(max_pattern_len - 1, len)` characters are kept back, with Python's negative slicing. With a match, the text is split at the start of the earliest match and the automaton is reset. |
| BufferedProcessorStandard.HoldBackTail | src/llm/pattern_detection/buffered_processor_standard.py:61-71 | Without a match the branch computes the standard step on no matches: with Python's negative slicing it emits all but the last `min(max_pattern_len - 1, len)` characters and keeps those back. |
| BufferedProcessorStandard.SplitAtMatch | src/llm/pattern_detection/buffered_processor_standard.py:73-83 | With at least one match, the result is the reference step's: the split at the start of the match that ends earliest, with nothing kept back. |
| BufferedProcessorStandard.MatchesNamesKnown | src/llm/pattern_detection/buffered_processor_standard.py:75 | Every name the automaton reports is a pattern's name, so the lookup `self.automaton.patterns[pattern_name]` never raises. |
| BufferedProcessorStandard.NoMatchSplit | src/llm/pattern_detection/buffered_processor_standard.py:61-71 | Without a match, the output followed by the kept tail is exactly the combined text. The tail is its suffix of length `min(max_pattern_len - 1, len)`, or empty when that is not positive. |
| BufferedProcessorStandard.MatchSplit | src/llm/pattern_detection/buffered_processor_standard.py:73-85 | With a match, the output followed by the tool-call text is exactly the combined text and nothing is kept back. The message is set and the pattern named is the first of the earliest-ending matches. |
| BufferedProcessorStandard.EarliestIsFirst | src/llm/pattern_detection/buffered_processor_standard.py:74 | The automaton reports matches in increasing end order, so the earliest is simply the first reported. |
| BufferedProcessorStandard.GenuineFromRoot | src/llm/pattern_detection/buffered_processor_standard.py:57-85 | From a fresh automaton, the text split off as a tool call begins with the matched pattern's text. The output ends just before it, and the pattern ends at the reported index. |
| BufferedProcessorStandard.EarliestOccurs | src/llm/pattern_detection/buffered_processor_standard.py:74-76 | From the root, the earliest reported match is a real occurrence of its pattern ending at that index. |
| BufferedProcessorStandard.NoEarlierOccurrence | src/llm/pattern_detection/buffered_processor_standard.py:74 | From the root, no pattern occurs ending before the earliest reported index, so no earlier tool call is missed. |
| BufferedProcessorStandard.SpuriousMatch | src/llm/pattern_detection/buffered_processor_standard.py:59-82 | The automaton keeps the text already emitted as context. So `"abab"` fed `"ab"` (held back), then `"ab"` + `"z"`, reports a match ending at index 1 of `"abz"`. Its start, -2, slices the text into output `"a"` and tool call `"bz"`, though `"abz"` does not contain the pattern. |
| BufferedProcessorNormalized.PyIndex | src/llm/pattern_detection/buffered_processor_normalized.py:66-89 | A list index succeeds exactly for indices from `-len` to `len - 1`, and then returns an element of the list; beyond that it is the `IndexError`. |
| BufferedProcessorNormalized.EntryError | src/llm/pattern_detection/buffered_processor_normalized.py:80-83 | A reported match raises nothing only when its name has a length and both its end index and its start index are valid list indices of the index map. |
| BufferedProcessorNormalized.PickEarliest | src/llm/pattern_detection/buffered_processor_normalized.py:76-87 | The loop succeeds exactly when no reported match raises. It keeps no candidate exactly when there are no matches, and otherwise keeps the candidate of one of the reported matches. |
| BufferedProcessorNormalized.PickEarliestFailure | src/llm/pattern_detection/buffered_processor_normalized.py:79-83 | A failing loop raises the exception of the first reported match that raises. |
| BufferedProcessorNormalized.PickEarliestMinimal | src/llm/pattern_detection/buffered_processor_normalized.py:84-87 | The kept candidate ends no later in the original text than any other, and strictly earlier than every candidate before it. |
| BufferedProcessorNormalized.NormalizedProcessor.constructor | src/llm/pattern_detection/buffered_processor_normalized.py:28-33 | The normalised automaton is built over the loaded patterns and reset, nothing is held back, and the longest normalised pattern length is recorded. |
| BufferedProcessorNormalized.NormalizedProcessor.ProcessChunk | src/llm/pattern_detection/base_buffered_processor.py:35-61 | The held-back tail plus the chunk goes through one normalised step on exactly the matches reported for its normalisation. On success the new tail is the one the step keeps. On an exception, the error is the step's and the tail is left as it was. |
| BufferedProcessorNormalized.NormalizedProcessor.ProcessChunkImpl | src/llm/pattern_detection/buffered_processor_normalized.py:35-97 | Normalise, search from the current cursor, then either keep back the original text from the first of the last `min(max_pattern_len - 1, n)` normalised characters, or split at the original start of the match that ends first. Exceptions are propagated and the automaton is reset after a match. |
| BufferedProcessorNormalized.HoldBack | src/llm/pattern_detection/buffered_processor_normalized.py:63-72 | Without a match the step is the reference step on no matches: the original text up to the original position of the first kept normalised character is emitted, and the rest is kept back. |
| BufferedProcessorNormalized.Candidate | src/llm/pattern_detection/buffered_processor_normalized.py:80-83 | One iteration of the loop raises exactly when the reference says the match raises, with the same exception (`KeyError` for an unknown name, `IndexError` for an index outside the map), and otherwise yields the reference candidate. |
| BufferedProcessorNormalized.FindEarliest | src/llm/pattern_detection/buffered_processor_normalized.py:76-87 | The `for` loop over the matches computes exactly the reference pick: the first exception, or the candidate ending first in the original text. |
| BufferedProcessorNormalized.PickEarliestStops | src/llm/pattern_detection/buffered_processor_normalized.py:79-83 | Once a reported match raises, the whole loop raises that exception. |
| BufferedProcessorNormalized.NormalizedNoMatchSplit | src/llm/pattern_detection/buffered_processor_normalized.py:63-73 | Without a match, the step succeeds. The output followed by the tail is the combined text, and the tail normalises to the last `min(max_pattern_len - 1, n)` normalised characters (none when that is not positive). A non-empty tail starts on a non-whitespace character. |
| BufferedProcessorNormalized.PickIsEarliest | src/llm/pattern_detection/buffered_processor_normalized.py:76-87 | With non-negative ends and a strictly increasing index map, the original-order pick is the candidate of the earliest normalised match. |
| BufferedProcessorNormalized.FromRootNoError | src/llm/pattern_detection/buffered_processor_normalized.py:80-83 | From a fresh automaton, every reported match has a known length and in-range indices, so nothing raises. |
| BufferedProcessorNormalized.NormalizedGenuineFromRoot | src/llm/pattern_detection/buffered_processor_normalized.py:58-97 | From a fresh automaton, a match splits the original text into output and tool-call text with nothing kept back. It names the earliest match, and a prefix of the tool-call text normalises to that pattern's text. |
| BufferedProcessorNormalized.EarliestPattern | src/llm/pattern_detection/buffered_processor_normalized.py:80-81 | From the root, the earliest match's pattern is known, non-empty, and occurs in the normalised stream ending at the reported index. |
| BufferedProcessorNormalized.SplitAtEarliest | src/llm/pattern_detection/buffered_processor_normalized.py:89-97 | When the earliest match is a real occurrence, the split puts it at the head of the tool-call text, under whitespace removal. |
| BufferedProcessorNormalized.MatchPick | src/llm/pattern_detection/buffered_processor_normalized.py:76-87 | With every match inside a strictly increasing index map, the loop raises nothing and picks the match that ends earliest, at the original position of its end and with its normalised start. |
| BufferedProcessorNormalized.StepOfPick | src/llm/pattern_detection/buffered_processor_normalized.py:89-95 | The split is at the original position of the picked candidate's normalised start. |
| BufferedProcessorNormalized.OriginalSpan | src/llm/pattern_detection/buffered_processor_normalized.py:82-94 | The original text from a mapped start has a prefix that normalises to the normalised span. |
| BufferedProcessorNormalized.HeldBackStep | src/llm/pattern_detection/buffered_processor_normalized.py:63-73 | With the pattern `"aaaa"`, a text `"a"` followed by any spaces is held back whole with nothing emitted, and the automaton fed one more `"a"` after fewer than three reports nothing (the chunks `"a"`, `" "`, `" "`). |
| BufferedProcessorNormalized.IndexErrorExample | src/llm/pattern_detection/buffered_processor_normalized.py:81-83 | Continuing that example, one more `" "` chunk is searched as `"a"` after `"aaa"` and reports a match ending at 0. Its start, 0 - 4 + 1 = -3, is outside the one-entry index map: `process_chunk` raises `IndexError`. |
| ManualDetectionStrategy.EntryToolCall | src/llm/tool_detection/manual_detection_strategy.py:193-203 | A tool call is built only from a dictionary entry, and it always carries the placeholder id `123456789`. |
| ManualDetectionStrategy.ExtractToolCalls | src/llm/tool_detection/manual_detection_strategy.py:180-204 | The loop over `parsed_output.get("tool_calls", [])` computes the reference list of tool calls, or the first exception an entry raises. |
| ManualDetectionStrategy.EntriesFailureStays | src/llm/tool_detection/manual_detection_strategy.py:193-203 | Once an entry raises, later entries do not matter: the whole extraction raises that exception. |
| ManualDetectionStrategy.PlainEntriesToolCalls | src/llm/tool_detection/manual_detection_strategy.py:193-203 | Entries with a string name, dictionary arguments and no type or parameters give one tool call each, in order. Each has the placeholder id and its entry's name and arguments. |
| ManualDetectionStrategy.ParametersPreferred | src/llm/tool_detection/manual_detection_strategy.py:194-198 | When an entry has `parameters`, they are the arguments, and a missing type defaults to `"function"`. |
| ManualDetectionStrategy.ManualStrategy.constructor | src/llm/tool_detection/manual_detection_strategy.py:49-58 | A fresh strategy owns a fresh normalised processor and collects nothing: no earlier content, an empty buffer, and both flags off. |
| ManualDetectionStrategy.ManualStrategy.Reset | src/llm/tool_detection/manual_detection_strategy.py:60-71 | The processor's tail, the earlier content and the buffer are cleared and both flags are off. The automaton cursor is left where it was, because `reset_states` of the base processor only clears the tail. |
| ManualDetectionStrategy.ManualStrategy.DetectChunk | src/llm/tool_detection/manual_detection_strategy.py:73-127 | A chunk without text gives `NO_MATCH` and changes nothing. An exception from the processor propagates with the mode unchanged. Otherwise the processor steps and the result is given by `OnProcessed`: a match starts collecting at the marker with empty content; while collecting, the chunk's whole text is appended; before a marker, the safe output is passed on. |
| ManualDetectionStrategy.ManualStrategy.React | src/llm/tool_detection/manual_detection_strategy.py:96-127 | After the processor has stepped, the result and the new tool-call mode and buffer are what `OnProcessed` gives for the old mode. The pre-tool-call content and the accumulation flag are unchanged. |
| ManualDetectionStrategy.ManualStrategy.FinalizeDetection | src/llm/tool_detection/manual_detection_strategy.py:129-178 | The tail is flushed. While collecting, it is appended and the buffer is parsed: a parse error gives `NO_MATCH` with the apology, and success gives `COMPLETE_MATCH` with the extracted calls. Otherwise the flushed text is passed on as `PARTIAL_MATCH`, or `NO_MATCH` when there is none. |
| ManualDetectionStrategy.MatchedStepSplits | src/llm/tool_detection/manual_detection_strategy.py:94-108 | A matching processor step has no error, keeps nothing back, and splits the combined text into output and tool-call text. |
| ManualDetectionStrategy.PreMarkerTextLost | src/llm/tool_detection/manual_detection_strategy.py:101-108 | On a match, the content returned is empty though the processor's output, the text before the marker, may not be. That text is never emitted, while the buffer gets exactly the rest. |
| ManualDetectionStrategy.BeforeMatchPassesOutput | src/llm/tool_detection/manual_detection_strategy.py:119-127 | Before any marker, a chunk without a match passes on the processor's output as `PARTIAL_MATCH` if it is non-empty, and is `NO_MATCH` otherwise. The mode is unchanged. |
| ManualDetectionStrategy.CollectingAppends | src/llm/tool_detection/manual_detection_strategy.py:101-116 | While collecting, every chunk is `PARTIAL_MATCH`. Without a new match its whole text is appended to the buffer; a new match replaces the buffer with the new tool-call text. |
| ManualDetectionStrategy.TailCountedTwice | src/llm/tool_detection/manual_detection_strategy.py:111-149 | While collecting, the chunk's text is appended whole, but the processor also holds back a suffix of it. Finalising appends that suffix again, so the buffer parsed is the buffer, then the text, then the repeated tail. |
| VendorDetectionStrategy.DetectedState | src/llm/tool_detection/vendor_detection_strategy.py:83-131 | After one chunk, the pending name and arguments have absorbed the chunk's first tool-call fragment, if there is a choice. The collected calls grow by exactly the calls the result reports. A complete call has been found exactly when one was found before or this chunk completed one. |
| VendorDetectionStrategy.VendorStrategy.constructor | src/llm/tool_detection/vendor_detection_strategy.py:40-45 | A new strategy starts in the initial state: no name, empty arguments, nothing collected, nothing found. |
| VendorDetectionStrategy.VendorStrategy.Reset | src/llm/tool_detection/vendor_detection_strategy.py:47-57 | Every field returns to the initial state. |
| VendorDetectionStrategy.VendorStrategy.DetectChunk | src/llm/tool_detection/vendor_detection_strategy.py:59-144 | The result and the new state are the reference step `Detected` on the old state, whose properties the lemmas below state. |
| VendorDetectionStrategy.VendorStrategy.CompleteCall | src/llm/tool_detection/vendor_detection_strategy.py:110-131 | With a pending name, the accumulated arguments are parsed and a tool call is built with the fragment's id or `call_generated`. It is appended to the collected calls and reported as `COMPLETE_MATCH` with the chunk's text; a failure propagates. |
| VendorDetectionStrategy.VendorStrategy.ParseArguments | src/llm/tool_detection/vendor_detection_strategy.py:111-115 | The `try`/`except` around `json.loads` computes the reference parse of the arguments. |
| VendorDetectionStrategy.VendorStrategy.FinalizeDetection | src/llm/tool_detection/vendor_detection_strategy.py:146-176 | Finalising reports `COMPLETE_MATCH` with all collected calls once one was found, and `NO_MATCH` otherwise, whether or not a partial call is pending. |
| VendorDetectionStrategy.ArgumentsAccumulate | src/llm/tool_detection/vendor_detection_strategy.py:105-106 | Over any run of chunks, the pending arguments are the earlier ones followed by every fragment's non-empty arguments, in order. |
| VendorDetectionStrategy.RunPending | src/llm/tool_detection/vendor_detection_strategy.py:84-106 | The pending call after a run is the pending call after all but the last chunk, updated by the last chunk's fragment, if it has a choice. |
| VendorDetectionStrategy.LastNameWins | src/llm/tool_detection/vendor_detection_strategy.py:101-102 | The pending name is the name of the last fragment that carried one, or the earlier name when none did. |
| VendorDetectionStrategy.AccumulatedArgs | src/llm/tool_detection/vendor_detection_strategy.py:105-106 | Absorbing one more fragment extends the accumulated arguments by that fragment's arguments. |
| VendorDetectionStrategy.AccumulatedName | src/llm/tool_detection/vendor_detection_strategy.py:101-102 | Absorbing one more fragment keeps the last-name-wins property. |
| VendorDetectionStrategy.CollectedAreEmitted | src/llm/tool_detection/vendor_detection_strategy.py:124-125 | Over a run, the collected calls are exactly the calls the results reported, in order. A complete call has been found exactly when some result was `COMPLETE_MATCH`, and there is one result per chunk. |
| VendorDetectionStrategy.EmittedSnoc | src/llm/tool_detection/vendor_detection_strategy.py:124-131 | One more result adds exactly its calls, and a completion exactly when it is `COMPLETE_MATCH`. |
| VendorDetectionStrategy.RunStep | src/llm/tool_detection/vendor_detection_strategy.py:59-144 | A run is the run on all but the last chunk followed by one step on the last. |
| VendorDetectionStrategy.StreamFinalized | src/llm/tool_detection/vendor_detection_strategy.py:164-176 | For a stream from the initial state, finalising returns `COMPLETE_MATCH` with every call the chunks reported, if any chunk completed one, and `NO_MATCH` otherwise. |
| VendorDetectionStrategy.NoChoicesNoMatch | src/llm/tool_detection/vendor_detection_strategy.py:84-85 | A chunk without choices is `NO_MATCH` without content and leaves the state alone. |
| VendorDetectionStrategy.TextPassesThrough | src/llm/tool_detection/vendor_detection_strategy.py:90-144 | Every successful result carries the chunk's text content when it is non-empty and none otherwise, and never the chunk itself. |
| VendorDetectionStrategy.CompletionEmitsOne | src/llm/tool_detection/vendor_detection_strategy.py:109-131 | When the finish reason is `tool_calls`, a name is pending and the arguments parse to a dictionary, exactly one call is reported and appended. It has the fragment's id and that name and dictionary, and a completion is recorded. |
| VendorDetectionStrategy.ArgumentsFallbacks | src/llm/tool_detection/vendor_detection_strategy.py:112-115 | Empty arguments parse as `{}`, and undecodable ones as `{"_malformed": args}`. A successful parse is a dictionary, or what `json.loads` returned. |
| VendorDetectionStrategy.NonDictArgumentsFail | src/llm/tool_detection/vendor_detection_strategy.py:117-123 | Arguments that decode to something other than a dictionary fail `FunctionDetail`'s validation. |
| VendorDetectionStrategy.NoNameNoCompletion | src/llm/tool_detection/vendor_detection_strategy.py:109-144 | Without a pending name nothing is completed or collected. The result is `PARTIAL_MATCH` while arguments are pending and `NO_MATCH` otherwise. |
| VendorDetectionStrategy.CompletionRepeats | src/llm/tool_detection/vendor_detection_strategy.py:109-125 | The pending name and arguments are never cleared after a completion. A second `tool_calls` chunk without a fragment therefore reports the same call again, and it is collected twice. |
| JsonSegments.Texts | src/tools/parsers/json_tool_call_parser.py:82-83 | One text per span, each the slice `text[start:end]` of its span. |
| JsonSegments.ScanKeepsInv | src/tools/parsers/json_tool_call_parser.py:74-84 | After any prefix of the scan, the state agrees with the running bracket depth. The spans found are ordered, disjoint and balanced, and an open segment starts at the last depth-0 opener. |
| JsonSegments.SegmentsShape | src/tools/parsers/json_tool_call_parser.py:58-86 | The segments are the texts of ordered, non-overlapping spans. Each starts at an opener and is bracket-balanced: its depth returns to 0 only at its last character. |
| JsonSegments.OrderedPairwise | src/tools/parsers/json_tool_call_parser.py:82-84 | Any two segments appear in order without overlap. |
| JsonSegments.FindJsonContent | src/tools/parsers/json_tool_call_parser.py:58-86 | The character loop returns exactly the reference segments. |
| JsonSegments.ScanChar | src/tools/parsers/json_tool_call_parser.py:75-84 | One character moves the loop's variables from the reference scan state before it to the one after it. The scan invariant is kept: the open segment is an open run, and the segments found are balanced and ordered. |
| JsonSegments.QuotesIgnored | src/tools/parsers/json_tool_call_parser.py:58-86 | Quotes are not looked at: in `{"a": "}"}` the `}` inside the string closes the segment early. |
| JsonSegments.NegativeDepthHidesSegment | src/tools/parsers/json_tool_call_parser.py:80-84 | A closer at depth 0 drives the depth negative, so in `]{}` the balanced `{}` is never reported. |
| JsonToolCallParser.Extract | src/tools/parsers/json_tool_call_parser.py:20-55 | The loop over the segments gives the reference outcome. Dicts are appended and lists spliced in. A `ValueError` skips a segment and any other exception ends with `Unexpected error: ...`. An empty result is the `No valid tool calls found` error. |
| JsonToolCallParser.AbortedStays | src/tools/parsers/json_tool_call_parser.py:49-55 | Once an unexpected exception ends the loop, later segments do not matter. |
| JsonToolCallParser.GatherAppend | src/tools/parsers/json_tool_call_parser.py:41-48 | Segments processed in two parts collect the first part's calls followed by the second's. |
| JsonToolCallParser.FirstUnexpectedDecides | src/tools/parsers/json_tool_call_parser.py:41-55 | The loop completes exactly when no segment raises an exception other than `ValueError`. Otherwise the message is that of the first such segment. |
| JsonToolCallParser.CollectedCalls | src/tools/parsers/json_tool_call_parser.py:41-52 | A completed loop collects exactly the dicts and list items of the loaded segments, in order. The result is `{"tool_calls": calls}`, or the no-valid-calls error when there are none. |
| JsonToolCallParser.LoadedCallsSnoc | src/tools/parsers/json_tool_call_parser.py:43-48 | One more segment adds its own dict or list items, or nothing when it does not load. |
| CoreJsonToolCallParser.ParseNested | src/tools/core/parsers/json_tool_call_parser.py:78-106 | Re-loading keeps a dict's keys in order and a list's length. Null, booleans and numbers are unchanged. A string is unchanged unless it looks like JSON and loads. |
| CoreJsonToolCallParser.ParseItems | src/tools/core/parsers/json_tool_call_parser.py:103-104 | Each list item is re-loaded, and the length is kept. |
| CoreJsonToolCallParser.ParseFields | src/tools/core/parsers/json_tool_call_parser.py:101-102 | Each dict value is re-loaded, and the keys are kept in order. |
| CoreJsonToolCallParser.ParseNestedSettled | src/tools/core/parsers/json_tool_call_parser.py:91-106 | After re-loading, no string anywhere in the value still looks like loadable JSON. |
| CoreJsonToolCallParser.SettledFixed | src/tools/core/parsers/json_tool_call_parser.py:91-106 | A settled value is left unchanged by re-loading. |
| CoreJsonToolCallParser.ParseNestedIdempotent | src/tools/core/parsers/json_tool_call_parser.py:78-106 | Re-loading twice is re-loading once. |
| CoreJsonToolCallParser.Extract | src/tools/core/parsers/json_tool_call_parser.py:15-46 | The loop over the segments gives the reference result. Each segment that loads contributes its re-loaded dict or re-loaded list items, any exception skips it, and no calls is the error. |
| CoreJsonToolCallParser.CallsSnoc | src/tools/core/parsers/json_tool_call_parser.py:33-42 | One more segment adds exactly its own contribution. |
| CoreJsonToolCallParser.CallsAppend | src/tools/core/parsers/json_tool_call_parser.py:33-42 | The calls of two runs of segments are the calls of the first followed by those of the second. |
| CoreJsonToolCallParser.CallsSettled | src/tools/core/parsers/json_tool_call_parser.py:36-40 | Every call collected is settled: no nested JSON string is left. |
| CoreJsonToolCallParser.ContributionCases | src/tools/core/parsers/json_tool_call_parser.py:34-42 | A segment that raises contributes nothing, and a dict contributes itself re-loaded. A list contributes one call per item. |
| BaseToolCallParser.CleanText | src/tools/parsers/base_tool_call_parser.py:67-79 | Every clean token is removed in turn (none when `clean_tokens` is missing), then the text is stripped. |
| BaseToolCallParser.RemoveTokensAbsent | src/tools/parsers/base_tool_call_parser.py:76-78 | Tokens that do not occur leave the text unchanged. |
| BaseToolCallParser.CleanOneToken | src/tools/parsers/base_tool_call_parser.py:78 | Removing one token is splitting on it and joining the pieces. |
| BaseToolCallParser.CallsError | src/tools/parsers/base_tool_call_parser.py:98-102 | The calls pass exactly when each is a dict with `name` and `arguments`. Otherwise the error is the message for the first bad call. |
| BaseToolCallParser.Validate | src/tools/parsers/base_tool_call_parser.py:82-104 | Validation passes exactly when the data is well formed. A missing or non-list `tool_calls` is `Expected a list of tool calls`, and every failure is one of the three messages. |
| BaseToolCallParser.Iterated | src/tools/parsers/base_tool_call_parser.py:50 | Iterating over a list gives its items, a dict its keys and a string its characters. Null, booleans and numbers raise. |
| BaseToolCallParser.Parse | src/tools/parsers/base_tool_call_parser.py:32-65 | The text is cleaned, extracted, renamed (`parameters` becomes `arguments` in every call and at top level) and, without an error, validated. A `ValueError` becomes `{"error": message}` and any other exception `{"error": "Unexpected error: ..."}`. |
| BaseToolCallParser.RenameParameters | src/tools/parsers/base_tool_call_parser.py:48-54 | Renaming in place gives what the value-level renaming gives: `parameters` moved to `arguments` in each call of `tool_calls` (a list) and at top level, or the message of the first exception. |
| BaseToolCallParser.RenameEach | src/tools/parsers/base_tool_call_parser.py:49-52 | The loop over the calls renames each call in order and stops with the first call's exception. |
| BaseToolCallParser.RenameFailureStays | src/tools/parsers/base_tool_call_parser.py:50-52 | Once renaming a call raises, later calls do not matter. |
| BaseToolCallParser.MoveParametersGet | src/tools/parsers/base_tool_call_parser.py:52-54 | After the move, `arguments` holds what `parameters` held, `parameters` is gone, and every other key is unchanged. |
| BaseToolCallParser.RenameCallShape | src/tools/parsers/base_tool_call_parser.py:50-52 | A renamed dict call has no `parameters` key, and a call without one is left as it was. |
| BaseToolCallParser.RenameCallsPointwise | src/tools/parsers/base_tool_call_parser.py:50-52 | Renaming succeeds call by call, keeping the number and the order of the calls. |
| BaseToolCallParser.ErrorPassesThrough | src/tools/parsers/base_tool_call_parser.py:56-59 | An extraction error without calls or parameters is returned as it was, without validation. |
| BaseToolCallParser.SuccessShape | src/tools/parsers/base_tool_call_parser.py:56-58 | A result without an error is well formed: a list of dict calls, each with `name` and `arguments` and none with `parameters`. |
| BaseToolCallParser.NoErrorMeansValidated | src/tools/parsers/base_tool_call_parser.py:46-59 | A result without an error is the renamed extraction, and it passed validation. |
| BaseToolCallParser.TopLevelMoveKeepsCalls | src/tools/parsers/base_tool_call_parser.py:49-54 | The top-level `parameters` move leaves the renamed call list in place. |
| ChatAgentStreaming.TextChunks | src/agent/chat_agent_streaming.py:186-188 | One text chunk per text, in order. |
| ChatAgentStreaming.Outcomes | src/agent/chat_agent_streaming.py:323-341 | `asyncio.gather` gives one outcome per tool call, in call order, each from running that call alone. |
| ChatAgentStreaming.DispatchProgress | src/agent/chat_agent_streaming.py:109-136 | Every dispatch keeps the invariant that calls are recorded before they are reported or run, and it brings the machine closer to `COMPLETED`. Only `STREAMING` re-enters itself, and it uses up an entry each time, so `stream_step` terminates. |
| ChatAgentStreaming.StreamContext.constructor | src/agent/chat_agent_streaming.py:296-304 | A new context holds the history, an empty buffer, no tool calls, the `STREAMING` state, a zero entry count and the depth limit. |
| ChatAgentStreaming.StreamingChatAgent.constructor | src/agent/chat_agent_streaming.py:53-302 | The history limit defaults to 3, the system prompt to none and the streaming depth limit to 1. |
| ChatAgentStreaming.StreamingChatAgent.InitializeContext | src/agent/chat_agent_streaming.py:281-304 | The new context holds the initial history (the system prompt, then the last `history_limit` messages) in the `STREAMING` state with no entries yet. |
| ChatAgentStreaming.StreamingChatAgent.StreamStep | src/agent/chat_agent_streaming.py:98-140 | The `while` loop dispatches until the context is `COMPLETED`. The chunks yielded and the final context are those of the reference run, whose properties the lemmas below state. |
| ChatAgentStreaming.StreamingChatAgent.Dispatch | src/agent/chat_agent_streaming.py:109-136 | The `match` runs the handler for the current state, each wrapped in the error handler. `COMPLETING` yields the empty stop chunk and ends in `COMPLETED`. |
| ChatAgentStreaming.StreamingChatAgent.HandleToolDetection | src/agent/chat_agent_streaming.py:213-220 | The state moves to `EXECUTING_TOOLS`, then the status chunk listing the calls is yielded. Without calls the iteration raises, and the wrapper yields the apology instead. |
| ChatAgentStreaming.StreamingChatAgent.HandleToolExecution | src/agent/chat_agent_streaming.py:222-261 | A non-blank message buffer is recorded and cleared. Every call and its outcome are appended to the history, then the state is `INTERMEDIATE` with the tools-executed status. |
| ChatAgentStreaming.StreamingChatAgent.RecordOutcomes | src/agent/chat_agent_streaming.py:238-257 | The `zip` loop appends, per call and in order, the assistant message carrying the call and then either the tool's result message or the error text. |
| ChatAgentStreaming.StreamingChatAgent.HandleStreaming | src/agent/chat_agent_streaming.py:142-211 | The entry count is raised, and past the limit the depth message is yielded and the state is `COMPLETING`. Otherwise one model stream runs. |
| ChatAgentStreaming.StreamingChatAgent.StreamTurn | src/agent/chat_agent_streaming.py:180-193 | The detection results of the stream are handled in order until one raises or completes a tool call. Each non-empty text of a `NO_MATCH` or `PARTIAL_MATCH` result is accumulated and yielded. |
| ChatAgentStreaming.StreamingChatAgent.FinishStream | src/agent/chat_agent_streaming.py:195-211 | A finalize result that completes a call is handled as a match. Otherwise its text is yielded, all texts are recorded as one assistant message when there are any, and a stop chunk moves the state to `COMPLETING`. |
| ChatAgentStreaming.StreamingChatAgent.HandleCompleteMatch | src/agent/chat_agent_streaming.py:306-321 | The match's text is yielded and the tool calls recorded (none becomes `[]`). The stream's texts are appended as one assistant message when there are any, and the state is `TOOL_DETECTION`. |
| ChatAgentProperties.CompletedOnlyFromCompleting | src/agent/chat_agent_streaming.py:132-136 | Only the completing handler leads to `COMPLETED`, and it yields a single empty stop chunk. |
| ChatAgentProperties.RunCompletes | src/agent/chat_agent_streaming.py:109-136 | Every run ends `COMPLETED`, and a run that dispatched anything ends with the empty stop chunk. |
| ChatAgentProperties.DispatchedExtends | src/agent/chat_agent_streaming.py:206-318 | One dispatch only appends to the history and leaves the depth limit alone. |
| ChatAgentProperties.HistoryExtends | src/agent/chat_agent_streaming.py:109-136 | The history a run leaves extends the one it started from: messages are appended, never dropped or rewritten. |
| ChatAgentProperties.DispatchedCount | src/agent/chat_agent_streaming.py:145-151 | One dispatch raises the entry count by at most one. A count that passes the limit leaves the machine `COMPLETING`. |
| ChatAgentProperties.StreamsBounded | src/agent/chat_agent_streaming.py:145-151 | From a count within the limit, a run ends with a count of at most the limit plus one: `max_streaming_iterations` bounds the model streams opened. |
| ChatAgentProperties.DepthRefused | src/agent/chat_agent_streaming.py:145-274 | Entering `STREAMING` beyond the limit yields the depth message, then the empty stop chunk, and records nothing. |
| ChatAgentProperties.InterruptedRetries | src/agent/chat_agent_streaming.py:31-193 | The error wrapper yields a raising stream's text so far and then the apology, but the state stays `STREAMING` and the history is untouched. The run goes on to open another stream. |
| ChatAgentProperties.PlainAnswer | src/agent/chat_agent_streaming.py:195-274 | A stream without a tool call yields its texts and two empty stop chunks, one from streaming and one from completing. Its texts are recorded as one assistant message. |
| ChatAgentProperties.StreamedEmits | src/agent/chat_agent_streaming.py:185-188 | A stream only adds to the texts already emitted, and only non-empty ones. |
| ChatAgentProperties.StreamedAllPass | src/agent/chat_agent_streaming.py:181-203 | A stream in which nothing raises and no call completes emits every result's non-empty text, in order, including the finalize result's. |
| ChatAgentProperties.StreamedStopsAt | src/agent/chat_agent_streaming.py:181-188 | The first result that raises interrupts the stream: the texts before it are kept, and nothing after it is read. |
| ChatAgentStreaming.RunUnfold | src/agent/chat_agent_streaming.py:109-136 | A run that dispatches is the first dispatch's chunks followed by the run from there. |
| ChatAgentProperties.EndedStep | src/agent/chat_agent_streaming.py:143-213 | The dispatch of a stream that ends without a tool call yields its texts and an empty stop chunk, records the texts, raises the entry count and moves to `COMPLETING`. |
| ChatAgentProperties.CompletingRun | src/agent/chat_agent_streaming.py:132-136 | From `COMPLETING`, one empty stop chunk is yielded and the run ends in `COMPLETED` with nothing else changed. |
| ChatAgentProperties.ExecutionCycle | src/agent/chat_agent_streaming.py:222-268 | From `EXECUTING_TOOLS` with an empty buffer, the tools-executed and continuing statuses are yielded, the calls and outcomes are recorded, and the machine is back in `STREAMING`. |
| ChatAgentProperties.ToolCycle | src/agent/chat_agent_streaming.py:213-268 | From `TOOL_DETECTION`, the three statuses (detected with the calls, executed, continuing) are yielded in order, with the calls run and recorded before streaming again. |
| ChatAgentProperties.MatchedStep | src/agent/chat_agent_streaming.py:190-321 | A stream that completes a call yields its texts, records them and the calls, and moves to `TOOL_DETECTION`. |
| ChatAgentProperties.ToolRound | src/agent/chat_agent_streaming.py:142-268 | A stream that completes a call is followed by the three statuses and a return to `STREAMING`. The history then holds the stream's text, then every call with its outcome. |
| ChatAgentProperties.RecordsShape | src/agent/chat_agent_streaming.py:239-257 | The records are two messages per call, in call order: the call, then its result or the error it raised. |
| ChatAgentProperties.UnknownToolRecorded | src/agent/chat_agent_streaming.py:243-328 | A tool the registry does not know is recorded as `Error executing tool <name>: Tool <name> not found`. |
| ChatAgentProperties.InitialHistoryShape | src/agent/chat_agent_streaming.py:286-294 | The initial history is the system prompt, when one is set, followed by the last `history_limit` messages when the limit is positive, or by all of them. |
| WatsonxSse.Values | src/llm/adapters/watsonx/watsonx_adapter.py:256-263 | The stripped values of the lines with a given prefix, at most one per line. |
| WatsonxSse.ValuesSnoc | src/llm/adapters/watsonx/watsonx_adapter.py:256-263 | One more line adds its stripped value exactly when it has the prefix. |
| WatsonxSse.PrefixesExclusive | src/llm/adapters/watsonx/watsonx_adapter.py:257-261 | A line sets at most one field: the `id:`, `event:` and `data:` prefixes exclude each other. |
| WatsonxSse.EventSnoc | src/llm/adapters/watsonx/watsonx_adapter.py:255-264 | Reading one more line replaces `id` or `event` with its stripped value, or appends its stripped value to `data`, and any other line changes nothing. So the loop computes the reference event. |
| WatsonxSse.ParseSseEvent | src/llm/adapters/watsonx/watsonx_adapter.py:246-264 | The loop over the lines gives the reference event: the last `id` and `event` values and all `data` values run together, each field absent when no line sets it. |
| WatsonxSse.ReadEvents | src/llm/adapters/watsonx/watsonx_adapter.py:221-237 | The loop over the response lines yields exactly the reference values. Lines are stripped and grouped until a blank line, and each group with data that loads is yielded. Undecodable data is skipped, and any other exception ends the reading. |
| WatsonxSse.LastLineWins | src/llm/adapters/watsonx/watsonx_adapter.py:257-263 | A later `id` or `event` line overrides the earlier value, and a `data` line appends to the data so far. |
| WatsonxSse.OtherLinesIgnored | src/llm/adapters/watsonx/watsonx_adapter.py:256-264 | A line with none of the three prefixes changes nothing. |
| WatsonxSse.TrailingLinesDropped | src/llm/adapters/watsonx/watsonx_adapter.py:225-237 | Lines after the last blank line are never dispatched. |
| WatsonxSse.PendingAfterBlank | src/llm/adapters/watsonx/watsonx_adapter.py:225-227 | A blank line empties the group, so the group after it holds only later lines. |
| WatsonxSse.BlankLineSeparates | src/llm/adapters/watsonx/watsonx_adapter.py:225-237 | A blank line splits the stream: what is yielded is what each side yields on its own, in order. |
| WatsonxSse.YieldedGrows | src/llm/adapters/watsonx/watsonx_adapter.py:221-237 | More lines only add values, and after an exception nothing more is read. |
| WatsonxSse.InvalidDataSkipped | src/llm/adapters/watsonx/watsonx_adapter.py:229-235 | A group without data, or whose data is not JSON, yields nothing. |
| JsonFormatter.Spaces | src/utils/json_formatter.py:76 | `" " * n` gives `n` spaces, and none when `n` is not positive. |
| JsonFormatter.FormatFailsIffInvalid | src/utils/json_formatter.py:68-73 | The options are checked before anything is formatted, and the document exists exactly when they are valid. The errors are checked in order: `indent_size`, then `preview_length`, then `max_length` not above `preview_length`. |
| JsonFormatter.FormatJsonToDocument | src/utils/json_formatter.py:22-126 | `format_json_to_document`: the option checks, then the joined lines; `JsonFormatter.FormatFailsIffInvalid`, `JsonFormatter.LinesIndented` and `JsonFormatter.LinesTerminated` state its properties. |
| JsonFormatter.TruncateShape | src/utils/json_formatter.py:6-19 | A value within the limit is kept, and a longer one becomes its first `preview_length` characters and `...`. Truncating twice changes nothing more. |
| JsonFormatter.Truncate | src/utils/json_formatter.py:6-19 | `_truncate_value`; `JsonFormatter.TruncateShape` states what it keeps. |
| JsonFormatter.Indented | src/utils/json_formatter.py:76 | The same lines, in order, each with `d` more spaces in front. |
| JsonFormatter.LinesShift | src/utils/json_formatter.py:75-124 | Indentation is uniform: formatting at a deeper level gives the same lines with the extra spaces in front. |
| JsonFormatter.LinesIndented | src/utils/json_formatter.py:76-124 | Every line of a document formatted at `level` starts with `level` spaces. |
| JsonFormatter.LinesTerminated | src/utils/json_formatter.py:75-126 | Every string the generator yields is one non-empty line ending in a line feed. |
| JsonFormatter.FlatDictLines | src/utils/json_formatter.py:108-121 | A dict of scalars is one `key: value` line per entry, in insertion order. |
| JsonFormatter.FlatListLines | src/utils/json_formatter.py:89-105 | A list of scalars is one line per item, prefixed by its index when indices are shown. |
| JsonFormatter.DictDocument | tests/test_json_formatter.py:10 | `{"a": 1, "b": 2}` formats to `a: 1\nb: 2\n`, as the test expects. |
| JsonFormatter.ListDocument | tests/test_json_formatter.py:13 | `[1, 2, 3]` formats to `0: 1\n1: 2\n2: 3\n`, as the test expects. |
| JsonFormatter.NoneDocuments | tests/test_json_formatter.py:63-66 | `None`, `{"key": None}` and `[None, None]` format with the null placeholder, as the tests expect. |
| JsonFormatter.EmptyDocuments | tests/test_json_formatter.py:68-71 | `{}`, `[]` and `{"empty": []}` format with the empty placeholder, as the tests expect. |
| Observer.ToolRegistryObserver.constructor | src/tools/core/observer.py:54-56 | A new observer has no subscribers. |
| Observer.ToolRegistryObserver.Subscribe | src/tools/core/observer.py:58-62 | The callback is appended only when it is not already subscribed. |
| Observer.ToolRegistryObserver.Unsubscribe | src/tools/core/observer.py:64-68 | The first occurrence of the callback is removed, and nothing changes when it is absent. |
| Observer.ToolRegistryObserver.Notify | src/tools/core/observer.py:70-82 | Every subscriber is called in subscription order. The failed ones are exactly those that raise, and the list is unchanged. |
| Observer.SubscribeProperties | src/tools/core/observer.py:58-62 | Subscribing keeps the list free of duplicates, adds exactly the callback, and a second subscription changes nothing. |
| Observer.UnsubscribeProperties | src/tools/core/observer.py:64-68 | Unsubscribing keeps the list free of duplicates and removes exactly the callback. An absent callback leaves the list as it was. |
| Observer.UnsubscribeUndoesSubscribe | src/tools/core/observer.py:58-68 | Unsubscribing a callback just subscribed gives back the original list. |
| Observer.FailuresExactly | src/tools/core/observer.py:76-82 | A callback that raises does not stop the others: the failures are exactly the subscribers that raise. |
| Observer.CompareTools | src/tools/core/observer.py:120-126 | The loop sorts the new tools into added and updated, in the new map's order. |
| Observer.MCPToolObserver.constructor | src/tools/core/observer.py:91-94 | A new bridge has a fresh observer with no subscribers and no current tools. |
| Observer.MCPToolObserver.HandleToolsListChanged | src/tools/core/observer.py:106-158 | A failed or empty listing changes nothing and notifies no one. Otherwise the current tools become the new map, and every subscriber gets the diff event. |
| Observer.ToolMapShape | src/tools/core/observer.py:117 | The name-keyed map has distinct keys, each keying its own tool. Its keys are exactly the listed names, and the last tool with a name wins. |
| Observer.AddedAndUpdated | src/tools/core/observer.py:120-126 | Added means new and not current. Updated means in both with a different definition. |
| Observer.RemovedExactly | src/tools/core/observer.py:128-131 | Removed means current and not in the new map. |
| Observer.EventClassification | src/tools/core/observer.py:136-149 | The event carries all three lists. Its type is ADDED, REMOVED or UPDATED exactly when that is the only kind of change, and LIST_CHANGED otherwise. |
| Observer.Diffed | src/tools/core/observer.py:120-149 | The event `_handle_tools_list_changed` sends for a new tool map; `Observer.AddedAndUpdated`, `Observer.RemovedExactly` and `Observer.EventClassification` state its contents and type. |
| Observer.UnchangedListNotifies | src/tools/core/observer.py:113-155 | Receiving the same list again still notifies, with an empty LIST_CHANGED event. |
| ConfigToolRegistry.ToolRegistry.constructor | src/tools/core/utils/tool_registry.py:24-33 | A new registry has no tools, visible or hidden, and no recorded results. |
| ConfigToolRegistry.ToolRegistry.RegisterTool | src/tools/core/utils/tool_registry.py:35-60 | A name already used in either dict is refused with the `ValueError` message and recorded as failed. Otherwise the tool goes into the dict its flag selects and is recorded there. |
| ConfigToolRegistry.ToolRegistry.GetTool | src/tools/core/utils/tool_registry.py:62-71 | Only visible tools are found, and only under their own name. |
| ConfigToolRegistry.ToolRegistry.GetHiddenTool | src/tools/core/utils/tool_registry.py:73-82 | Only hidden tools are found, and only under their own name. |
| ConfigToolRegistry.ToolRegistry.GetToolDefinitions | src/tools/core/utils/tool_registry.py:84-104 | The loop keeps the definitions of the visible tools, in order. Tools without a name, or whose definition raises, are skipped. |
| ConfigToolRegistry.ToolRegistry.LoadFromConfig | src/tools/core/utils/tool_registry.py:106-149 | The results are cleared, then each configuration is built and registered in order. A failure is recorded with the tool's name, or `<unnamed>` when it has none, and the loop goes on. |
| ConfigToolRegistry.DuplicateRefused | src/tools/core/utils/tool_registry.py:48-51 | A duplicate name leaves both dicts unchanged, raises the `ValueError` message and adds one failure. |
| ConfigToolRegistry.NewNameLands | src/tools/core/utils/tool_registry.py:53-60 | A new name lands in exactly one dict and its success list. A hidden tool is found only as hidden, a visible one only as visible, and names stay unique across both dicts. |
| ConfigToolRegistry.RegisteredKeepsInv | src/tools/core/utils/tool_registry.py:35-60 | Registering keeps every name in at most one dict, at most once. |
| ConfigToolRegistry.LoadStepRecords | src/tools/core/utils/tool_registry.py:140-146 | Each configuration adds exactly one result. The exception is a built tool with a duplicate name: it is recorded as failed twice, once by `register_tool` and once by the loop. |
| ConfigToolRegistry.LoadRecordsEach | src/tools/core/utils/tool_registry.py:133-146 | Loading keeps names unique, and it records between one and two results per configuration. |
| ConfigToolRegistry.LoadedRecordsEach | src/tools/core/utils/tool_registry.py:122-146 | After a load, only that load's results remain: between one and two per configuration. |
| ConfigToolRegistry.DefinitionsExactly | src/tools/core/utils/tool_registry.py:91-104 | The definitions are exactly those of the named visible tools whose definition succeeds, and there are never more than the visible tools. |
| DecoratorToolRegistry.ToolRegistry.constructor | src/tools/core/tool_registry.py:73-76 | The object `__new__` allocates starts uninitialized, with nothing in it. |
| DecoratorToolRegistry.ToolRegistry.Init | src/tools/core/tool_registry.py:78-91 | An initialized object is left untouched. Otherwise the configuration is stored, and when it is non-empty every registered class is instantiated. With an empty configuration no tool is built. |
| DecoratorToolRegistry.ToolRegistry.InitializeRegisteredTools | src/tools/core/tool_registry.py:147-172 | Each registered class is built in order, with its truthy configuration or with none. It goes into the dict its flag selects, and a failure is recorded as `name: error`. |
| DecoratorToolRegistry.ToolRegistry.RegisterToolInstance | src/tools/core/tool_registry.py:200-209 | The instance replaces any same-named tool in the dict its flag selects, and nothing else changes. |
| DecoratorToolRegistry.ToolRegistry.GetTool | src/tools/core/tool_registry.py:211-220 | Only visible tools are found, under their name. |
| DecoratorToolRegistry.ToolRegistry.GetHiddenTool | src/tools/core/tool_registry.py:222-232 | Only hidden tools are found, under their name. |
| DecoratorToolRegistry.ToolRegistry.GetToolDefinitions | src/tools/core/tool_registry.py:234-241 | One definition per visible tool, in order. The whole call raises exactly when one definition does. |
| DecoratorToolRegistry.ToolRegistryClass.constructor | src/tools/core/tool_registry.py:70-71 | The class starts with no instance and an empty table of registered classes. |
| DecoratorToolRegistry.ToolRegistryClass.RegisterTool | src/tools/core/tool_registry.py:174-198 | The decorator records the class under its `name`, or raises for a class without a string `name`. The singleton is untouched. |
| DecoratorToolRegistry.ToolRegistryClass.New | src/tools/core/tool_registry.py:73-91 | There is one instance. The first call builds it from the configuration, and later calls return it unchanged and ignore their configuration. |
| DecoratorToolRegistry.DecorateRecords | src/tools/core/tool_registry.py:191-196 | A class without a string `name` is refused and the table is unchanged. Otherwise its name maps to the class and flag, replacing any earlier one, and every other name keeps its entry. |
| DecoratorToolRegistry.PlacedVisibility | src/tools/core/tool_registry.py:208-209 | A placed tool is found in the dict its flag selects, and the other dict is untouched. |
| DecoratorToolRegistry.InitFailureRecorded | src/tools/core/tool_registry.py:160-170 | A class that fails to construct adds exactly its `name: error` line, and the dicts stay as they were. |
| DecoratorToolRegistry.BuiltToolKept | src/tools/core/tool_registry.py:159-170 | Failures do not stop the loop. A tool built from one entry is still there at the end, unless a later entry builds a same-named tool into the same dict. |
| SystemToolRegistry.ToolRegistry.Empty | src/tools/tool_registry.py:42-44 | The registry starts with no tools and keeps the configuration. |
| SystemToolRegistry.ToolRegistry.New | src/tools/tool_registry.py:35-46 | Construction yields the registry, or exactly the first error a tool constructor raised. The registry holds the registered tools. |
| SystemToolRegistry.ToolRegistry.RegisterTools | src/tools/tool_registry.py:48-89 | The weather tool, then the Wikipedia tool, each when its configuration is truthy. The first failure is re-raised. |
| SystemToolRegistry.ToolRegistry.RegisterTool | src/tools/tool_registry.py:91-101 | The tool is stored under its name, overwriting, and every other name is unchanged. |
| SystemToolRegistry.ToolRegistry.GetTool | src/tools/tool_registry.py:103-117 | The tool is found exactly when its name is registered. |
| SystemToolRegistry.ToolRegistry.GetHiddenTool | src/tools/tool_registry.py:119-133 | Nothing is ever hidden here, so no hidden tool is found. |
| SystemToolRegistry.ToolRegistry.GetToolDefinitions | src/tools/tool_registry.py:135-145 | One definition per tool, in order. The call raises exactly when one definition does. |
| SystemToolRegistry.RegisterAllFails | src/tools/tool_registry.py:52-74 | Registration fails exactly when some configured tool's constructor raises. |
| SystemToolRegistry.RegisterAllContents | src/tools/tool_registry.py:52-74 | After success, every registered name holds its earlier tool or one built from a configured key. |
| SystemToolRegistry.NothingConfigured | src/tools/tool_registry.py:53-66 | With neither tool configured, the registry is empty. |
| SystemToolRegistry.WeatherFailureStops | src/tools/tool_registry.py:56-62 | A weather tool failure is raised before the Wikipedia tool is tried. |
| ToolBuilder.CamelCaseIsPascalCase | src/tools/core/utils/tool_builder.py:54-55 | Capitalizing each `_`-separated piece and joining them agrees with a direct character-by-character PascalCase definition: each character after an underscore is upper case, the others lower case, and the underscores are dropped. |
| ToolBuilder.DiscoveredNameFirst | src/tools/core/utils/tool_builder.py:40-42 | A discovered class under the tool's own name is used before anything else, and it is built from the whole definition. |
| ToolBuilder.CreateToolFromConfig | src/tools/core/utils/tool_builder.py:12-71 | `create_tool_from_config`: the class resolved from the definition, built from it, or the error raised; `ToolBuilder.DiscoveredNameFirst`, `ToolBuilder.BaseToolResolution` and `ToolBuilder.NoClassRefused` state the resolution order. |
| ToolBuilder.BaseToolResolution | src/tools/core/utils/tool_builder.py:45-61 | Otherwise a discovered class under `base_tool` is used. Failing that, the class named by `class` (or the derived name) is imported from the `base_tool` module, and an import error is re-raised. |
| ToolBuilder.NoClassRefused | src/tools/core/utils/tool_builder.py:62-63 | A definition neither discovered by name nor carrying `base_tool` raises the `ValueError` message before anything is imported or built. |
| ToolBuilder.DefinitionsOfAll | src/tools/tool_registry.py:142 | The list comprehension of definitions succeeds exactly when every tool's does, with one definition per tool in order. |
| BaseRestTool.RestTool.constructor | src/tools/base_rest_tool.py:40-93 | The configured tool keeps its settings and starts with no middleware. |
| BaseRestTool.RestTool.AddRequestMiddleware | src/tools/base_rest_tool.py:95-101 | The request middleware is appended last, and the response list is untouched. |
| BaseRestTool.RestTool.AddResponseMiddleware | src/tools/base_rest_tool.py:103-109 | The response middleware is appended last, and the request list is untouched. |
| BaseRestTool.RestTool.ApplyRequestMiddleware | src/tools/base_rest_tool.py:111-115 | The loop applies every request middleware in the order added. |
| BaseRestTool.RestTool.ApplyResponseMiddleware | src/tools/base_rest_tool.py:117-121 | The loop applies every response middleware in the order added. |
| BaseRestTool.RestTool.HandleAttempt | src/tools/base_rest_tool.py:229-279 | One attempt's outcome by status. A 200 response is decoded in the requested format and passed through the response middleware. 400, 401, 403, 404 and other codes each get their error dict. A 5xx or network error is retried unless it is the last attempt, and any other exception gives `Unexpected error`. |
| BaseRestTool.RestTool.MakeRequest | src/tools/base_rest_tool.py:159-279 | The headers and the request dict are built, the request middleware applied and the retry loop run. The outcome is the reference result, which is `None` when no attempt is made. |
| BaseRestTool.ConfigureFails | src/tools/base_rest_tool.py:65-67 | Construction raises exactly when `endpoint_url` is missing or empty, with the `ValueError` message. |
| BaseRestTool.ConfigureParameters | src/tools/base_rest_tool.py:86-93 | A constructed tool always has a truthy parameters schema: its own, or the default empty object schema. Configuring again with it changes nothing. |
| BaseRestTool.TokenManagerPresence | src/tools/base_rest_tool.py:70-80 | A token manager exists exactly when the token URL is set and both named environment variables hold non-empty values. |
| BaseRestTool.ApplySnoc | src/tools/base_rest_tool.py:113-114 | A middleware added last runs last, on the output of all the earlier ones. |
| BaseRestTool.ApplyConcat | src/tools/base_rest_tool.py:113-114 | Two lists of middleware applied in turn act as their concatenation. |
| BaseRestTool.GetUpdate | src/tools/base_rest_tool.py:204-205 | After `update`, a key of the other dict reads its new value, and every other key keeps its old one. |
| BaseRestTool.HeadersContents | src/tools/base_rest_tool.py:197-209 | Each header, in precedence order. `Authorization` carries the bearer token when one is sent. Otherwise a caller's header wins over the defaults: `Content-Type`, `Cache-Control: no-cache`, and `apikey` when an API key variable is configured. |
| BaseRestTool.RestTool.RetryLoop | src/tools/base_rest_tool.py:228-279 | The loop stops at the first attempt that returns and gives its result. It gives `None` when every attempt asked for a retry or no attempt is made. |
| BaseRestTool.RetriesStep | src/tools/base_rest_tool.py:228-279 | An attempt that asks for a retry leaves the loop's result to the later attempts, and an attempt that returns decides it. |
| BaseRestTool.RetriesOutcome | src/tools/base_rest_tool.py:228-279 | No request is made when `max_retries` is not positive. Otherwise the loop always returns the result of some attempt below `max_retries`, and only transient failures on earlier, non-final attempts came before it. |
| BaseRestTool.LastAttemptReturns | src/tools/base_rest_tool.py:262-275 | The last attempt never retries: a server or network error on it becomes its error dict. |
| BaseRestTool.MakeRequestRaises | src/tools/base_rest_tool.py:137-157 | `make_request` raises only when a token is requested, a token manager exists and getting the token fails. Every other problem comes back as an error dict. |
| BaseRestTool.MakeRequestSpec | src/tools/base_rest_tool.py:159-279 | `make_request` as a value: the token failure, or the retry loop on the request built with the headers and middleware; `BaseRestTool.RestTool.MakeRequest` is proved against it and `BaseRestTool.MakeRequestRaises` states when it raises. |
| EsSearch.Search | src/tools/implementations/rag_tool.py:129-145 | The retry loop's outcome is the reference one: the first attempt that did not time out decides. A timeout on the last attempt is re-raised, and no attempt at all leaves no results. |
| EsSearch.SearchOutcome | src/tools/implementations/rag_tool.py:132-145 | No results, and so the `RuntimeError`, exactly when `max_retries` is not positive. A timeout is raised exactly when every attempt timed out. Results come from the first attempt that did not time out. |
| ScoreSort.InsertDescending | src/tools/implementations/rag_tool.py:192 | Inserting into a list sorted by descending score keeps it sorted. |
| ScoreSort.InsertWithScore | src/tools/implementations/rag_tool.py:192 | Among elements of one score, the inserted element comes after those already there, which is what makes the sort stable. |
| ScoreSort.InsertMultiset | src/tools/implementations/rag_tool.py:192 | Inserting adds exactly the element. |
| ScoreSort.WithScoreConcat | src/tools/implementations/rag_tool.py:192 | The elements of a given score in a concatenation are those of each part, in order. |
| ScoreSort.WithScoreNone | src/tools/implementations/rag_tool.py:192 | A list whose scores are all below `k` has no element of score `k`. |
| ScoreSort.SortDescProperties | src/tools/implementations/rag_tool.py:192 | `sorted(key=score, reverse=True)` keeps the length and is descending. For every score, the elements with that score keep their input order, which makes it the stable sort and a permutation. |
| RagTool.HitCollector.constructor | src/tools/implementations/rag_tool.py:165 | Collection starts with no entries for the requested field. |
| RagTool.HitCollector.ExtractFields | src/tools/implementations/rag_tool.py:167-180 | The values for the field come from the field itself, or else from the first dict inside a list-valued field that has it. When they can be iterated, each is appended with the hit's score, in order. Otherwise it reports the `TypeError` and appends nothing. |
| RagTool.HitCollector.ProcessHits | src/tools/implementations/rag_tool.py:182-189 | The traversal succeeds exactly when every hit's values can be iterated, and then appends the reference entries of the hits, in traversal order. |
| RagTool.HitCollector.ProcessHit | src/tools/implementations/rag_tool.py:184-189 | One hit succeeds exactly when the values it reaches can be iterated. It then contributes its inner hits' entries when it has inner hits, and its own fields' entries otherwise, scored 0 when `_score` is `None`. |
| RagTool.HitCollector.ProcessInnerHits | src/tools/implementations/rag_tool.py:186-187 | The inner-hit groups succeed exactly when all of their hits do, and then contribute their entries group by group. |
| RagTool.ExtractAndSortHits | src/tools/implementations/rag_tool.py:154-193 | The `TypeError` is raised exactly when some value reached cannot be iterated. Otherwise the returned values are the reference ones: the collected entries, stably sorted by score, highest first. |
| RagTool.SortedHitValuesOrder | src/tools/implementations/rag_tool.py:191-193 | One value per collected entry. They are ordered by score, highest first, and values of equal score keep the order the hits were traversed in. |
| RagTool.InnerHitsOnly | src/tools/implementations/rag_tool.py:185-187 | A hit with inner hits contributes only what its inner hits do, and none of its own fields. |
| RagTool.CollectedConcat | src/tools/implementations/rag_tool.py:183-189 | The entries of consecutive hits are those of each part in order. |
| RagTool.DirectFieldEntries | src/tools/implementations/rag_tool.py:169-180 | A hit whose field is a list gives one entry per element, scored by `_score`, or 0 when that is `None`. |
| RagTool.ParseOutputShape | src/tools/implementations/rag_tool.py:195-212 | Empty output gives the fixed message. Any other output sits between the header and the note and can be read back. |
| RagTool.ExecuteTypeError | src/tools/implementations/rag_tool.py:148-151 | After a successful search, `execute` raises `TypeError` exactly when a field value cannot be iterated or one of the first `top_k` values is not a string. Otherwise it answers with the parsed content. |
| RagTool.ExecuteAlwaysWraps | src/tools/implementations/rag_tool.py:99-108 | A successful `execute` always wraps the content in the header and note. The content always ends with the instruction, so the empty-output branch is never reached. |
| RagTool.EmptyQueryRefused | src/tools/implementations/rag_tool.py:92-94 | An empty or missing query raises the `ValueError` before anything is searched. |
| RagTool.ParseOutput | src/tools/implementations/rag_tool.py:195-212 | `parse_output`: the fixed message for empty output, and otherwise the output between the header and the note; `RagTool.ParseOutputShape` states that it can be read back. |
| RagTool.Execute | src/tools/implementations/rag_tool.py:64-108 | `execute`: the query check, the search with its retries, and the answer or the exception raised. `RagTool.EmptyQueryRefused`, `RagTool.ExecuteTypeError` and `RagTool.ExecuteAlwaysWraps` state its cases. |
| ImageRagTool.LoadKeysFails | src/tools/implementations/image_rag_tool.py:90-171 | Loading from the environment fails exactly when some `<key>_env` entry looked at holds a non-string. |
| ImageRagTool.LoadKeysContents | src/tools/implementations/image_rag_tool.py:90-171 | When loading succeeds, each key looked at takes its variable's value when that is set and non-empty, and keeps its configured value when it is not. Every other key is unchanged. |
| ImageRagTool.EnvKeysDistinct | src/tools/implementations/image_rag_tool.py:102-169 | The seven keys read from the environment are distinct, so each is read at most once. |
| ImageRagTool.InitDefaults | src/tools/implementations/image_rag_tool.py:56-70 | Without a connector configuration the tool shows one image and five hits, and makes three attempts. |
| ImageRagTool.Init | src/tools/implementations/image_rag_tool.py:27-88 | `__init__`: the settings after the environment is read, or the failure; `ImageRagTool.InitDefaults` and `ImageRagTool.LoadKeysFails` state its outcomes. |
| ImageRagTool.LoadKeysEmpty | src/tools/implementations/image_rag_tool.py:99-171 | An empty configuration loads as empty. |
| ImageRagTool.BucketFromEnv | src/tools/implementations/image_rag_tool.py:152-160 | A bucket variable that is set and non-empty overrides the configured bucket. |
| ImageRagTool.AssembleImageUrl | src/tools/implementations/image_rag_tool.py:455-490 | The step-by-step URL assembly computes the reference URL. |
| ImageRagTool.JoinSlashSeam | src/tools/implementations/image_rag_tool.py:474-487 | Whatever single slashes the two sides carry at a seam, the join has exactly one slash there. |
| ImageRagTool.ImageUrlCases | src/tools/implementations/image_rag_tool.py:459-491 | Absolute URLs are fetched as they are, and so are relative ones when no endpoint is configured. An endpoint without a scheme gets `https://`. |
| ImageRagTool.ImageUrlShape | src/tools/implementations/image_rag_tool.py:469-487 | With at most one slash on either side of each seam, a relative URL becomes endpoint, bucket and object path separated by single slashes. |
| ImageRagTool.ExcludeImagesProperties | src/tools/implementations/image_rag_tool.py:235-248 | Excluding images keeps every other entry of the body and of its `bool` query, and appends the image term to `must_not`. A query that was not a dict holding `bool`, a string or list included, becomes its only `must` clause. |
| ImageRagTool.ExcludeImagesQueryKinds | src/tools/implementations/image_rag_tool.py:234-248 | A string query is refused exactly when `bool` is a substring of it, and a list query exactly when `"bool"` is one of its items; the subscript that follows raises `TypeError`. A number, boolean or `None` query raises `TypeError`. |
| ImageRagTool.HoldsBoolIsContains | src/tools/implementations/image_rag_tool.py:238 | The recursive test used for `"bool" in text` is substring containment. |
| ImageRagTool.WithImageTermProperties | src/tools/implementations/image_rag_tool.py:241-248 | Appending the image term extends the `must_not` list of the `bool` query and keeps every other clause. |
| ImageRagTool.GetFirstValue | src/tools/implementations/image_rag_tool.py:383-394 | The first value of the list, or `""` for an empty one. |
| ImageRagTool.ExtractHits | src/tools/implementations/image_rag_tool.py:270-308 | One record per hit, in order, read from `_source`, from `fields` or from neither. |
| ImageRagTool.HitsData | src/tools/implementations/image_rag_tool.py:270-308 | One record per hit, in order. |
| ImageRagTool.AssembleContent | src/tools/implementations/image_rag_tool.py:320-370 | The loop over the shown hits produces the reference text entries, content objects and image count. |
| ImageRagTool.RenderAllInvariant | src/tools/implementations/image_rag_tool.py:318-370 | The image cap holds. There are no more images than `max_images`, and none when images are not requested. Each image object is followed by its description, and each hit gives one or two text entries. |
| ImageRagTool.RenderHits | src/tools/implementations/image_rag_tool.py:270-381 | Everything after the search gives the reference result: the `TypeError` of the sort when two or more hits come back and one has a null `_score`, otherwise the sort, the first `top_k` rendered, the limit note and the instruction. |
| ImageRagTool.NullScoreRaises | src/tools/implementations/image_rag_tool.py:270-311 | The sort raises `TypeError` exactly when two or more hits came back and one of them has a null `_score`; a lone hit is never compared. |
| ImageRagTool.ExecuteNullScore | src/tools/implementations/image_rag_tool.py:173-311 | Once the search has returned its hits, `execute` raises the sort's `TypeError` exactly when there are two or more of them and one has a null `_score`, and succeeds otherwise. |
| ImageRagTool.Retrieve | src/tools/implementations/image_rag_tool.py:211-381 | `_retrieve_content`: the query body with or without images, the search with its retries, then the sort and the rendered hits; `ImageRagTool.ExcludedImagesNoObjects`, `ImageRagTool.RenderHits` and `ImageRagTool.ExecuteNullScore` state what it gives. |
| ImageRagTool.ParseOutputShape | src/tools/implementations/image_rag_tool.py:537-553 | Empty output gives the fixed message. Any other output follows the header and can be read back. |
| ImageRagTool.ParseOutput | src/tools/implementations/image_rag_tool.py:537-553 | `parse_output`: the fixed message for empty output, and otherwise the output after the header; `ImageRagTool.ParseOutputShape` states that it can be read back. |
| ImageRagTool.EmptyQueryRefused | src/tools/implementations/image_rag_tool.py:188-190 | An empty or missing query raises the `ValueError` before anything is searched. |
| ImageRagTool.Execute | src/tools/implementations/image_rag_tool.py:173-209 | `execute`: the query check, the `include_images` flag, the retrieval and the response with its content objects; `ImageRagTool.IncludeImagesDefault` and `ImageRagTool.ExecuteAlwaysWraps` state its cases. |
| ImageRagTool.IncludeImagesDefault | src/tools/implementations/image_rag_tool.py:192 | A missing `include_images` acts as `True`. An explicit `None` acts as `False`, since the later tests read it as falsy. |
| ImageRagTool.ExcludedImagesNoObjects | src/tools/implementations/image_rag_tool.py:205-248 | Without images the search gets the filtered body, and the response carries no content objects. |
| ImageRagTool.ExecuteAlwaysWraps | src/tools/implementations/image_rag_tool.py:197-209 | A successful answer always carries the header and ends with the instruction, so the empty-output branch is never reached. |
| ImageRagTool.ShownHitsTopScored | src/tools/implementations/image_rag_tool.py:311-320 | The hits are stably sorted by score before `top_k` are shown. Every shown hit scores at least as high as every hit left out. The key is the score itself whenever the sort does not raise; only a lone hit can have a null score then. |
| ImageRagTool.NoteWithoutHiddenImage | src/tools/implementations/image_rag_tool.py:373-376 | The limit note checks positions, not hidden images. With `max_images` 1, a text hit followed by a fetched image hit shows the image and still says more images were found. |
| WeatherTool.LocationParts | src/tools/implementations/weather_tool.py:92-96 | The city, then the state code only when given and the country is `US`, then the country code when given. |
| WeatherTool.LocationShape | src/tools/implementations/weather_tool.py:92-98 | The location is those parts joined by commas. |
| WeatherTool.ParseOutputCases | src/tools/implementations/weather_tool.py:131-185 | Anything but a dict comes back as its text. A dict with `error`, or without `cod` 200, gives an `Error:` line with the error, the message or `Unknown error`. A weather answer whose fields can be picked out gives the formatted document followed by the notes. |
| WeatherTool.ParseOutput | src/tools/implementations/weather_tool.py:131-189 | `parse_output`: the error lines, the formatted weather document with its notes, or the parse-failure message; `WeatherTool.ParseOutputCases` and `WeatherTool.WellFormedAnswer` state its cases. |
| WeatherTool.WeatherInfoDefined | src/tools/implementations/weather_tool.py:157-180 | The fields can be picked out exactly when every section is absent or a dict, and the weather entry is absent or a non-empty list starting with a dict. Any other shape raises inside the `try`. |
| WeatherTool.WellFormedAnswer | src/tools/implementations/weather_tool.py:145-189 | A successful, well-shaped answer is a document followed by the notes, never the parse-failure message. |
| WeatherTool.CityCheckedFirst | src/tools/implementations/weather_tool.py:77-79 | A missing or empty city is refused before the API key is looked up. |
| WeatherTool.Execute | src/tools/implementations/weather_tool.py:56-129 | `execute`: the city check, the API key lookup, the request and the parsed answer; `WeatherTool.CityCheckedFirst`, `WeatherTool.ApiKeyRequired` and `WeatherTool.QueryDefaults` state its steps. |
| WeatherTool.ApiKeyRequired | src/tools/implementations/weather_tool.py:82-84 | With a city but no API key in the environment, the tool names the variable and sends nothing. |
| WeatherTool.QueryDefaults | src/tools/implementations/weather_tool.py:88-106 | The request carries the location as `q` and the key as `appid`, with `metric` units and `en` unless others are asked for. |
| WikipediaTool.Utf8 | src/tools/implementations/wikipedia_tool.py:66 | A character's UTF-8 encoding, as `quote` sees it, is one to four bytes. |
| WikipediaTool.Escaped | src/tools/implementations/wikipedia_tool.py:66 | Escaping gives three characters per byte, all `%` or upper-case hexadecimal digits. |
| WikipediaTool.QuoteLength | src/tools/implementations/wikipedia_tool.py:66 | Quoting never shortens the text. It keeps the length exactly when every character is safe, and then the text is unchanged. |
| WikipediaTool.Quote | src/tools/implementations/wikipedia_tool.py:66 | `quote`: safe characters as they are and every other one as its `%XX` UTF-8 bytes; `WikipediaTool.QuoteLength` and `WikipediaTool.QuoteAlphabet` state its length and alphabet. |
| WikipediaTool.QuoteAlphabet | src/tools/implementations/wikipedia_tool.py:66 | The quoted text holds only safe characters, `%` and upper-case hexadecimal digits. |
| WikipediaTool.FormatLiteral | src/tools/implementations/wikipedia_tool.py:67 | A template without braces is kept as it is. |
| WikipediaTool.FormatFields | src/tools/implementations/wikipedia_tool.py:67 | `{lang}` and `{encoded_query}` are replaced by their values, and the rest of the template is formatted in turn. |
| WikipediaTool.ParseOutputCases | src/tools/implementations/wikipedia_tool.py:90-123 | Anything but a dict comes back as its text. The not-found type gives the fixed error, and a `detail` entry gives an `Error:` line. Otherwise a summary whose URL can be picked out gives the formatted document and the link to the page, and any other shape gives the parse-failure message. |
| WikipediaTool.ParseOutput | src/tools/implementations/wikipedia_tool.py:90-123 | `parse_output`: the error texts, the summary with its link, or the parse-failure message; `WikipediaTool.ParseOutputCases` and `WikipediaTool.WellFormedSummary` state its cases. |
| WikipediaTool.SummaryPresent | src/tools/implementations/wikipedia_tool.py:111-115 | The summary exists exactly when `content_urls` is absent or a dict whose `desktop` entry is absent or a dict. |
| WikipediaTool.SummaryShape | src/tools/implementations/wikipedia_tool.py:111-115 | The summary holds the title, the extract and the page URL, in that order. |
| WikipediaTool.WellFormedSummary | src/tools/implementations/wikipedia_tool.py:111-119 | A summary that is not an error always ends with the link to the page. |
| WikipediaTool.QueryChecked | src/tools/implementations/wikipedia_tool.py:61-63 | The query is refused exactly when it is missing or empty, and then nothing is sent. |
| WikipediaTool.Execute | src/tools/implementations/wikipedia_tool.py:48-88 | `execute`: the query check, the summary request and the parsed answer; `WikipediaTool.QueryChecked` and `WikipediaTool.RequestShape` state its steps. |
| WikipediaTool.RequestShape | src/tools/implementations/wikipedia_tool.py:65-82 | The request goes to the endpoint filled with the language (`en` by default) and the quoted query. It never asks for a token, so it never raises. |
| ChatCompletionsApi.LoadAuth | src/api/routes/chat_completions_api.py:39-46 | Loading the module succeeds exactly when `FLEXO_API_KEY` is set and non-empty, and keeps that key. The check is on unless `ENABLE_API_KEY` is `false` in any letter case, and an unset variable leaves it on. |
| ChatCompletionsApi.GetApiKeyDecision | src/api/routes/chat_completions_api.py:51-71 | With the check on, a request passes exactly when its key is the configured one. With it off, every request passes. A passing request keeps its key, and a refused one gets 403 `Unauthorized`. |
| ChatCompletionsApi.ConvertMessageContent | src/api/routes/chat_completions_api.py:95-116 | One message out per message in, in order, each converted as the reference conversion says. |
| ChatCompletionsApi.ConvertedShape | src/api/routes/chat_completions_api.py:106-115 | After conversion no user message holds a plain string: a string becomes one text part with its stripped text. Every other message passes through, and converting again changes nothing. |
| ChatCompletionsApi.NonSensitive | src/api/routes/chat_completions_api.py:119-132 | The filtered configuration holds exactly the entries whose key does not contain `key`, `secret` or `password` in any case, and no more entries than the original. |
| ChatCompletionsApi.NonSensitiveGet | src/api/routes/chat_completions_api.py:129-132 | A sensitive key finds nothing in the filtered configuration, and any other key finds what the full configuration holds. |
| ChatCompletionsApi.SseGenerator | src/api/routes/chat_completions_api.py:176-194 | The generator loop sends exactly the reference chunks: empty ones are skipped, each is relabelled, and it stops after the first finishing chunk. |
| ChatCompletionsApi.SentLabelled | src/api/routes/chat_completions_api.py:180-191 | Every chunk sent is a `thread.message.delta`, carries the thread when the header names one, and only the last one sent may finish the answer. |
| ChatCompletionsApi.SentAppend | src/api/routes/chat_completions_api.py:179-191 | A stream read in two parts sends the first part's chunks and then the second's, as long as nothing in the first part finishes the answer. |
| ChatCompletionsApi.SentStopsAtFinish | src/api/routes/chat_completions_api.py:188-191 | A finishing chunk ends what is sent: nothing after it reaches the client. |
| WxAssistant.ToDict | src/data_models/wx_assistant.py:22-23 | The dict has exactly `u`, `a` and `n`, in that order, each the field's value or `None`. |
| WxAssistant.ConvertWxToConversation | src/data_models/wx_assistant.py:38-72 | The loop's messages are the reference conversation of the turns. |
| WxAssistant.ConversationAppend | src/data_models/wx_assistant.py:58-70 | Converting consecutive turns converts each part in order. |
| WxAssistant.ConversationLength | src/data_models/wx_assistant.py:58-70 | One message per non-empty `u` and one per non-empty `a`. The flag `n` adds nothing. |
| WxAssistant.ConversationMessages | src/data_models/wx_assistant.py:58-68 | Every message is a user message holding one text part with some turn's `u`, or an assistant message holding some turn's `a`. |
| BasePromptBuilder.Names | src/prompt_builders/openai/openai_prompt_builder.py:79 | One tool name per tool, in order. |
| BasePromptBuilder.Sections | src/prompt_builders/base_prompt_builder.py:56-61 | One section per tool, in order. |
| BasePromptBuilder.BuildSystemContent | src/prompt_builders/base_prompt_builder.py:41-63 | The loop gives the reference system content: the header, a blank line, the instructions, a blank line, then the sections joined by newlines. A tool without parameters raises `AttributeError`. |
| BasePromptBuilder.SectionStart | src/prompt_builders/base_prompt_builder.py:57-60 | Each section starts by naming its tool: `Use the function '<name>' to: `. |
| BasePromptBuilder.SystemContentShape | src/prompt_builders/base_prompt_builder.py:55-63 | The system content is the header, the instructions and one section per tool in order, separated as the code separates them. |
| BasePromptBuilder.Entries | src/prompt_builders/base_prompt_builder.py:81-85 | One entry per message, in order. With roles it is `<role>: <content>`. Without roles it is the content itself, and nothing when that content is not a string. |
| BasePromptBuilder.FormatConversationHistory | src/prompt_builders/base_prompt_builder.py:66-86 | The loop gives the reference history: the entries joined by blank lines, or the `TypeError` when an entry is not a string. |
| BasePromptBuilder.HistoryTypeError | src/prompt_builders/base_prompt_builder.py:80-86 | The join raises `TypeError` exactly when roles are left out and some message's content is not a string. |
| BasePromptBuilder.HistoryShape | src/prompt_builders/base_prompt_builder.py:80-86 | No messages give the empty text, and one message with a string entry gives that entry alone. Each further string entry adds a blank line and the entry. |
| BasePromptBuilder.CopyWithSystem | src/prompt_builders/openai/openai_prompt_builder.py:87-96 | A new array is returned and the given one is untouched. Its leading system message is replaced, or a new system message is inserted first. |
| BasePromptBuilder.WithSystemShape | src/prompt_builders/openai/openai_prompt_builder.py:87-96 | With a leading system message, the length is kept and only the first message changes. Otherwise the new message comes first, and every other message follows in order. |
| BasePromptBuilder.ComputeToolInfo | src/prompt_builders/openai/openai_prompt_builder.py:79-86 | The tool information is the system content under the header filled with the comma-joined names and the date. |
| OpenAiPromptBuilder.BuildChat | src/prompt_builders/openai/openai_prompt_builder.py:51-99 | No tools (or `None`) return the same history. An error building the tool information is raised. Otherwise a fresh list carries the tool information. |
| OpenAiPromptBuilder.ChatShape | src/prompt_builders/openai/openai_prompt_builder.py:89-96 | A leading system message keeps the length and becomes `## tools:`, its text and the tool information. Otherwise the tool information is a new first message, and the other messages are unchanged. |
| OpenAiPromptBuilder.BuildText | src/prompt_builders/openai/openai_prompt_builder.py:101-112 | `build_text` always raises. |
| MistralAiPromptBuilder.BuildChat | src/prompt_builders/mistral_ai/mistral_ai_prompt_builder.py:48-100 | No tools return the same history. An error building the tool information is raised. Otherwise a fresh list carries the wrapped tool information. |
| MistralAiPromptBuilder.ChatShape | src/prompt_builders/mistral_ai/mistral_ai_prompt_builder.py:90-97 | A leading system message keeps the length and gets the wrapped information after a blank line. Otherwise the wrapped information is a new first message, and the other messages are unchanged. |
| MistralAiPromptBuilder.WrappedShape | src/prompt_builders/mistral_ai/mistral_ai_prompt_builder.py:88 | The wrapped information is the `[AVAILABLE_TOOLS]` line, the information unchanged, and the closing tag on its own line. |
| MistralAiPromptBuilder.BuildText | src/prompt_builders/mistral_ai/mistral_ai_prompt_builder.py:102-115 | `build_text` always raises. |
| GranitePromptBuilder.BuildChat | src/prompt_builders/watsonx/granite/granite_prompt_builder.py:37-81 | No tools return the same history. An error building the tool information is raised. Otherwise a fresh list carries the tool information. |
| GranitePromptBuilder.ChatShape | src/prompt_builders/watsonx/granite/granite_prompt_builder.py:70-79 | A leading system message keeps the length and gets the tools block, between Granite's role markers, appended. Otherwise the tool information is a new first message, and the other messages are unchanged. |
| GranitePromptBuilder.TextsOf | src/prompt_builders/watsonx/granite/granite_prompt_builder.py:129-132 | The texts collected are exactly those of the text parts, and never more than the parts. |
| GranitePromptBuilder.PreprocessMessage | src/prompt_builders/watsonx/granite/granite_prompt_builder.py:121-136 | The loop flattens a user message's list content to its space-joined texts, as the reference says. |
| GranitePromptBuilder.TextsOfAppend | src/prompt_builders/watsonx/granite/granite_prompt_builder.py:129-132 | The texts of two runs of parts come in the parts' order. |
| GranitePromptBuilder.PreprocessedShape | src/prompt_builders/watsonx/granite/granite_prompt_builder.py:121-136 | Only user messages with a list of parts change, and they become one string. A list with no text part becomes the empty string. |
| GranitePromptBuilder.NoTexts | src/prompt_builders/watsonx/granite/granite_prompt_builder.py:129-134 | Parts with no text give no texts. |
| LlamaPromptBuilder.BuildChat | src/prompt_builders/watsonx/llama/llama_prompt_builder.py:54-89 | No tools return the same history. An error building the tool information is raised. Otherwise a fresh list carries the tool information. |
| LlamaPromptBuilder.ChatShape | src/prompt_builders/watsonx/llama/llama_prompt_builder.py:82-87 | A leading system message keeps the length and gets the tool information before its text. Otherwise the tool information is a new first message, and the other messages are unchanged. |
| LlamaPromptBuilder.PreprocessMessage | src/prompt_builders/watsonx/llama/llama_prompt_builder.py:131-146 | Llama's preprocessing is Granite's: user list content is flattened to its space-joined texts, and every other message is unchanged. |
| XaiPromptBuilder.XaiParamInfo | src/prompt_builders/xai/xai_prompt_builder.py:117-130 | The parameter loop as written. It gives the heading and one line per property, or raises `TypeError` when the schema has properties but `required` is `None`. |
| XaiPromptBuilder.RequiredUnsetRaises | src/prompt_builders/xai/xai_prompt_builder.py:123-127 | As written, a schema with a parameter and no `required` list raises `TypeError`. In every other case the loop gives the intended text. |
| XaiPromptBuilder.ParamInfoMarks | src/prompt_builders/xai/xai_prompt_builder.py:120-130 | The intended text is the heading, then each property's line in order. A line is marked `(required)` exactly when the `required` list names the parameter, and `(optional)` otherwise, so an unset list marks every parameter optional. |
| XaiPromptBuilder.Descriptions | src/prompt_builders/xai/xai_prompt_builder.py:113-132 | One description per tool, in order. |
| XaiPromptBuilder.BuildSystemContent | src/prompt_builders/xai/xai_prompt_builder.py:100-135 | The loop gives the header, the tool descriptions separated by blank lines, and the instructions. The descriptions use the corrected parameter text of the Findings table; on that table's input the source raises `TypeError` instead. |
| XaiPromptBuilder.MissingDescription | src/prompt_builders/xai/xai_prompt_builder.py:116 | A tool without a description is described as having none available. |
| XaiPromptBuilder.BuildChat | src/prompt_builders/xai/xai_prompt_builder.py:51-98 | No tools return the same array. Otherwise a fresh array carries the tool information under `## Tools Available:`, built on the corrected parameter text of the Findings table; on that table's input the source raises `TypeError` instead. |
| XaiPromptBuilder.ChatShape | src/prompt_builders/xai/xai_prompt_builder.py:88-95 | A leading system message keeps the length and gets the heading and information after a blank line. Otherwise they form a new first message, and the other messages are unchanged. |
| XaiPromptBuilder.BuildText | src/prompt_builders/xai/xai_prompt_builder.py:137-148 | `build_text` always raises. |
| WatsonxMistralPromptBuilder.ToolJsons | src/prompt_builders/watsonx/mistral/mistral_prompt_builder.py:137-146 | One `{"type": "function", ...}` entry per tool, in order. |
| WatsonxMistralPromptBuilder.FormatToolDefinitions | src/prompt_builders/watsonx/mistral/mistral_prompt_builder.py:133-156 | The loop gives the reference tool information, or the `AttributeError` for a tool without parameters. |
| WatsonxMistralPromptBuilder.ToolInfoShape | src/prompt_builders/watsonx/mistral/mistral_prompt_builder.py:133-156 | The information exists exactly when every tool has parameters. It then opens with `[AVAILABLE_TOOLS]` and the header, holds one JSON entry per tool, and closes with `[/AVAILABLE_TOOLS]`. |
| WatsonxMistralPromptBuilder.LastAssistant | src/prompt_builders/watsonx/mistral/mistral_prompt_builder.py:82-85 | The index found is an assistant message with none after it, and there is none when the history has no assistant message. |
| WatsonxMistralPromptBuilder.LastAssistantUnique | src/prompt_builders/watsonx/mistral/mistral_prompt_builder.py:82-85 | An assistant message with no assistant message after it is the one the loop finds. |
| WatsonxMistralPromptBuilder.CopyHistory | src/prompt_builders/watsonx/mistral/mistral_prompt_builder.py:80 | The copy is a fresh array holding the history unchanged. |
| WatsonxMistralPromptBuilder.BuildChat | src/prompt_builders/watsonx/mistral/mistral_prompt_builder.py:72-99 | No tools return the same history. An error building the tool information is raised. Otherwise a fresh list carries it. |
| WatsonxMistralPromptBuilder.ChatShape | src/prompt_builders/watsonx/mistral/mistral_prompt_builder.py:82-97 | With an assistant message, the length is kept. The last assistant message becomes its text (or `""`), a newline and the information, dropping its tool calls, and every other message is unchanged. Without one, the information is appended as a new assistant message. |
| WatsonxMistralPromptBuilder.ChunkRoundTrip | src/prompt_builders/watsonx/mistral/mistral_prompt_builder.py:199-210 | A part converts exactly when it is text or an image without a `detail`. An image with a non-empty `detail` raises the `ValidationError` of `ImageURL(url=<dict>, ...)`. A converted part can be recovered from its chunk, text to text and image to image. |
| WatsonxMistralPromptBuilder.UserChunks | src/prompt_builders/watsonx/mistral/mistral_prompt_builder.py:181-214 | A string gives one text chunk. A list converts exactly when every part does, giving one chunk per part in order; otherwise it raises the `ValidationError`. |
| WatsonxMistralPromptBuilder.UserChunksRoundTrip | src/prompt_builders/watsonx/mistral/mistral_prompt_builder.py:181-214 | The parts of a converted list can be read back from its chunks, one per chunk, in order. |
| WatsonxMistralPromptBuilder.ConvertUserContent | src/prompt_builders/watsonx/mistral/mistral_prompt_builder.py:181-214 | The loop gives the reference chunks, or stops at the first image with a `detail` and raises the `ValidationError`. |
| WatsonxMistralPromptBuilder.CreateToolCallEncodes | src/prompt_builders/watsonx/mistral/mistral_prompt_builder.py:227-244 | A tool call keeps its name, and its arguments, always a dict, are JSON-encoded. A string would pass through unchanged. |
| WatsonxMistralPromptBuilder.CreateToolCall | src/prompt_builders/watsonx/mistral/mistral_prompt_builder.py:227-243 | `_create_tool_call`; `WatsonxMistralPromptBuilder.CreateToolCallEncodes` states that the name is kept and the arguments JSON-encoded. |
| WatsonxMistralPromptBuilder.ProcessConversationHistory | src/prompt_builders/watsonx/mistral/mistral_prompt_builder.py:158-179 | The history converts exactly when every message does, giving one converted message per message in order; otherwise it raises the `ValidationError`. |
| WatsonxMistralPromptBuilder.ProcessedShape | src/prompt_builders/watsonx/mistral/mistral_prompt_builder.py:161-214 | A message fails to convert exactly when it is a user message with an image part carrying a non-empty `detail`. Otherwise each message keeps its role. A user message gets one chunk per part, or one for a string. An assistant message with tool calls drops its content and keeps the calls' names in order, and one without keeps its content. A tool message keeps its content and call id. |
| PyReplace.FindSpec | src/tools/parsers/base_tool_call_parser.py:77-78 | The search for a clean token reports an occurrence, none starts earlier, and no report means no occurrence anywhere. |
| PyReplace.SplitJoin | src/tools/parsers/base_tool_call_parser.py:77-78 | Splitting at a token loses nothing: joining the pieces with it gives back the text, and no piece contains it. |
| PyReplace.RemoveAllIsSplitConcat | src/tools/parsers/base_tool_call_parser.py:77-78 | `s.replace(token, "")` equals joining the pieces of `s.split(token)`: exactly the occurrences of the token go. |

## Left out

- Reading YAML files (patterns, agent and prompt-builder configuration, `_load_config`): the content read is a parameter of the constructors and builders.
- Logging, and the registration summary the registries print: no effect on the state the model tracks.
- The network and HTTP transports (aiohttp sessions, the watsonx SSE request, the search clients): every answer the network gives is a parameter of the operation that awaits it.
- The per-vendor SSE chunk mappers, ids and `time.time()` timestamps: chunks are reduced to the text, stop reason or status they carry.
- Concurrency: `asyncio.gather` is an in-order list of outcomes; locks and awaiting are not modelled.
- Rate limiting and the retry back-off sleeps of the REST base: they only delay.
- The OAuth token managers, IBM COS authentication and base64 image encoding: their results are parameters.
- `json.loads`, `json5.loads`, `json.dumps` and `model_dump_json`: parameters. `str()` of a list or dict and float formatting are not modelled (list content written into a role-labelled history line reads as empty), and numbers are integers.
- Case mapping (`str.lower`, `str.upper`, `capitalize`): only ASCII letters change case. `str.isspace` and `strip` use Python's full Unicode whitespace set.
- WikipediaTool.FormatFields: only the `{lang}` and `{encoded_query}` fields are replaced. Other fields, escaped braces and format specs in a configured endpoint are kept as text where Python would fail or convert them.
- An explicit `None` keyword argument (weather `units`/`lang`, Wikipedia `lang`): only a missing argument takes the default. The same holds for an explicit `None` in a configuration entry read with `.get(key, default)` (ToolBuilder.ToolDef, ConfigToolRegistry, BaseRestTool, and the `clean_tokens` entry of BaseToolCallParser.CleanText): the model reads it as absent and takes the default, where Python keeps the `None` (for `clean_tokens`, the `for` loop then raises `TypeError`).
- The Jinja templates, the Mistral tokenizer and the `build_text` of the Granite, Llama and watsonx Mistral builders: external renderers.
- `_process_tool_definitions` and `_format_tool_for_template` of the watsonx prompt builders: they feed only the templates.
- WatsonxMistralPromptBuilder.ChunkOf: for an image without a `detail`, mistral-common's own validation of the `image_url` dict (its `url` entry must be a string) is not modelled; the chunk carries the dict as given.
- The unreachable branches of the watsonx Mistral user-content conversion (a bare string item, a missing or unknown part type): the message types admit only text and image parts.
- `ToolRegistry._discover_tools` and tool discovery: the table of discovered classes is a parameter.
- The `/models` route beyond the configuration filter, and the route's wiring (`StreamingResponse`, the 500 `HTTPException`).
- AhoCorasick.Automaton.SearchChunk: its result is stated for pattern sets without an empty pattern; the source reports an empty pattern at some positions only.
- BufferedProcessorStandard.Processor.constructor: requires a non-empty pattern set (the source raises from `max()`), no empty pattern, and distinct names (a dict has them).
- BufferedProcessorNormalized.NormalizedProcessor.constructor: requires a non-empty pattern set, no pattern that normalises to empty, and distinct names.
- AhoCorasickPattern.LegacyProcessor.constructor: requires a non-empty pattern set, no empty pattern, and distinct names.
- ManualDetectionStrategy.ManualStrategy.constructor: requires what the normalised processor it builds requires.
- WikipediaTool.WellFormedSummary: does not state that the summary differs from the parse-failure message, a comparison of long literals the verifier does not settle cheaply.
- The `RecursionError` on circular input to the JSON formatter: values are finite trees.
- ImageRagTool.Init: refuses a `max_images`, `top_k` or `max_retries` that is not an integer, which the source stores as given and fails on only later, when the value is used.

## Findings

| source | as written | input that shows it | evidently intended | confidence | as-written member | corrected member |
|---|---|---|---|---|---|---|
| src/prompt_builders/xai/xai_prompt_builder.py:123-127 | `parameters.get("required", [])` is `None` when the schema has no `required` list, because `model_dump()` keeps the unset field; `param_name in required` then raises `TypeError` | one tool whose parameters have one property and no `required` list | an unset list marks every parameter `(optional)` | not executed | XaiPromptBuilder.RequiredUnsetRaises | XaiPromptBuilder.ParamInfoMarks |
