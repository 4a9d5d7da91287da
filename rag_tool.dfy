/**
 * The retrieval tool (`RAGTool` in `tools/implementations/rag_tool.py`): it runs the
 * Elasticsearch query, collects one entry per value of the requested field from the
 * hits (descending into inner hits), orders the entries by score, highest first, joins
 * the first `top_k` of them, and wraps the result in a header and a note.
 *
 * The query builder and the search client are parameters; the search response is
 * reduced to its hits.
 */
module RagTool {
  import opened Wrappers
  import opened JsonValue
  import opened PyStr
  import opened ScoreSort
  import opened EsSearch

  /** A search hit: its `_score`, whether it has `inner_hits` and their groups, and its
      `fields`. */
  datatype Hit = Hit(score: Option<int>, hasInnerHits: bool, innerHits: seq<InnerHits>, fields: seq<(string, Json)>)

  /** One entry of `inner_hits`: its name and its `hits.hits` list. */
  datatype InnerHits = InnerHits(name: string, hits: seq<Hit>)

  /** The message of the `TypeError` a non-iterable field value or a non-string value in
      `"\n\n".join` raises. */
  const TypeErrorMessage := "TypeError"

  /** Whether `for value in v` can iterate `v`: a list, a string or a dict. */
  predicate Iterable(v: Json)
  {
    v.JArr? || v.JStr? || v.JObj?
  }

  /** `for value in v`: the items of a list, the characters of a string, the keys of a
      dict. Other values raise `TypeError`, which `HitsIterable` decides before the
      entries are looked at; they give nothing here. */
  function Iterate(v: Json): seq<Json>
  {
    match v
    case JArr(items) => items
    case JStr(s) => seq(|s|, i requires 0 <= i < |s| => JStr([s[i]]))
    case JObj(fields) => seq(|fields|, i requires 0 <= i < |fields| => JStr(fields[i].0))
    case _ => []
  }

  /** The first dict in `values` that has the field, and the field's value there. */
  function FirstWith(values: seq<Json>, field: string): Option<Json>
  {
    if values == [] then None
    else if values[0].JObj? && field in Keys(values[0].fields) then Get(values[0].fields, field)
    else FirstWith(values[1..], field)
  }

  /** Without a direct field: the value found in the last `fields` entry holding a list
      with a dict that has the field; an empty list when there is none. */
  function NestedValue(fields: seq<(string, Json)>, field: string): Json
  {
    if fields == [] then JArr([])
    else
      var last := fields[|fields| - 1].1;
      var found := if last.JArr? then FirstWith(last.items, field) else None;
      if found.Some? then found.value else NestedValue(fields[..|fields| - 1], field)
  }

  /** `extracted_values` of `extract_fields`. */
  function Extracted(fields: seq<(string, Json)>, field: string): Json
  {
    if field in Keys(fields) then Get(fields, field).value else NestedValue(fields, field)
  }

  /** A `None` score counts as 0. */
  function ScoreOf(score: Option<int>): int
  {
    if score.Some? then score.value else 0
  }

  /** One `{field: value, "_score": score}` entry per value. */
  function Entries(values: seq<Json>, score: int): (r: seq<(Json, int)>)
    ensures |r| == |values|
    ensures forall i :: 0 <= i < |r| ==> r[i] == (values[i], score)
  {
    seq(|values|, i requires 0 <= i < |values| => (values[i], score))
  }

  /** What `process_hits(hits)` appends to the result. */
  function Collected(hits: seq<Hit>, field: string): seq<(Json, int)>
    decreases hits
  {
    if hits == [] then [] else Collected(hits[..|hits| - 1], field) + HitEntries(hits[|hits| - 1], field)
  }

  /** A hit with inner hits contributes only through them; any other hit contributes its
      own field values at its score. */
  function HitEntries(hit: Hit, field: string): seq<(Json, int)>
    decreases hit
  {
    if hit.hasInnerHits then InnerCollected(hit.innerHits, field)
    else Entries(Iterate(Extracted(hit.fields, field)), ScoreOf(hit.score))
  }

  function InnerCollected(groups: seq<InnerHits>, field: string): seq<(Json, int)>
    decreases groups
  {
    if groups == [] then []
    else InnerCollected(groups[..|groups| - 1], field) + Collected(groups[|groups| - 1].hits, field)
  }

  /** `process_hits(hits)` raises no `TypeError`: every field value it iterates over is
      iterable. */
  predicate HitsIterable(hits: seq<Hit>, field: string)
    decreases hits
  {
    forall i :: 0 <= i < |hits| ==> HitIterable(hits[i], field)
  }

  predicate HitIterable(hit: Hit, field: string)
    decreases hit
  {
    if hit.hasInnerHits then InnerIterable(hit.innerHits, field) else Iterable(Extracted(hit.fields, field))
  }

  predicate InnerIterable(groups: seq<InnerHits>, field: string)
    decreases groups
  {
    forall g :: 0 <= g < |groups| ==> HitsIterable(groups[g].hits, field)
  }

  function EntryScore(e: (Json, int)): int
  {
    e.1
  }

  /** `extract_and_sort_hits(response, field_name)`. */
  function SortedHitValues(hits: seq<Hit>, field: string): seq<Json>
  {
    EntryValues(SortDesc(Collected(hits, field), EntryScore))
  }

  /** `[entry[field_name] for entry in entries]`. */
  function EntryValues(entries: seq<(Json, int)>): (r: seq<Json>)
    ensures |r| == |entries| && forall i :: 0 <= i < |r| ==> r[i] == entries[i].0
  {
    seq(|entries|, i requires 0 <= i < |entries| => entries[i].0)
  }

  /** The state of the nested helpers of `extract_and_sort_hits`: the `result` list they
      append to. */
  class HitCollector {
    const fieldName: string
    var result: seq<(Json, int)>

    constructor(fieldName: string)
      ensures this.fieldName == fieldName && result == []
    {
      this.fieldName := fieldName;
      result := [];
    }

    /** `extract_fields(hit, score)`: `ok` is false when the value found is not iterable,
        which raises `TypeError` before anything is appended. */
    method ExtractFields(hit: Hit, score: int) returns (ok: bool)
      modifies this
      ensures ok == Iterable(Extracted(hit.fields, fieldName))
      ensures result == old(result) + (if ok then Entries(Iterate(Extracted(hit.fields, fieldName)), score) else [])
    {
      var extracted: Json := JArr([]);
      if fieldName in Keys(hit.fields) {
        extracted := Get(hit.fields, fieldName).value;
      } else {
        var i := 0;
        while i < |hit.fields|
          invariant 0 <= i <= |hit.fields|
          invariant extracted == NestedValue(hit.fields[..i], fieldName)
        {
          assert hit.fields[..i + 1][..i] == hit.fields[..i];
          var values := hit.fields[i].1;
          if values.JArr? {
            var j := 0;
            while j < |values.items|
              invariant 0 <= j <= |values.items|
              invariant FirstWith(values.items, fieldName) == FirstWith(values.items[j..], fieldName)
              invariant extracted == NestedValue(hit.fields[..i], fieldName)
            {
              var value := values.items[j];
              assert values.items[j..][1..] == values.items[j + 1..];
              if value.JObj? && fieldName in Keys(value.fields) {
                extracted := Get(value.fields, fieldName).value;
                break;
              }
              j := j + 1;
            }
          }
          i := i + 1;
        }
        assert hit.fields[..i] == hit.fields;
      }
      if !Iterable(extracted) {
        return false;
      }
      ok := true;
      var values := Iterate(extracted);
      var k := 0;
      ghost var start := result;
      while k < |values|
        invariant 0 <= k <= |values|
        invariant result == start + Entries(values[..k], score)
      {
        result := result + [(values[k], score)];
        k := k + 1;
      }
      assert values[..k] == values;
    }

    /** `process_hits(hits)`: `ok` is false when a `TypeError` ends the traversal. */
    method ProcessHits(hits: seq<Hit>) returns (ok: bool)
      modifies this
      ensures ok == HitsIterable(hits, fieldName)
      ensures ok ==> result == old(result) + Collected(hits, fieldName)
      decreases hits
    {
      var i := 0;
      while i < |hits|
        invariant 0 <= i <= |hits|
        invariant forall j :: 0 <= j < i ==> HitIterable(hits[j], fieldName)
        invariant result == old(result) + Collected(hits[..i], fieldName)
      {
        assert hits[..i + 1][..i] == hits[..i];
        ok := ProcessHit(hits[i]);
        if !ok {
          return;
        }
        i := i + 1;
      }
      assert hits[..i] == hits;
      ok := true;
    }

    /** The body of `process_hits`'s loop for one hit. */
    method ProcessHit(hit: Hit) returns (ok: bool)
      modifies this
      ensures ok == HitIterable(hit, fieldName)
      ensures ok ==> result == old(result) + HitEntries(hit, fieldName)
      decreases hit
    {
      if hit.hasInnerHits {
        ok := ProcessInnerHits(hit.innerHits);
      } else {
        ok := ExtractFields(hit, ScoreOf(hit.score));
      }
    }

    /** The loop over a hit's `inner_hits`. */
    method ProcessInnerHits(groups: seq<InnerHits>) returns (ok: bool)
      modifies this
      ensures ok == InnerIterable(groups, fieldName)
      ensures ok ==> result == old(result) + InnerCollected(groups, fieldName)
      decreases groups
    {
      var g := 0;
      while g < |groups|
        invariant 0 <= g <= |groups|
        invariant forall j :: 0 <= j < g ==> HitsIterable(groups[j].hits, fieldName)
        invariant result == old(result) + InnerCollected(groups[..g], fieldName)
      {
        assert groups[..g + 1][..g] == groups[..g];
        ok := ProcessHits(groups[g].hits);
        if !ok {
          return;
        }
        g := g + 1;
      }
      assert groups[..g] == groups;
      ok := true;
    }
  }

  /** `extract_and_sort_hits(response, field_name)` on the response's hits: the sorted
      values, or the `TypeError` of a field value that cannot be iterated. */
  method ExtractAndSortHits(hits: seq<Hit>, field: string) returns (r: Result<seq<Json>>)
    ensures r == if HitsIterable(hits, field) then Success(SortedHitValues(hits, field)) else Failure(TypeErrorMessage)
  {
    var collector := new HitCollector(field);
    var ok := collector.ProcessHits(hits);
    if !ok {
      return Failure(TypeErrorMessage);
    }
    assert collector.result == Collected(hits, field);
    r := Success(EntryValues(SortDesc(collector.result, EntryScore)));
  }

  // ----- execute and parse_output -----

  const Instruction := "This tool searches through the content of the 'Fix VPN ' handbook. Please be concise and direct in your answers, basing them off of the retrieved content."
  const NoInformation := "No relevant information found in the Medicare & You 2025 handbook."
  const Header := "## Retrieved Content from How to fix VPN ##\n\n"
  const Note := "\n\nNote: This content is retreived directly from the NCA&T VDB"

  function ParseOutput(output: string): string
  {
    if output == "" then NoInformation else Header + output + Note
  }

  /** The text `_retrieve_content` returns: the first `top_k` values joined by blank
      lines, then the instruction; `None` when the join raises `TypeError`. */
  function RetrievedContent(values: seq<Json>, topK: int): Option<string>
  {
    match ShownTexts(values, topK)
    case None => None
    case Some(texts) => Some(Join("\n\n", texts) + "\n\n" + Instruction)
  }

  /** Whether `"\n\n".join` accepts the first `top_k` values: all of them are strings. */
  predicate AllStrings(shown: seq<Json>)
  {
    forall i :: 0 <= i < |shown| ==> shown[i].JStr?
  }

  /** The first `top_k` values as the strings `"\n\n".join` takes, or `None` when one of
      them is not a string. */
  function ShownTexts(values: seq<Json>, topK: int): (r: Option<seq<string>>)
    ensures r.Some? <==> AllStrings(Take(values, topK))
    ensures r.Some? ==> (|r.value| == |Take(values, topK)| &&
      forall i :: 0 <= i < |r.value| ==> Take(values, topK)[i] == JStr(r.value[i]))
  {
    var shown := Take(values, topK);
    if AllStrings(shown) then Some(seq(|shown|, i requires 0 <= i < |shown| => shown[i].s)) else None
  }

  /** `execute(query=...)`: the tool's answer, or the exception it raises. `search` is the
      search client's answer to each attempt. */
  function Execute(query: Option<string>, topK: int, maxRetries: int, field: string,
                   search: nat -> Attempt<seq<Hit>>): Result<string>
  {
    var q := query.GetOr("");
    if q == "" then Failure("The 'query' parameter is required.")
    else
      match SearchFrom(0, maxRetries, search)
      case Retrieved(hits) =>
        if !HitsIterable(hits, field) then Failure(TypeErrorMessage)
        else
          (match RetrievedContent(SortedHitValues(hits, field), topK)
           case None => Failure(TypeErrorMessage)
           case Some(content) => Success(ParseOutput(content)))
      case TimeoutRaised => Failure("TimeoutError")
      case SearchRaised(m) => Failure(m)
      case NoResults => Failure("Failed to retrieve Elasticsearch query results for Medicare handbook.")
  }

  // ----- properties -----

  /** The values come out ordered by score, highest first, and values of equal score keep
      the order in which the hits were traversed. */
  lemma {:induction false} SortedHitValuesOrder(hits: seq<Hit>, field: string)
    ensures var entries := Collected(hits, field);
      var sorted := SortDesc(entries, EntryScore);
      |SortedHitValues(hits, field)| == |entries| &&
      Descending(sorted, EntryScore) &&
      (forall k :: WithScore(sorted, EntryScore, k) == WithScore(entries, EntryScore, k)) &&
      forall i :: 0 <= i < |sorted| ==> SortedHitValues(hits, field)[i] == sorted[i].0
  {
    SortDescProperties(Collected(hits, field), EntryScore);
  }

  /** A hit with inner hits contributes what its inner hits contribute, group by group,
      and nothing of its own fields. */
  lemma {:induction false} InnerHitsOnly(hit: Hit, field: string)
    requires hit.hasInnerHits
    ensures Collected([hit], field) == InnerCollected(hit.innerHits, field)
  {
    assert [hit][..0] == [];
  }

  /** Traversal order: the entries of a list of hits are those of its first part followed
      by those of the rest. */
  lemma {:induction false} CollectedConcat(a: seq<Hit>, b: seq<Hit>, field: string)
    ensures Collected(a + b, field) == Collected(a, field) + Collected(b, field)
    decreases |b|
  {
    if b == [] {
      assert a + b == a;
    } else {
      assert (a + b)[..|a + b| - 1] == a + b[..|b| - 1];
      CollectedConcat(a, b[..|b| - 1], field);
    }
  }

  /** A hit without inner hits and with the field as a list gives one entry per element,
      scored by its `_score` or 0 when that is `None`. */
  lemma {:induction false} DirectFieldEntries(hit: Hit, field: string, items: seq<Json>)
    requires !hit.hasInnerHits && Get(hit.fields, field) == Some(JArr(items))
    ensures Collected([hit], field) == Entries(items, if hit.score.Some? then hit.score.value else 0)
  {
    assert [hit][..0] == [];
  }

  /** Empty output gives the fixed message; any other output can be read back from
      between the header and the note. */
  lemma {:induction false} ParseOutputShape(output: string)
    ensures output == "" ==> ParseOutput(output) == NoInformation
    ensures output != "" ==>
      |ParseOutput(output)| == |Header| + |output| + |Note| &&
      ParseOutput(output)[..|Header|] == Header &&
      ParseOutput(output)[|Header|..|Header| + |output|] == output
  {
  }

  /** `execute` never takes `parse_output`'s empty branch: its answer is always the
      header, the retrieved values, a blank line, the instruction and the note. */
  lemma {:induction false} ExecuteAlwaysWraps(query: Option<string>, topK: int, maxRetries: int, field: string,
                           search: nat -> Attempt<seq<Hit>>)
    requires Execute(query, topK, maxRetries, field, search).Success?
    ensures exists body: string ::
      Execute(query, topK, maxRetries, field, search).value == Header + (body + "\n\n" + Instruction) + Note
  {
    var hits := SearchFrom(0, maxRetries, search).results;
    var body := Join("\n\n", ShownTexts(SortedHitValues(hits, field), topK).value);
    var content := RetrievedContent(SortedHitValues(hits, field), topK).value;
    assert content == body + "\n\n" + Instruction;
    assert |content| >= 2;
  }

  /** Once the search has returned hits, `execute` raises `TypeError` exactly when a field
      value it iterates is not iterable or one of the `top_k` values shown is not a
      string; otherwise it answers. */
  lemma {:induction false} ExecuteTypeError(query: string, topK: int, maxRetries: int, field: string,
                          search: nat -> Attempt<seq<Hit>>)
    requires query != "" && SearchFrom(0, maxRetries, search).Retrieved?
    ensures var hits := SearchFrom(0, maxRetries, search).results;
      Execute(Some(query), topK, maxRetries, field, search) ==
        if HitsIterable(hits, field) && AllStrings(Take(SortedHitValues(hits, field), topK))
        then Success(ParseOutput(RetrievedContent(SortedHitValues(hits, field), topK).value))
        else Failure(TypeErrorMessage)
  {
  }

  /** An empty or missing query is refused before anything is searched. */
  lemma {:induction false} EmptyQueryRefused(query: Option<string>, topK: int, maxRetries: int, field: string,
                          search: nat -> Attempt<seq<Hit>>)
    requires query.None? || query == Some("")
    ensures Execute(query, topK, maxRetries, field, search) == Failure("The 'query' parameter is required.")
  {
  }
}
