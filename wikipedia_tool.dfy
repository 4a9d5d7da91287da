/**
 * The Wikipedia tool (`WikipediaTool` in `tools/implementations/wikipedia_tool.py`), a REST
 * tool over Wikipedia's page-summary API. `execute` checks the query, percent-encodes it,
 * fills the endpoint template with the language and the encoded query, and sends one GET
 * request through the REST base without a token. `parse_output` turns the answer into an
 * error line or into a document of the title, the summary and the page URL, followed by a
 * link to the page.
 *
 * The environment and the network are parameters, as in the REST base.
 */
module WikipediaTool {
  import opened Wrappers
  import opened JsonValue
  import opened PyStr
  import BaseRestTool
  import JsonFormatter

  type Fields = seq<(string, Json)>

  // ----- quote -----

  /** The characters `urllib.parse.quote` leaves alone: ASCII letters and digits, `_.-~`
      and the default safe character `/`. */
  predicate Safe(c: char)
  {
    ('a' <= c <= 'z') || ('A' <= c <= 'Z') || ('0' <= c <= '9') || c == '_' || c == '.' || c == '-' || c == '~' || c == '/'
  }

  /** The UTF-8 bytes of a character. */
  function Utf8(c: char): (r: seq<int>)
    ensures 1 <= |r| <= 4
    ensures forall i :: 0 <= i < |r| ==> 0 <= r[i] < 256
  {
    var n := c as int;
    if n < 0x80 then [n]
    else if n < 0x800 then [0xC0 + n / 64, 0x80 + n % 64]
    else if n < 0x10000 then [0xE0 + n / 4096, 0x80 + (n / 64) % 64, 0x80 + n % 64]
    else [0xF0 + n / 262144, 0x80 + (n / 4096) % 64, 0x80 + (n / 64) % 64, 0x80 + n % 64]
  }

  predicate UpperHex(c: char)
  {
    ('0' <= c <= '9') || ('A' <= c <= 'F')
  }

  function HexDigit(d: int): (c: char)
    requires 0 <= d < 16
    ensures UpperHex(c)
  {
    if d < 10 then ('0' as int + d) as char else ('A' as int + d - 10) as char
  }

  /** `%XX` for each byte. */
  function Escaped(bytes: seq<int>): (r: string)
    requires forall i :: 0 <= i < |bytes| ==> 0 <= bytes[i] < 256
    ensures |r| == 3 * |bytes|
    ensures forall i :: 0 <= i < |r| ==> r[i] == '%' || UpperHex(r[i])
  {
    if bytes == [] then ""
    else ['%', HexDigit(bytes[0] / 16), HexDigit(bytes[0] % 16)] + Escaped(bytes[1..])
  }

  function QuoteChar(c: char): string
  {
    if Safe(c) then [c] else Escaped(Utf8(c))
  }

  /** `quote(s)`: safe characters as they are, every other one as its `%XX` UTF-8 bytes. */
  function Quote(s: string): string
  {
    if s == [] then "" else QuoteChar(s[0]) + Quote(s[1..])
  }

  /** Quoting never shortens the text, and keeps its length exactly when every character
      is safe, in which case the text is unchanged. */
  lemma {:induction false} QuoteLength(s: string)
    ensures |Quote(s)| >= |s|
    ensures |Quote(s)| == |s| <==> forall i :: 0 <= i < |s| ==> Safe(s[i])
    ensures (forall i :: 0 <= i < |s| ==> Safe(s[i])) ==> Quote(s) == s
    decreases |s|
  {
    if s != [] {
      QuoteLength(s[1..]);
      assert forall i :: 1 <= i < |s| ==> s[i] == s[1..][i - 1];
      if !Safe(s[0]) {
        assert |QuoteChar(s[0])| >= 3;
      }
    }
  }

  /** The quoted text holds only safe characters, `%` and upper-case hexadecimal digits. */
  lemma {:induction false} QuoteAlphabet(s: string)
    ensures forall i :: 0 <= i < |Quote(s)| ==> Safe(Quote(s)[i]) || Quote(s)[i] == '%' || UpperHex(Quote(s)[i])
    decreases |s|
  {
    if s != [] {
      QuoteAlphabet(s[1..]);
      var head, rest := QuoteChar(s[0]), Quote(s[1..]);
      assert Quote(s) == head + rest;
      forall i | 0 <= i < |head + rest|
        ensures Safe((head + rest)[i]) || (head + rest)[i] == '%' || UpperHex((head + rest)[i])
      {
        if i >= |head| {
          assert (head + rest)[i] == rest[i - |head|];
        }
      }
    }
  }

  // ----- the endpoint -----

  /** `endpoint.format(lang=..., encoded_query=...)`: the two replacement fields filled in,
      everything else kept. */
  function Format(template: string, lang: string, encodedQuery: string): string
  {
    if template == [] then ""
    else if |template| >= 6 && template[..6] == "{lang}" then lang + Format(template[6..], lang, encodedQuery)
    else if |template| >= 15 && template[..15] == "{encoded_query}" then encodedQuery + Format(template[15..], lang, encodedQuery)
    else [template[0]] + Format(template[1..], lang, encodedQuery)
  }

  /** A template without braces is kept as it is. */
  lemma {:induction false} FormatLiteral(template: string, lang: string, encodedQuery: string)
    requires forall i :: 0 <= i < |template| ==> template[i] != '{'
    ensures Format(template, lang, encodedQuery) == template
    decreases |template|
  {
    if template != [] {
      FormatLiteral(template[1..], lang, encodedQuery);
      assert template[..1] != "{" by {
        assert template[0] != '{';
      }
      assert [template[0]] + template[1..] == template;
    }
  }

  /** Each replacement field is replaced by its value, and the rest of the template is
      formatted in turn. */
  lemma {:induction false} FormatFields(template: string, lang: string, encodedQuery: string)
    ensures Format("{lang}" + template, lang, encodedQuery) == lang + Format(template, lang, encodedQuery)
    ensures Format("{encoded_query}" + template, lang, encodedQuery) == encodedQuery + Format(template, lang, encodedQuery)
  {
    var l := "{lang}" + template;
    assert l[..6] == "{lang}" && l[6..] == template;
    var q := "{encoded_query}" + template;
    assert q[..15] == "{encoded_query}" && q[15..] == template;
    assert q[..6] != "{lang}" by {
      assert q[1] == 'e' && "{lang}"[1] == 'l';
    }
  }

  // ----- parse_output -----

  const NotFoundType := "https://mediawiki.org/wiki/HyperSwitch/errors/not_found"

  const NotFound := "Error: The page for the given query was not found on Wikipedia."

  const ParseFailure := "An error occurred while parsing the Wikipedia summary."

  const Instruction := "\n\nFor more details, please visit the Wikipedia page."

  function Field(fields: Fields, key: string): Json
  {
    Get(fields, key).GetOr(JNull)
  }

  /** `output.get("content_urls", {}).get("desktop", {}).get("page")`: `None` when a `.get`
      is applied to something that is not a dict and raises. */
  function PageUrl(output: Fields): Option<Json>
  {
    var urls := Get(output, "content_urls").GetOr(JObj([]));
    if !urls.JObj? then None
    else
      var desktop := Get(urls.fields, "desktop").GetOr(JObj([]));
      if !desktop.JObj? then None else Some(Field(desktop.fields, "page"))
  }

  /** `summary_data`, or `None` when building it raises. */
  function SummaryData(output: Fields): Option<Json>
  {
    var url := PageUrl(output);
    if url.None? then None
    else Some(JObj([("title", Field(output, "title")), ("summary", Field(output, "extract")), ("page_url", url.value)]))
  }

  /** `parse_output(output)`. */
  function ParseOutput(output: Json): string
  {
    if !output.JObj? then Str(output)
    else if Get(output.fields, "type") == Some(JStr(NotFoundType)) then NotFound
    else if "detail" in Keys(output.fields) then "Error: " + Str(Get(output.fields, "detail").value)
    else
      match SummaryData(output.fields)
      case None => ParseFailure
      case Some(data) =>
        match JsonFormatter.FormatJsonToDocument(data, 0, JsonFormatter.Defaults)
        case Failure(_) => ParseFailure
        case Success(doc) => doc + Instruction
  }

  /** Anything but a dict is given back as its text; the not-found type gives the fixed
      error; a `detail` entry gives an error line with it; otherwise a summary whose URL
      can be picked out gives the formatted document followed by the link to the page. */
  lemma {:induction false} ParseOutputCases(output: Json)
    ensures !output.JObj? ==> ParseOutput(output) == Str(output)
    ensures output.JObj? && Get(output.fields, "type") == Some(JStr(NotFoundType)) ==> ParseOutput(output) == NotFound
    ensures output.JObj? && Get(output.fields, "type") != Some(JStr(NotFoundType)) && Get(output.fields, "detail").Some? ==>
      ParseOutput(output) == "Error: " + Str(Get(output.fields, "detail").value)
    ensures (output.JObj? && Get(output.fields, "type") != Some(JStr(NotFoundType)) && Get(output.fields, "detail").None? &&
      SummaryData(output.fields).Some?) ==>
      ParseOutput(output) == Join("", JsonFormatter.Lines(JsonFormatter.Defaults, SummaryData(output.fields).value, 0)) + Instruction
    ensures (output.JObj? && Get(output.fields, "type") != Some(JStr(NotFoundType)) && Get(output.fields, "detail").None? &&
      SummaryData(output.fields).None?) ==>
      ParseOutput(output) == ParseFailure
  {
  }

  /** The summary exists exactly when `content_urls` is absent or a dict whose `desktop`
      entry is absent or a dict. */
  lemma {:induction false} SummaryPresent(output: Fields)
    ensures SummaryData(output).Some? <==>
      (Get(output, "content_urls").None? ||
       (Get(output, "content_urls").value.JObj? &&
        (Get(Get(output, "content_urls").value.fields, "desktop").None? ||
         Get(Get(output, "content_urls").value.fields, "desktop").value.JObj?)))
  {
  }

  /** The summary holds the title, the extract as the summary and the page URL, in that
      order, with `None` for what is missing. */
  lemma {:induction false} SummaryShape(output: Fields)
    ensures SummaryData(output).Some? ==>
      var d := SummaryData(output).value.fields;
      Keys(d) == ["title", "summary", "page_url"] &&
      Get(d, "title") == Some(Field(output, "title")) && Get(d, "summary") == Some(Field(output, "extract"))
  {
    if SummaryData(output).Some? {
      var d := SummaryData(output).value.fields;
      assert "title"[0] == 't' && "summary"[0] == 's';
      assert Get(d, "summary") == Get(d[1..], "summary");
    }
  }

  /** An answer that is neither an error nor unparseable always ends with the link to
      the page. */
  lemma {:induction false} WellFormedSummary(output: Fields)
    requires Get(output, "type") != Some(JStr(NotFoundType)) && Get(output, "detail").None?
    requires SummaryData(output).Some?
    ensures exists doc :: ParseOutput(JObj(output)) == doc + Instruction
  {
    var doc := Join("", JsonFormatter.Lines(JsonFormatter.Defaults, SummaryData(output).value, 0));
    ParseOutputCases(JObj(output));
    assert ParseOutput(JObj(output)) == doc + Instruction;
  }

  // ----- execute -----

  const QueryRequired := "The 'query' parameter is required."

  const Headers: Fields := [("Accept", JStr("application/json")), ("User-Agent", JStr("WikipediaTool/1.0"))]

  predicate Given(s: Option<string>)
  {
    s.Some? && s.value != ""
  }

  /** The request `execute` sends: a GET to the filled-in endpoint, in JSON, without a
      token, with the tool's own headers. */
  function SummaryRequest(s: BaseRestTool.Settings, query: string, lang: Option<string>): BaseRestTool.Request
  {
    BaseRestTool.Request("GET", JNull, JNull, false, Some(Format(s.endpoint, lang.GetOr("en"), Quote(query))), Headers, "json", None)
  }

  /** `execute(query=..., lang=...)`: the tool's answer, or the exception raised. */
  function Execute(
    query: Option<string>, lang: Option<string>, s: BaseRestTool.Settings,
    requestMiddleware: seq<Json -> Json>, responseMiddleware: seq<BaseRestTool.Payload -> BaseRestTool.Payload>,
    env: string -> Option<string>, network: BaseRestTool.Network): Result<string>
  {
    if !Given(query) then Failure(QueryRequired)
    else
      match BaseRestTool.MakeRequestSpec(s, requestMiddleware, responseMiddleware, SummaryRequest(s, query.value, lang), env,
        Failure("no token"), network)
      case Failure(e) => Failure(e)
      case Success(p) => Success(ParseOutput(BaseRestTool.AsOutput(p)))
  }

  /** A missing or empty query is refused and nothing is sent. */
  lemma {:induction false} QueryChecked(
    query: Option<string>, lang: Option<string>, s: BaseRestTool.Settings,
    requestMiddleware: seq<Json -> Json>, responseMiddleware: seq<BaseRestTool.Payload -> BaseRestTool.Payload>,
    env: string -> Option<string>, network: BaseRestTool.Network)
    ensures !Given(query) <==> Execute(query, lang, s, requestMiddleware, responseMiddleware, env, network) == Failure(QueryRequired)
  {
  }

  /** The request goes to the endpoint filled with the language, `en` by default, and the
      quoted query; it never asks for a token, so the token manager plays no part. */
  lemma {:induction false} RequestShape(s: BaseRestTool.Settings, query: string, lang: Option<string>, token: Result<string>,
    requestMiddleware: seq<Json -> Json>, responseMiddleware: seq<BaseRestTool.Payload -> BaseRestTool.Payload>,
    env: string -> Option<string>, network: BaseRestTool.Network)
    ensures SummaryRequest(s, query, lang).endpointUrl == Some(Format(s.endpoint, if lang.Some? then lang.value else "en", Quote(query)))
    ensures BaseRestTool.MakeRequestSpec(s, requestMiddleware, responseMiddleware, SummaryRequest(s, query, lang), env, token, network) ==
      BaseRestTool.MakeRequestSpec(s, requestMiddleware, responseMiddleware, SummaryRequest(s, query, lang), env, Failure("no token"), network)
    ensures BaseRestTool.MakeRequestSpec(s, requestMiddleware, responseMiddleware, SummaryRequest(s, query, lang), env, token, network).Success?
  {
  }
}
