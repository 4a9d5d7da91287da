/**
 * The request-side helpers of the chat completions route (`api/routes/chat_completions_api.py`):
 * the API-key dependency, the conversion of string user content into a text part, the
 * filter that hides sensitive configuration, and the SSE generator that relabels the
 * agent's chunks and stops after the first finishing one.
 *
 * The environment is a parameter. The agent's stream is the sequence of what it yields;
 * an exception inside it ends the generator just as the end of the stream does.
 */
module ChatCompletionsApi {
  import opened Wrappers
  import opened JsonValue
  import opened PyStr
  import opened ChatMessages
  import PyReplace

  // ----- authentication -----

  /** What the module reads from the environment when it is loaded. */
  datatype AuthConfig = AuthConfig(flexoKey: string, enabled: bool)

  /** Loading the module: `FLEXO_API_KEY` must be set and non-empty; the check is enabled
      unless `ENABLE_API_KEY` is `false` in any letter case. */
  function LoadAuth(env: string -> Option<string>): (r: Result<AuthConfig>)
    ensures r.Success? <==> env("FLEXO_API_KEY").Some? && env("FLEXO_API_KEY").value != ""
    ensures r.Success? ==> r.value.flexoKey == env("FLEXO_API_KEY").value
    ensures r.Success? && env("ENABLE_API_KEY").None? ==> r.value.enabled
  {
    var key := env("FLEXO_API_KEY");
    if key.None? || key.value == "" then Failure("FLEXO_API_KEY is not set. Please set it in your environment or .env file.")
    else
      assert Lower("true") == "true";
      Success(AuthConfig(key.value, Lower(env("ENABLE_API_KEY").GetOr("true")) != "false"))
  }

  datatype Auth = Authorized(key: Option<string>) | Forbidden(status: int, detail: string)

  /** `get_api_key`: the header's key, or the 403 raised for it. */
  function GetApiKey(config: AuthConfig, apiKey: Option<string>): Auth
  {
    if config.enabled && (apiKey.None? || apiKey.value == "" || apiKey.value != config.flexoKey) then
      Forbidden(403, "Unauthorized")
    else Authorized(apiKey)
  }

  /** With the check enabled, a request passes exactly when its key is the configured one;
      with it disabled every request passes; a passing request keeps its key and a refused
      one gets 403 Unauthorized. */
  lemma {:induction false} GetApiKeyDecision(config: AuthConfig, apiKey: Option<string>)
    requires config.flexoKey != ""
    ensures GetApiKey(config, apiKey).Authorized? <==> !config.enabled || apiKey == Some(config.flexoKey)
    ensures GetApiKey(config, apiKey).Authorized? ==> GetApiKey(config, apiKey).key == apiKey
    ensures GetApiKey(config, apiKey).Forbidden? ==> GetApiKey(config, apiKey) == Forbidden(403, "Unauthorized")
  {
  }

  // ----- message conversion -----

  /** What `convert_message_content` makes of one message. */
  function Converted(m: Message): Message
  {
    if m.UserMessage? && m.body.PlainText? then UserMessage(Parts([TextPart(Strip(m.body.text))])) else m
  }

  /** `convert_message_content`: the messages in order, each user message with string
      content replaced by one holding its stripped text as a single part. */
  method ConvertMessageContent(messages: seq<Message>) returns (converted: seq<Message>)
    ensures |converted| == |messages|
    ensures forall i :: 0 <= i < |messages| ==> converted[i] == Converted(messages[i])
  {
    converted := [];
    for i := 0 to |messages|
      invariant |converted| == i
      invariant forall j :: 0 <= j < i ==> converted[j] == Converted(messages[j])
    {
      var msg := messages[i];
      if msg.UserMessage? && msg.body.PlainText? {
        converted := converted + [UserMessage(Parts([TextPart(Strip(msg.body.text))]))];
      } else {
        converted := converted + [msg];
      }
    }
  }

  /** After conversion no user message holds a plain string; every other message is passed
      through, and converting again changes nothing. */
  lemma {:induction false} ConvertedShape(m: Message)
    ensures Converted(m).UserMessage? ==> Converted(m).body.Parts?
    ensures !(m.UserMessage? && m.body.PlainText?) ==> Converted(m) == m
    ensures m.UserMessage? && m.body.PlainText? ==> Converted(m).body.parts == [TextPart(Strip(m.body.text))]
    ensures Converted(Converted(m)) == Converted(m)
  {
  }

  // ----- configuration shown to clients -----

  /** A key naming a secret: it contains `key`, `secret` or `password`, ignoring case. */
  predicate Sensitive(k: string)
  {
    PyReplace.Contains(Lower(k), "key") || PyReplace.Contains(Lower(k), "secret") ||
    PyReplace.Contains(Lower(k), "password")
  }

  /** `get_non_sensitive_config`: the entries whose key is not sensitive, in order. */
  function NonSensitive(config: Fields): (r: Fields)
    ensures forall p :: p in r <==> p in config && !Sensitive(p.0)
    ensures |r| <= |config|
  {
    if config == [] then []
    else
      var rest := NonSensitive(config[1..]);
      assert forall p :: p in config <==> p == config[0] || p in config[1..];
      if Sensitive(config[0].0) then rest else [config[0]] + rest
  }

  /** Looking a key up in the filtered configuration finds nothing for a sensitive key and
      what the full configuration holds for any other. */
  lemma {:induction false} NonSensitiveGet(config: Fields, k: string)
    ensures Get(NonSensitive(config), k) == if Sensitive(k) then None else Get(config, k)
    decreases |config|
  {
    if config != [] {
      NonSensitiveGet(config[1..], k);
    }
  }

  // ----- the SSE generator -----

  datatype SseChoice = SseChoice(index: int, content: Option<string>, finishReason: Option<string>)

  /** `SSEChunk`, with each choice's delta reduced to its content. */
  datatype SseChunk = SseChunk(
    id: string, objectName: string, created: int, model: string, choices: seq<SseChoice>, threadId: Option<string>)

  const DeltaObject := "thread.message.delta"

  /** Some choice of the chunk finishes the answer, with `stop` or `tool_calls`. */
  predicate Finishes(c: SseChunk)
  {
    AnyFinishes(c.choices)
  }

  /** `any(choice.finish_reason in ["stop", "tool_calls"] for choice in choices)`. */
  predicate AnyFinishes(choices: seq<SseChoice>)
    decreases |choices|
  {
    choices != [] &&
    (choices[0].finishReason == Some("stop") || choices[0].finishReason == Some("tool_calls") ||
     AnyFinishes(choices[1..]))
  }

  /** The chunk as sent: its object relabelled and, when the request names a thread, that
      thread set. */
  function Relabel(c: SseChunk, threadHeader: Option<string>): SseChunk
  {
    c.(objectName := DeltaObject, threadId := if threadHeader.Some? && threadHeader.value != "" then threadHeader else c.threadId)
  }

  /** The chunks `sse_generator` sends for what the agent yields (`None` for a falsy
      chunk): each present chunk relabelled, up to and including the first that finishes. */
  function Sent(stream: seq<Option<SseChunk>>, threadHeader: Option<string>): seq<SseChunk>
  {
    if stream == [] then []
    else if stream[0].None? then Sent(stream[1..], threadHeader)
    else ([Relabel(stream[0].value, threadHeader)] +
      (if Finishes(stream[0].value) then [] else Sent(stream[1..], threadHeader)))
  }

  /** `sse_generator`, chunk by chunk. */
  method SseGenerator(stream: seq<Option<SseChunk>>, threadHeader: Option<string>) returns (sent: seq<SseChunk>)
    ensures sent == Sent(stream, threadHeader)
  {
    sent := [];
    var i := 0;
    while i < |stream|
      invariant 0 <= i <= |stream|
      invariant sent + Sent(stream[i..], threadHeader) == Sent(stream, threadHeader)
    {
      assert stream[i..] == [stream[i]] + stream[i + 1..];
      SentCons(stream[i], stream[i + 1..], threadHeader);
      if stream[i].Some? {
        var chunk := stream[i].value;
        if threadHeader.Some? && threadHeader.value != "" {
          chunk := chunk.(threadId := threadHeader);
        }
        chunk := chunk.(objectName := DeltaObject);
        assert chunk == Relabel(stream[i].value, threadHeader);
        RelabelFinishes(stream[i].value, threadHeader);
        sent := sent + [chunk];
        if Finishes(chunk) {
          return;
        }
      }
      i := i + 1;
    }
    assert stream[i..] == [];
  }

  /** Relabelling keeps the choices, so a chunk finishes exactly when its relabelled
      copy does. */
  lemma {:induction false} RelabelFinishes(c: SseChunk, threadHeader: Option<string>)
    ensures Finishes(Relabel(c, threadHeader)) == Finishes(c)
  {
    assert Relabel(c, threadHeader).choices == c.choices;
  }

  /** What is sent for a stream that starts with `x`. */
  lemma {:induction false} SentCons(x: Option<SseChunk>, rest: seq<Option<SseChunk>>, threadHeader: Option<string>)
    ensures Sent([x] + rest, threadHeader) ==
      if x.None? then Sent(rest, threadHeader)
      else [Relabel(x.value, threadHeader)] + (if Finishes(x.value) then [] else Sent(rest, threadHeader))
  {
    assert ([x] + rest)[0] == x && ([x] + rest)[1..] == rest;
  }

  /** Every chunk sent carries the delta object and, when the request names a thread, that
      thread; only the last one sent may finish the answer. */
  lemma {:induction false} SentLabelled(stream: seq<Option<SseChunk>>, threadHeader: Option<string>)
    ensures forall c :: c in Sent(stream, threadHeader) ==> c.objectName == DeltaObject
    ensures threadHeader.Some? && threadHeader.value != "" ==>
      forall c :: c in Sent(stream, threadHeader) ==> c.threadId == threadHeader
    ensures forall i :: 0 <= i < |Sent(stream, threadHeader)| - 1 ==> !Finishes(Sent(stream, threadHeader)[i])
    decreases |stream|
  {
    if stream != [] {
      SentLabelled(stream[1..], threadHeader);
      if stream[0].Some? {
        var c := Relabel(stream[0].value, threadHeader);
        assert c.choices == stream[0].value.choices;
        var r := Sent(stream, threadHeader);
        if !Finishes(stream[0].value) {
          assert r == [c] + Sent(stream[1..], threadHeader);
          forall i | 0 <= i < |r| - 1
            ensures !Finishes(r[i])
          {
            if i > 0 {
              assert r[i] == Sent(stream[1..], threadHeader)[i - 1];
            }
          }
        }
      }
    }
  }

  /** A stream read in two parts sends the first part's chunks and then the second's, as
      long as nothing in the first part finishes the answer. */
  lemma {:induction false} SentAppend(a: seq<Option<SseChunk>>, b: seq<Option<SseChunk>>, threadHeader: Option<string>)
    requires forall c :: Some(c) in a ==> !Finishes(c)
    ensures Sent(a + b, threadHeader) == Sent(a, threadHeader) + Sent(b, threadHeader)
    decreases |a|
  {
    if a != [] {
      var x, r := a[0], a[1..];
      assert a == [x] + r && a + b == [x] + (r + b);
      NoFinishTail(a);
      SentAppend(r, b, threadHeader);
      SentCons(x, r + b, threadHeader);
      SentCons(x, r, threadHeader);
      if x.Some? {
        SentAssoc([Relabel(x.value, threadHeader)], Sent(r, threadHeader), Sent(b, threadHeader));
      }
    } else {
      assert a + b == b;
    }
  }

  /** Without a finishing chunk in `a`, its head does not finish and neither does any
      chunk of its tail. */
  lemma {:induction false} NoFinishTail(a: seq<Option<SseChunk>>)
    requires a != [] && forall c :: Some(c) in a ==> !Finishes(c)
    ensures a[0].Some? ==> !Finishes(a[0].value)
    ensures forall c :: Some(c) in a[1..] ==> !Finishes(c)
  {
    assert a[0].Some? ==> Some(a[0].value) in a;
    assert forall c :: Some(c) in a[1..] ==> Some(c) in a;
  }

  lemma {:induction false} SentAssoc(x: seq<SseChunk>, y: seq<SseChunk>, z: seq<SseChunk>)
    ensures x + (y + z) == x + y + z
  {
  }

  /** A finishing chunk ends what is sent: nothing the agent yields after it reaches the
      client. */
  lemma {:induction false} SentStopsAtFinish(a: seq<Option<SseChunk>>, c: SseChunk, b: seq<Option<SseChunk>>, threadHeader: Option<string>)
    requires forall x :: Some(x) in a ==> !Finishes(x)
    requires Finishes(c)
    ensures Sent(a + [Some(c)] + b, threadHeader) == Sent(a, threadHeader) + [Relabel(c, threadHeader)]
  {
    SentAppend(a, [Some(c)] + b, threadHeader);
    assert a + [Some(c)] + b == a + ([Some(c)] + b);
    assert ([Some(c)] + b)[0] == Some(c);
  }
}
