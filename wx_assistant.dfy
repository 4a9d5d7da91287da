/**
 * Watson Assistant conversation input (`data_models/wx_assistant.py`): a list of turns,
 * each with an optional user text `u`, assistant text `a` and flag `n`. The conversion
 * turns it into chat messages.
 */
module WxAssistant {
  import opened Wrappers
  import opened JsonValue
  import opened ChatMessages

  /** `WxAssistantMessage`. */
  datatype WxMessage = WxMessage(u: Option<string>, a: Option<string>, n: Option<bool>)

  function OptText(s: Option<string>): Json
  {
    if s.Some? then JStr(s.value) else JNull
  }

  /** `to_dict`. */
  function ToDict(m: WxMessage): (r: Fields)
    ensures Keys(r) == ["u", "a", "n"]
    ensures Get(r, "u") == Some(if m.u.Some? then JStr(m.u.value) else JNull)
    ensures Get(r, "a") == Some(if m.a.Some? then JStr(m.a.value) else JNull)
    ensures Get(r, "n") == Some(if m.n.Some? then JBool(m.n.value) else JNull)
  {
    var r := [("u", OptText(m.u)), ("a", OptText(m.a)), ("n", if m.n.Some? then JBool(m.n.value) else JNull)];
    assert "u"[0] == 'u' && "a"[0] == 'a' && "n"[0] == 'n';
    assert Get(r, "n") == Get(r[1..], "n") == Get(r[2..], "n");
    r
  }

  predicate Truthy(s: Option<string>)
  {
    s.Some? && s.value != ""
  }

  /** The messages one turn contributes: the user's text as a single text part, then the
      assistant's text; empty texts contribute nothing and `n` is ignored. */
  function TurnMessages(m: WxMessage): seq<Message>
  {
    (if Truthy(m.u) then [UserMessage(Parts([TextPart(m.u.value)]))] else []) +
    (if Truthy(m.a) then [AssistantSaying(m.a.value)] else [])
  }

  /** The conversation the turns convert to. */
  function Conversation(turns: seq<WxMessage>): seq<Message>
  {
    if turns == [] then [] else Conversation(turns[..|turns| - 1]) + TurnMessages(turns[|turns| - 1])
  }

  /** `convert_wx_to_conversation`, appending turn by turn. */
  method ConvertWxToConversation(turns: seq<WxMessage>) returns (messages: seq<Message>)
    ensures messages == Conversation(turns)
  {
    messages := [];
    for i := 0 to |turns|
      invariant messages == Conversation(turns[..i])
    {
      assert turns[..i + 1][..i] == turns[..i];
      var wx := turns[i];
      if wx.u.Some? && wx.u.value != "" {
        messages := messages + [UserMessage(Parts([TextPart(wx.u.value)]))];
      }
      if wx.a.Some? && wx.a.value != "" {
        messages := messages + [AssistantSaying(wx.a.value)];
      }
    }
    assert turns[..|turns|] == turns;
  }

  /** The number of non-empty texts among the turns' `u` and `a`. */
  function TruthyCount(turns: seq<WxMessage>): nat
  {
    if turns == [] then 0
    else (TruthyCount(turns[..|turns| - 1]) + (if Truthy(turns[|turns| - 1].u) then 1 else 0) +
      (if Truthy(turns[|turns| - 1].a) then 1 else 0))
  }

  /** Converting a concatenation of turns converts each part in order. */
  lemma {:induction false} ConversationAppend(x: seq<WxMessage>, y: seq<WxMessage>)
    ensures Conversation(x + y) == Conversation(x) + Conversation(y)
    decreases |y|
  {
    if y == [] {
      assert x + y == x;
    } else {
      assert (x + y)[..|x + y| - 1] == x + y[..|y| - 1];
      ConversationAppend(x, y[..|y| - 1]);
    }
  }

  /** One message per non-empty `u` and per non-empty `a`. */
  lemma {:induction false} ConversationLength(turns: seq<WxMessage>)
    ensures |Conversation(turns)| == TruthyCount(turns)
    decreases |turns|
  {
    if turns != [] {
      ConversationLength(turns[..|turns| - 1]);
    }
  }

  /** Every message is a user message holding one text part with a `u`, or an assistant
      message holding an `a` and nothing else. */
  lemma {:induction false} ConversationMessages(turns: seq<WxMessage>)
    ensures forall m :: m in Conversation(turns) ==>
      (exists t :: t in turns && Truthy(t.u) && m == UserMessage(Parts([TextPart(t.u.value)]))) ||
      (exists t :: t in turns && Truthy(t.a) && m == AssistantSaying(t.a.value))
    decreases |turns|
  {
    if turns != [] {
      var init := turns[..|turns| - 1];
      var last := turns[|turns| - 1];
      ConversationMessages(init);
      assert forall t :: t in init ==> t in turns;
      assert last in turns;
      forall m | m in Conversation(turns)
        ensures (exists t :: t in turns && Truthy(t.u) && m == UserMessage(Parts([TextPart(t.u.value)]))) ||
          (exists t :: t in turns && Truthy(t.a) && m == AssistantSaying(t.a.value))
      {
        if m in Conversation(init) {
        } else {
          assert m in TurnMessages(last);
        }
      }
    }
  }
}
