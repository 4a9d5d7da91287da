/**
 * The tool-registry observer (`tools/core/observer.py`): a list of subscriber callbacks
 * notified of tool-list changes, and the MCP bridge that diffs each new tool list
 * against the current one and classifies the change.
 *
 * Callbacks are opaque values compared by equality; what a callback does is not
 * modelled beyond whether it raises, which is a parameter. Awaiting coroutine results
 * and logging are not modelled.
 */
module Observer {
  import opened Wrappers
  import JsonValue
  import opened PyDict

  datatype ToolEventType = Added | Removed | Updated | ListChanged

  /** An MCP tool definition: its name and the rest of it. */
  datatype Tool = Tool(name: string, definition: JsonValue.Json)

  datatype ToolUpdateEvent = ToolUpdateEvent(
    eventType: ToolEventType,
    newToolDefs: seq<Tool>,
    removedToolNames: seq<string>,
    updatedToolDefs: seq<Tool>)

  predicate Distinct<C(==)>(s: seq<C>)
  {
    forall i, j :: 0 <= i < j < |s| ==> s[i] != s[j]
  }

  // ----- subscribers -----

  /** The subscriber list after `subscribe(callback)`. */
  function Subscribed<C(==)>(subs: seq<C>, callback: C): seq<C>
  {
    if callback in subs then subs else subs + [callback]
  }

  /** Python's `list.remove`: the first occurrence goes. */
  function RemoveFirst<C(==)>(subs: seq<C>, callback: C): seq<C>
  {
    if subs == [] then []
    else if subs[0] == callback then subs[1..]
    else [subs[0]] + RemoveFirst(subs[1..], callback)
  }

  /** The subscriber list after `unsubscribe(callback)`. */
  function Unsubscribed<C(==)>(subs: seq<C>, callback: C): seq<C>
  {
    if callback in subs then RemoveFirst(subs, callback) else subs
  }

  /** The subscribers whose callback raises on `event`, in notification order. */
  function Failures<C>(subs: seq<C>, event: ToolUpdateEvent, raises: (C, ToolUpdateEvent) -> bool): seq<C>
  {
    if subs == [] then []
    else
      var init := subs[..|subs| - 1];
      var last := subs[|subs| - 1];
      Failures(init, event, raises) + (if raises(last, event) then [last] else [])
  }

  class ToolRegistryObserver<C(==)> {
    var subscribers: seq<C>

    constructor()
      ensures subscribers == []
    {
      subscribers := [];
    }

    method Subscribe(callback: C)
      modifies this
      ensures subscribers == Subscribed(old(subscribers), callback)
    {
      if callback !in subscribers {
        subscribers := subscribers + [callback];
      }
    }

    method Unsubscribe(callback: C)
      modifies this
      ensures subscribers == Unsubscribed(old(subscribers), callback)
    {
      if callback in subscribers {
        subscribers := RemoveFirst(subscribers, callback);
      }
    }

    /** Every subscriber is called, in subscription order; one that raises is logged and
        the loop goes on. */
    method Notify(event: ToolUpdateEvent, raises: (C, ToolUpdateEvent) -> bool)
      returns (invoked: seq<C>, failed: seq<C>)
      ensures invoked == subscribers
      ensures failed == Failures(subscribers, event, raises)
    {
      invoked, failed := [], [];
      var i := 0;
      while i < |subscribers|
        invariant 0 <= i <= |subscribers|
        invariant invoked == subscribers[..i]
        invariant failed == Failures(subscribers[..i], event, raises)
      {
        var callback := subscribers[i];
        assert subscribers[..i + 1][..i] == subscribers[..i];
        invoked := invoked + [callback];
        if raises(callback, event) {
          failed := failed + [callback];
        }
        i := i + 1;
      }
      assert subscribers[..i] == subscribers;
    }
  }

  // ----- tool-list diff -----

  /** `{tool.name: tool for tool in tools}`: a later tool with the same name replaces the
      earlier one in its position. */
  function ToolMap(tools: seq<Tool>): Dict<string, Tool>
  {
    if tools == [] then []
    else
      var last := tools[|tools| - 1];
      Put(ToolMap(tools[..|tools| - 1]), last.name, last)
  }

  /** The new tools whose names are not current, in the new map's order. */
  function AddedTools(current: Dict<string, Tool>, entries: Dict<string, Tool>): seq<Tool>
  {
    if entries == [] then []
    else
      var last := entries[|entries| - 1];
      AddedTools(current, entries[..|entries| - 1]) + (if last.0 !in Keys(current) then [last.1] else [])
  }

  /** The new tools whose names are current but whose definitions differ. */
  function UpdatedTools(current: Dict<string, Tool>, entries: Dict<string, Tool>): seq<Tool>
  {
    if entries == [] then []
    else
      var last := entries[|entries| - 1];
      UpdatedTools(current, entries[..|entries| - 1]) +
        (if last.0 in Keys(current) && Get(current, last.0) != Some(last.1) then [last.1] else [])
  }

  /** The current names missing from the new map, in the current map's order. */
  function RemovedNames(entries: Dict<string, Tool>, newMap: Dict<string, Tool>): seq<string>
  {
    if entries == [] then []
    else
      var last := entries[|entries| - 1];
      RemovedNames(entries[..|entries| - 1], newMap) + (if last.0 !in Keys(newMap) then [last.0] else [])
  }

  /** The event for a change: a single kind of change is reported as that kind, anything
      else (including no change at all) as a list change. */
  function EventFor(added: seq<Tool>, removed: seq<string>, updated: seq<Tool>): ToolUpdateEvent
  {
    if added != [] && removed == [] && updated == [] then ToolUpdateEvent(Added, added, [], [])
    else if removed != [] && added == [] && updated == [] then ToolUpdateEvent(Removed, [], removed, [])
    else if updated != [] && added == [] && removed == [] then ToolUpdateEvent(Updated, [], [], updated)
    else ToolUpdateEvent(ListChanged, added, removed, updated)
  }

  function Diffed(current: Dict<string, Tool>, newMap: Dict<string, Tool>): ToolUpdateEvent
  {
    EventFor(AddedTools(current, newMap), RemovedNames(current, newMap), UpdatedTools(current, newMap))
  }

  /** The loop of `_handle_tools_list_changed` sorting the new tools into added and
      updated. */
  method CompareTools(current: Dict<string, Tool>, newMap: Dict<string, Tool>)
    returns (added: seq<Tool>, updated: seq<Tool>)
    ensures added == AddedTools(current, newMap)
    ensures updated == UpdatedTools(current, newMap)
  {
    added, updated := [], [];
    var i := 0;
    while i < |newMap|
      invariant 0 <= i <= |newMap|
      invariant added == AddedTools(current, newMap[..i])
      invariant updated == UpdatedTools(current, newMap[..i])
    {
      var (name, tool) := newMap[i];
      assert newMap[..i + 1][..i] == newMap[..i];
      if name !in Keys(current) {
        added := added + [tool];
      } else if Get(current, name) != Some(tool) {
        updated := updated + [tool];
      }
      i := i + 1;
    }
    assert newMap[..i] == newMap;
  }

  /** What a notification handler did: the event it sent, if any, and the notification. */
  datatype Handled<C> = Handled(event: Option<ToolUpdateEvent>, invoked: seq<C>, failed: seq<C>)

  class MCPToolObserver<C(==)> {
    const observer: ToolRegistryObserver<C>
    var currentTools: Dict<string, Tool>

    constructor()
      ensures fresh(observer) && observer.subscribers == [] && currentTools == []
    {
      observer := new ToolRegistryObserver();
      currentTools := [];
    }

    /** `_handle_tools_list_changed`, given what `list_tools()` returned (`Failure` when it
        raised, an empty list for an empty or missing result). */
    method HandleToolsListChanged(listing: Result<seq<Tool>>, raises: (C, ToolUpdateEvent) -> bool)
      returns (h: Handled<C>)
      modifies this
      ensures listing.Failure? || listing.value == [] ==>
        h == Handled(None, [], []) && currentTools == old(currentTools)
      ensures listing.Success? && listing.value != [] ==>
        var event := Diffed(old(currentTools), ToolMap(listing.value));
        currentTools == ToolMap(listing.value) &&
        h == Handled(Some(event), observer.subscribers, Failures(observer.subscribers, event, raises))
    {
      if listing.Failure? || listing.value == [] {
        return Handled(None, [], []);
      }
      var newMap := ToolMap(listing.value);
      var added, updated := CompareTools(currentTools, newMap);
      var removed := RemovedNames(currentTools, newMap);
      currentTools := newMap;
      var event := EventFor(added, removed, updated);
      var invoked, failed := observer.Notify(event, raises);
      h := Handled(Some(event), invoked, failed);
    }
  }

  // ----- properties -----

  /** Subscribing adds the callback only when it is absent: the list never holds a
      callback twice, and subscribing again changes nothing. */
  lemma {:induction false} SubscribeProperties<C>(subs: seq<C>, callback: C)
    requires Distinct(subs)
    ensures Distinct(Subscribed(subs, callback))
    ensures forall x :: x in Subscribed(subs, callback) <==> x in subs || x == callback
    ensures Subscribed(Subscribed(subs, callback), callback) == Subscribed(subs, callback)
  {
  }

  lemma {:induction false} RemoveFirstProperties<C>(subs: seq<C>, callback: C)
    requires Distinct(subs)
    ensures Distinct(RemoveFirst(subs, callback))
    ensures forall x :: x in RemoveFirst(subs, callback) <==> x in subs && x != callback
    decreases |subs|
  {
    if subs != [] {
      var rest := subs[1..];
      DistinctTail(subs);
      assert forall x :: x in subs <==> x == subs[0] || x in rest;
      if subs[0] != callback {
        RemoveFirstProperties(rest, callback);
        DistinctCons(subs[0], RemoveFirst(rest, callback));
      }
    }
  }

  /** The tail of a list without repeats has none either and lacks the head. */
  lemma {:induction false} DistinctTail<C>(subs: seq<C>)
    requires Distinct(subs) && subs != []
    ensures Distinct(subs[1..]) && subs[0] !in subs[1..]
  {
    var rest := subs[1..];
    forall i, j | 0 <= i < j < |rest| ensures rest[i] != rest[j] {
      assert rest[i] == subs[i + 1] && rest[j] == subs[j + 1];
    }
    forall j | 0 <= j < |rest| ensures rest[j] != subs[0] {
      assert rest[j] == subs[j + 1];
    }
  }

  /** Putting a new element in front of a list without repeats keeps it without repeats. */
  lemma {:induction false} DistinctCons<C>(x: C, s: seq<C>)
    requires Distinct(s) && x !in s
    ensures Distinct([x] + s)
  {
    var r := [x] + s;
    forall i, j | 0 <= i < j < |r| ensures r[i] != r[j] {
      if i == 0 {
        assert r[j] == s[j - 1];
      } else {
        assert r[i] == s[i - 1] && r[j] == s[j - 1];
      }
    }
  }

  /** Unsubscribing removes the callback when present and otherwise changes nothing. */
  lemma {:induction false} UnsubscribeProperties<C>(subs: seq<C>, callback: C)
    requires Distinct(subs)
    ensures Distinct(Unsubscribed(subs, callback))
    ensures forall x :: x in Unsubscribed(subs, callback) <==> x in subs && x != callback
    ensures callback !in subs ==> Unsubscribed(subs, callback) == subs
  {
    RemoveFirstProperties(subs, callback);
  }

  lemma {:induction false} RemoveFirstAppended<C>(subs: seq<C>, callback: C)
    requires callback !in subs
    ensures RemoveFirst(subs + [callback], callback) == subs
    decreases |subs|
  {
    if subs != [] {
      assert (subs + [callback])[1..] == subs[1..] + [callback];
      RemoveFirstAppended(subs[1..], callback);
    }
  }

  /** Unsubscribing undoes a subscription that added the callback. */
  lemma {:induction false} UnsubscribeUndoesSubscribe<C>(subs: seq<C>, callback: C)
    requires callback !in subs
    ensures Unsubscribed(Subscribed(subs, callback), callback) == subs
  {
    RemoveFirstAppended(subs, callback);
  }

  /** The failed callbacks are exactly the subscribers that raise, so a raising
      subscriber does not hide the others. */
  lemma {:induction false} FailuresExactly<C>(subs: seq<C>, event: ToolUpdateEvent, raises: (C, ToolUpdateEvent) -> bool)
    ensures forall x :: x in Failures(subs, event, raises) <==> x in subs && raises(x, event)
    decreases |subs|
  {
    if subs != [] {
      var init := subs[..|subs| - 1];
      FailuresExactly(init, event, raises);
      assert subs == init + [subs[|subs| - 1]];
    }
  }

  /** A dict whose every entry is keyed by its tool's name. */
  predicate NameKeyed(m: Dict<string, Tool>)
  {
    forall i :: 0 <= i < |m| ==> m[i].1.name == m[i].0
  }

  /** The new map holds one entry per name, keyed by that name; every listed tool's name is
      a key, and the last tool listed wins. */
  lemma {:induction false} ToolMapShape(tools: seq<Tool>)
    ensures KeysDistinct(ToolMap(tools)) && NameKeyed(ToolMap(tools))
    ensures forall n :: n in Keys(ToolMap(tools)) <==> exists t :: t in tools && t.name == n
    ensures tools != [] ==> Get(ToolMap(tools), tools[|tools| - 1].name) == Some(tools[|tools| - 1])
    decreases |tools|
  {
    if tools != [] {
      var init := tools[..|tools| - 1];
      var last := tools[|tools| - 1];
      var m := ToolMap(init);
      ToolMapShape(init);
      PutDistinct(m, last.name, last);
      GetPut(m, last.name, last, last.name);
      PutNameKeyed(m, last);
      assert tools == init + [last];
      ToolMapKeysStep(init, last, m);
    }
  }

  /** Assigning `last` under its name adds exactly its name to the names of `init`. */
  lemma {:induction false} ToolMapKeysStep(init: seq<Tool>, last: Tool, m: Dict<string, Tool>)
    requires forall n :: n in Keys(m) <==> exists t :: t in init && t.name == n
    ensures forall n :: n in Keys(Put(m, last.name, last)) <==> exists t :: t in init + [last] && t.name == n
  {
    PutKeys(m, last.name, last);
    forall n ensures n in Keys(Put(m, last.name, last)) <==> exists t :: t in init + [last] && t.name == n {
      if n in Keys(Put(m, last.name, last)) && n != last.name {
        var t :| t in init && t.name == n;
        assert t in init + [last];
      }
    }
  }

  lemma {:induction false} PutNameKeyed(m: Dict<string, Tool>, t: Tool)
    requires NameKeyed(m)
    ensures NameKeyed(Put(m, t.name, t))
    decreases |m|
  {
    if m != [] && m[0].0 != t.name {
      PutNameKeyed(m[1..], t);
    }
  }

  /** `d[i]`'s key finds `d[i]`'s value when keys are distinct. */
  lemma {:induction false} GetAt<V>(d: Dict<string, V>, i: nat)
    requires KeysDistinct(d) && i < |d|
    ensures Get(d, d[i].0) == Some(d[i].1)
    decreases i
  {
    if i > 0 {
      assert d[1..][i - 1] == d[i];
      GetAt(d[1..], i - 1);
    }
  }

  function Names(tools: seq<Tool>): seq<string>
  {
    seq(|tools|, i requires 0 <= i < |tools| => tools[i].name)
  }

  /** The added tools are exactly the new names not current, the updated ones exactly the
      names in both whose definitions differ. */
  lemma {:induction false} AddedAndUpdated(current: Dict<string, Tool>, entries: Dict<string, Tool>)
    requires NameKeyed(entries) && KeysDistinct(entries)
    ensures forall n :: n in Names(AddedTools(current, entries)) <==> n in Keys(entries) && n !in Keys(current)
    ensures forall n :: n in Names(UpdatedTools(current, entries)) <==>
      n in Keys(entries) && n in Keys(current) && Get(current, n) != Get(entries, n)
    decreases |entries|
  {
    if entries != [] {
      var init := entries[..|entries| - 1];
      var last := entries[|entries| - 1];
      assert entries == init + [last];
      assert NameKeyed(init) && KeysDistinct(init);
      AddedAndUpdated(current, init);
      assert Keys(entries) == Keys(init) + [last.0];
      var a, u := AddedTools(current, init), UpdatedTools(current, init);
      assert Names(AddedTools(current, entries)) ==
        Names(a) + (if last.0 !in Keys(current) then [last.0] else []);
      assert Names(UpdatedTools(current, entries)) ==
        Names(u) + (if last.0 in Keys(current) && Get(current, last.0) != Some(last.1) then [last.0] else []);
      GetAt(entries, |entries| - 1);
      forall n | n in Keys(init)
        ensures Get(entries, n) == Get(init, n) && n != last.0
      {
        var k :| 0 <= k < |init| && init[k].0 == n;
        GetAt(entries, k);
        GetAt(init, k);
      }
    }
  }

  /** The removed names are exactly the current names missing from the new map. */
  lemma {:induction false} RemovedExactly(entries: Dict<string, Tool>, newMap: Dict<string, Tool>)
    ensures forall n :: n in RemovedNames(entries, newMap) <==> n in Keys(entries) && n !in Keys(newMap)
    decreases |entries|
  {
    if entries != [] {
      var init := entries[..|entries| - 1];
      RemovedExactly(init, newMap);
      assert Keys(entries) == Keys(init) + [entries[|entries| - 1].0];
    }
  }

  /** The event carries the three lists; its type names the single kind of change when
      there is one and is a list change otherwise. */
  lemma {:induction false} EventClassification(added: seq<Tool>, removed: seq<string>, updated: seq<Tool>)
    ensures var e := EventFor(added, removed, updated);
      e.newToolDefs == added && e.removedToolNames == removed && e.updatedToolDefs == updated &&
      (e.eventType == Added <==> added != [] && removed == [] && updated == []) &&
      (e.eventType == Removed <==> removed != [] && added == [] && updated == []) &&
      (e.eventType == Updated <==> updated != [] && added == [] && removed == [])
  {
  }

  /** Receiving the current tool list again still notifies, as a list change with
      nothing in it. */
  lemma {:induction false} UnchangedListNotifies(current: Dict<string, Tool>)
    requires NameKeyed(current) && KeysDistinct(current)
    ensures Diffed(current, current) == ToolUpdateEvent(ListChanged, [], [], [])
  {
    AddedAndUpdated(current, current);
    RemovedExactly(current, current);
    if AddedTools(current, current) != [] {
      assert Names(AddedTools(current, current))[0] in Names(AddedTools(current, current));
    }
    if UpdatedTools(current, current) != [] {
      assert Names(UpdatedTools(current, current))[0] in Names(UpdatedTools(current, current));
    }
    if RemovedNames(current, current) != [] {
      assert RemovedNames(current, current)[0] in RemovedNames(current, current);
    }
  }
}
