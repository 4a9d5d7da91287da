/**
 * The configuration-driven tool registry (`ToolRegistry` in
 * `tools/core/utils/tool_registry.py`): visible and hidden tools in two dicts whose names
 * never overlap, the results of the last configuration load, and the visible tools'
 * definitions.
 *
 * Building a tool from its definition (`create_tool_from_config` with the discovered
 * classes) is a parameter; logging and the summary it prints are not modelled.
 */
module ConfigToolRegistry {
  import opened Wrappers
  import JsonValue
  import opened PyDict
  import opened ToolBuilder

  /** `registration_results`. */
  datatype Results = Results(successful: seq<string>, hiddenSuccessful: seq<string>, failed: seq<(string, string)>)

  const NoResults := Results([], [], [])

  datatype RegistryState = RegistryState(
    tools: Dict<string, ToolInstance>,
    hiddenTools: Dict<string, ToolInstance>,
    results: Results)

  /** `register_tool(name, tool, hidden)`: the new state, and the `ValueError` message
      when it raised. */
  function Registered(s: RegistryState, name: string, tool: ToolInstance, hidden: bool): (RegistryState, Option<string>)
  {
    if name in Keys(s.tools) || name in Keys(s.hiddenTools) then
      (s.(results := s.results.(failed := s.results.failed + [(name, "Already registered")])),
       Some("Tool with name '" + name + "' is already registered."))
    else if hidden then
      (s.(hiddenTools := Put(s.hiddenTools, name, tool),
          results := s.results.(hiddenSuccessful := s.results.hiddenSuccessful + [name])), None)
    else
      (s.(tools := Put(s.tools, name, tool),
          results := s.results.(successful := s.results.successful + [name])), None)
  }

  /** The name a definition is registered under. */
  function ConfigName(def: ToolDef): string
  {
    def.name.GetOr("<unnamed>")
  }

  /** One iteration of the loop of `load_from_config`: a failure to build or register the
      tool is recorded, never raised. */
  function LoadStep(s: RegistryState, def: ToolDef, create: ToolDef -> Result<ToolInstance>): RegistryState
  {
    var name := ConfigName(def);
    match create(def)
    case Failure(e) => s.(results := s.results.(failed := s.results.failed + [(name, e)]))
    case Success(instance) =>
      var (next, raised) := Registered(s, name, instance, def.hidden);
      if raised.Some? then next.(results := next.results.(failed := next.results.failed + [(name, raised.value)]))
      else next
  }

  function LoadSteps(s: RegistryState, defs: seq<ToolDef>, create: ToolDef -> Result<ToolInstance>): RegistryState
  {
    if defs == [] then s else LoadStep(LoadSteps(s, defs[..|defs| - 1], create), defs[|defs| - 1], create)
  }

  /** `load_from_config(tool_configs)`: the results start over; the tools stay. */
  function Loaded(s: RegistryState, defs: seq<ToolDef>, create: ToolDef -> Result<ToolInstance>): RegistryState
  {
    LoadSteps(s.(results := NoResults), defs, create)
  }

  /** The definitions of the visible tools that have a name and whose definition can be
      built, in insertion order. */
  function Definitions(tools: Dict<string, ToolInstance>): seq<JsonValue.Json>
  {
    if tools == [] then []
    else
      var t := tools[|tools| - 1].1;
      Definitions(tools[..|tools| - 1]) +
        (if t.name.Some? && t.definition.Some? then [t.definition.value] else [])
  }

  class ToolRegistry {
    var tools: Dict<string, ToolInstance>
    var hiddenTools: Dict<string, ToolInstance>
    var results: Results

    function State(): RegistryState
      reads this
    {
      RegistryState(tools, hiddenTools, results)
    }

    constructor()
      ensures State() == RegistryState([], [], NoResults)
    {
      tools, hiddenTools, results := [], [], NoResults;
    }

    method RegisterTool(name: string, tool: ToolInstance, hidden: bool) returns (raised: Option<string>)
      modifies this
      ensures (State(), raised) == Registered(old(State()), name, tool, hidden)
    {
      if name in Keys(tools) || name in Keys(hiddenTools) {
        results := results.(failed := results.failed + [(name, "Already registered")]);
        return Some("Tool with name '" + name + "' is already registered.");
      }
      if hidden {
        hiddenTools := Put(hiddenTools, name, tool);
        results := results.(hiddenSuccessful := results.hiddenSuccessful + [name]);
      } else {
        tools := Put(tools, name, tool);
        results := results.(successful := results.successful + [name]);
      }
      raised := None;
    }

    /** `get_tool`: only visible tools. */
    method GetTool(name: string) returns (tool: Option<ToolInstance>)
      ensures tool == Get(tools, name)
      ensures tool.Some? ==> name in Keys(tools)
    {
      GetFound(tools, name);
      tool := Get(tools, name);
    }

    /** `get_hidden_tool`: only hidden tools. */
    method GetHiddenTool(name: string) returns (tool: Option<ToolInstance>)
      ensures tool == Get(hiddenTools, name)
      ensures tool.Some? ==> name in Keys(hiddenTools)
    {
      GetFound(hiddenTools, name);
      tool := Get(hiddenTools, name);
    }

    /** `get_tool_definitions`: tools without a name, or whose definition raises, are
        logged and skipped. */
    method GetToolDefinitions() returns (definitions: seq<JsonValue.Json>)
      ensures definitions == Definitions(tools)
    {
      definitions := [];
      var i := 0;
      while i < |tools|
        invariant 0 <= i <= |tools|
        invariant definitions == Definitions(tools[..i])
      {
        var tool := tools[i].1;
        assert tools[..i + 1][..i] == tools[..i];
        if tool.name.Some? && tool.definition.Some? {
          definitions := definitions + [tool.definition.value];
        }
        i := i + 1;
      }
      assert tools[..i] == tools;
    }

    method LoadFromConfig(defs: seq<ToolDef>, create: ToolDef -> Result<ToolInstance>)
      modifies this
      ensures State() == Loaded(old(State()), defs, create)
    {
      results := NoResults;
      ghost var start := State();
      var i := 0;
      while i < |defs|
        invariant 0 <= i <= |defs|
        invariant State() == LoadSteps(start, defs[..i], create)
      {
        var def := defs[i];
        assert defs[..i + 1][..i] == defs[..i];
        var name := ConfigName(def);
        match create(def) {
          case Failure(e) =>
            results := results.(failed := results.failed + [(name, e)]);
          case Success(instance) =>
            var raised := RegisterTool(name, instance, def.hidden);
            if raised.Some? {
              results := results.(failed := results.failed + [(name, raised.value)]);
            }
        }
        i := i + 1;
      }
      assert defs[..i] == defs;
    }
  }

  // ----- properties -----

  /** Names are unique within each dict and never in both. */
  predicate Inv(s: RegistryState)
  {
    KeysDistinct(s.tools) && KeysDistinct(s.hiddenTools) &&
    forall n :: n in Keys(s.tools) ==> n !in Keys(s.hiddenTools)
  }

  /** A name already registered, visible or hidden, is refused: both dicts stay as they
      were and the refusal is recorded. */
  lemma {:induction false} DuplicateRefused(s: RegistryState, name: string, tool: ToolInstance, hidden: bool)
    requires name in Keys(s.tools) || name in Keys(s.hiddenTools)
    ensures var (next, raised) := Registered(s, name, tool, hidden);
      raised == Some("Tool with name '" + name + "' is already registered.") &&
      next.tools == s.tools && next.hiddenTools == s.hiddenTools &&
      next.results.failed == s.results.failed + [(name, "Already registered")]
  {
  }

  /** A new name lands in exactly one dict: a hidden tool is found only by
      `get_hidden_tool`, a visible one only by `get_tool`. */
  lemma {:induction false} NewNameLands(s: RegistryState, name: string, tool: ToolInstance, hidden: bool)
    requires Inv(s)
    requires name !in Keys(s.tools) && name !in Keys(s.hiddenTools)
    ensures var (next, raised) := Registered(s, name, tool, hidden);
      raised.None? && Inv(next) &&
      (hidden ==> Get(next.hiddenTools, name) == Some(tool) && Get(next.tools, name) == None &&
                  next.tools == s.tools && next.results.hiddenSuccessful == s.results.hiddenSuccessful + [name]) &&
      (!hidden ==> Get(next.tools, name) == Some(tool) && Get(next.hiddenTools, name) == None &&
                   next.hiddenTools == s.hiddenTools && next.results.successful == s.results.successful + [name])
  {
    GetFound(s.tools, name);
    GetFound(s.hiddenTools, name);
    GetPut(s.tools, name, tool, name);
    GetPut(s.hiddenTools, name, tool, name);
    PutKeys(s.tools, name, tool);
    PutKeys(s.hiddenTools, name, tool);
    PutDistinct(s.tools, name, tool);
    PutDistinct(s.hiddenTools, name, tool);
  }

  lemma {:induction false} RegisteredKeepsInv(s: RegistryState, name: string, tool: ToolInstance, hidden: bool)
    requires Inv(s)
    ensures Inv(Registered(s, name, tool, hidden).0)
  {
    if name !in Keys(s.tools) && name !in Keys(s.hiddenTools) {
      NewNameLands(s, name, tool, hidden);
    }
  }

  /** All the entries of the results. */
  function Recorded(r: Results): nat
  {
    |r.successful| + |r.hiddenSuccessful| + |r.failed|
  }

  /** Each configuration is recorded once (a success or a failure), except a duplicate
      name, which is recorded as failed twice: once by `register_tool` and once by the
      loop that catches its exception. */
  lemma {:induction false} LoadStepRecords(s: RegistryState, def: ToolDef, create: ToolDef -> Result<ToolInstance>)
    ensures var next := LoadStep(s, def, create);
      var name := ConfigName(def);
      Recorded(next.results) == Recorded(s.results) +
        (if create(def).Success? && (name in Keys(s.tools) || name in Keys(s.hiddenTools)) then 2 else 1)
    ensures create(def).Success? && (ConfigName(def) in Keys(s.tools) || ConfigName(def) in Keys(s.hiddenTools)) ==>
      LoadStep(s, def, create).results.failed == s.results.failed +
        [(ConfigName(def), "Already registered"),
         (ConfigName(def), "Tool with name '" + ConfigName(def) + "' is already registered.")]
  {
  }

  /** A load keeps the names unique and records every configuration at least once and
      at most twice; the results of earlier loads are gone. */
  lemma {:induction false} LoadRecordsEach(s: RegistryState, defs: seq<ToolDef>, create: ToolDef -> Result<ToolInstance>)
    requires Inv(s)
    ensures Inv(LoadSteps(s, defs, create))
    ensures Recorded(s.results) + |defs| <= Recorded(LoadSteps(s, defs, create).results) <= Recorded(s.results) + 2 * |defs|
    decreases |defs|
  {
    if defs != [] {
      var prev := LoadSteps(s, defs[..|defs| - 1], create);
      LoadRecordsEach(s, defs[..|defs| - 1], create);
      LoadStepRecords(prev, defs[|defs| - 1], create);
      var def := defs[|defs| - 1];
      if create(def).Success? {
        RegisteredKeepsInv(prev, ConfigName(def), create(def).value, def.hidden);
      }
    }
  }

  lemma {:induction false} LoadedRecordsEach(s: RegistryState, defs: seq<ToolDef>, create: ToolDef -> Result<ToolInstance>)
    requires Inv(s)
    ensures Inv(Loaded(s, defs, create))
    ensures |defs| <= Recorded(Loaded(s, defs, create).results) <= 2 * |defs|
  {
    LoadRecordsEach(s.(results := NoResults), defs, create);
  }

  /** The definitions are exactly those of the visible tools with a name and a
      buildable definition, and there are never more of them than visible tools. */
  lemma {:induction false} DefinitionsExactly(tools: Dict<string, ToolInstance>)
    ensures |Definitions(tools)| <= |tools|
    ensures forall d :: d in Definitions(tools) <==>
      exists i :: 0 <= i < |tools| && tools[i].1.name.Some? && tools[i].1.definition == Some(d)
    decreases |tools|
  {
    if tools != [] {
      var init := tools[..|tools| - 1];
      DefinitionsExactly(init);
      forall d ensures d in Definitions(tools) <==>
        exists i :: 0 <= i < |tools| && tools[i].1.name.Some? && tools[i].1.definition == Some(d)
      {
        if d in Definitions(init) {
          var i :| 0 <= i < |init| && init[i].1.name.Some? && init[i].1.definition == Some(d);
          assert tools[i] == init[i];
        }
        if exists i :: 0 <= i < |tools| && tools[i].1.name.Some? && tools[i].1.definition == Some(d) {
          var i :| 0 <= i < |tools| && tools[i].1.name.Some? && tools[i].1.definition == Some(d);
          if i < |init| {
            assert init[i] == tools[i];
          }
        }
      }
    }
  }
}
