/**
 * The decorator-based singleton registry (`ToolRegistry` in `tools/core/tool_registry.py`):
 * tool classes register themselves, with a visibility flag, in a table shared by the
 * class; the single registry instance builds one tool per registered class on its first
 * construction and keeps visible and hidden tools in two dicts keyed by the tools' names.
 *
 * The class object (its `_instance` and `_registered_tool_classes`) is a class of its
 * own. Discovering implementation modules is not modelled: the table is whatever the
 * decorators put in it. Tool constructors are a parameter.
 */
module DecoratorToolRegistry {
  import opened Wrappers
  import JsonValue
  import opened PyDict
  import opened ToolBuilder

  /** A class being decorated, with its `name` attribute when that is a string. */
  datatype Decorated = Decorated(cls: ToolClass, nameAttr: Option<string>)

  /** `_registered_tool_classes`: name to class and hidden flag. */
  type ClassTable = Dict<string, (ToolClass, bool)>

  /** A dict of tools keyed by their `name` attribute (`None` included, as Python allows). */
  type Tools = Dict<Option<string>, ToolInstance>

  /** The decorator `register_tool(hidden)` applied to a class: the new table, and the
      `ValueError` message when the class has no string `name`. */
  function Decorate(table: ClassTable, d: Decorated, hidden: bool): (ClassTable, Option<string>)
  {
    if d.nameAttr.None? then
      (table, Some("Tool class '" + d.cls.className + "' must define a 'name' attribute as a string."))
    else (Put(table, d.nameAttr.value, (d.cls, hidden)), None)
  }

  /** `register_tool_instance(tool, hidden)`: the visible and hidden dicts after it. */
  function Placed(tools: Tools, hiddenTools: Tools, tool: ToolInstance, hidden: bool): (Tools, Tools)
  {
    if hidden then (tools, Put(hiddenTools, tool.name, tool)) else (Put(tools, tool.name, tool), hiddenTools)
  }

  datatype Instances = Instances(tools: Tools, hiddenTools: Tools, failures: seq<string>)

  /** One iteration of `_initialize_registered_tools`: the class is built with its entry
      in the configuration when that is truthy, with no configuration otherwise. */
  function InitStep(
    s: Instances, entry: (string, (ToolClass, bool)), config: seq<(string, JsonValue.Json)>,
    construct: (ToolClass, Option<JsonValue.Json>) -> Result<ToolInstance>): Instances
  {
    match construct(entry.1.0, JsonValue.TruthyGet(config, entry.0))
    case Failure(e) => s.(failures := s.failures + [entry.0 + ": " + e])
    case Success(tool) =>
      var (t, h) := Placed(s.tools, s.hiddenTools, tool, entry.1.1);
      s.(tools := t, hiddenTools := h)
  }

  function InitSteps(
    s: Instances, entries: ClassTable, config: seq<(string, JsonValue.Json)>,
    construct: (ToolClass, Option<JsonValue.Json>) -> Result<ToolInstance>): Instances
  {
    if entries == [] then s
    else InitStep(InitSteps(s, entries[..|entries| - 1], config, construct), entries[|entries| - 1], config, construct)
  }

  class ToolRegistry {
    var tools: Tools
    var hiddenTools: Tools
    var config: seq<(string, JsonValue.Json)>
    var initialized: bool

    /** The object `__new__` allocates, before `__init__` has set anything. */
    constructor()
      ensures tools == [] && hiddenTools == [] && config == [] && !initialized
    {
      tools, hiddenTools, config, initialized := [], [], [], false;
    }

    /** `__init__(config)`: the body runs only on an object not yet initialized; a missing
        configuration is the empty one. */
    method Init(cfg: seq<(string, JsonValue.Json)>, classes: ClassTable,
                construct: (ToolClass, Option<JsonValue.Json>) -> Result<ToolInstance>)
      returns (failures: seq<string>)
      modifies this
      ensures old(initialized) ==> unchanged(this) && failures == []
      ensures !old(initialized) ==> (initialized && config == cfg &&
        Instances(tools, hiddenTools, failures) ==
          if cfg != [] then InitSteps(Instances([], [], []), classes, cfg, construct) else Instances([], [], []))
    {
      failures := [];
      if !initialized {
        tools, hiddenTools, config, initialized := [], [], cfg, true;
        if cfg != [] {
          failures := InitializeRegisteredTools(classes, construct);
        }
      }
    }

    /** `_initialize_registered_tools`: a class whose construction fails is recorded as
        `"name: error"` and the others are still built. */
    method InitializeRegisteredTools(classes: ClassTable, construct: (ToolClass, Option<JsonValue.Json>) -> Result<ToolInstance>)
      returns (failures: seq<string>)
      modifies this
      ensures config == old(config) && initialized == old(initialized)
      ensures Instances(tools, hiddenTools, failures) ==
        InitSteps(Instances(old(tools), old(hiddenTools), []), classes, config, construct)
    {
      failures := [];
      ghost var start := Instances(tools, hiddenTools, []);
      var i := 0;
      while i < |classes|
        invariant 0 <= i <= |classes|
        invariant config == old(config) && initialized == old(initialized)
        invariant Instances(tools, hiddenTools, failures) == InitSteps(start, classes[..i], config, construct)
      {
        var (name, (cls, hidden)) := classes[i];
        assert classes[..i + 1][..i] == classes[..i];
        match construct(cls, JsonValue.TruthyGet(config, name)) {
          case Failure(e) =>
            failures := failures + [name + ": " + e];
          case Success(tool) =>
            RegisterToolInstance(tool, hidden);
        }
        i := i + 1;
      }
      assert classes[..i] == classes;
    }

    method RegisterToolInstance(tool: ToolInstance, hidden: bool)
      modifies this
      ensures (tools, hiddenTools) == Placed(old(tools), old(hiddenTools), tool, hidden)
      ensures config == old(config) && initialized == old(initialized)
    {
      if hidden {
        hiddenTools := Put(hiddenTools, tool.name, tool);
      } else {
        tools := Put(tools, tool.name, tool);
      }
    }

    method GetTool(name: string) returns (tool: Option<ToolInstance>)
      ensures tool == Get(tools, Some(name))
      ensures tool.Some? ==> Some(name) in Keys(tools)
    {
      GetFound(tools, Some(name));
      tool := Get(tools, Some(name));
    }

    method GetHiddenTool(name: string) returns (tool: Option<ToolInstance>)
      ensures tool == Get(hiddenTools, Some(name))
      ensures tool.Some? ==> Some(name) in Keys(hiddenTools)
    {
      GetFound(hiddenTools, Some(name));
      tool := Get(hiddenTools, Some(name));
    }

    /** `get_tool_definitions`: one per visible tool, or `None` when one raises. */
    method GetToolDefinitions() returns (definitions: Option<seq<JsonValue.Json>>)
      ensures definitions.Some? ==> |definitions.value| == |tools|
      ensures definitions.Some? <==> forall i :: 0 <= i < |tools| ==> tools[i].1.definition.Some?
      ensures definitions == DefinitionsOf(Values(tools))
    {
      DefinitionsOfAll(Values(tools));
      definitions := DefinitionsOf(Values(tools));
    }
  }

  /** The class object: the singleton instance and the table the decorator fills. */
  class ToolRegistryClass {
    var instance: ToolRegistry?
    var registeredToolClasses: ClassTable

    constructor()
      ensures instance == null && registeredToolClasses == []
    {
      instance, registeredToolClasses := null, [];
    }

    method RegisterTool(d: Decorated, hidden: bool) returns (raised: Option<string>)
      modifies this
      ensures (registeredToolClasses, raised) == Decorate(old(registeredToolClasses), d, hidden)
      ensures instance == old(instance)
    {
      if d.nameAttr.None? {
        return Some("Tool class '" + d.cls.className + "' must define a 'name' attribute as a string.");
      }
      registeredToolClasses := Put(registeredToolClasses, d.nameAttr.value, (d.cls, hidden));
      raised := None;
    }

    /** `ToolRegistry(config)`: `__new__` hands out the one instance, and `__init__` does
        its work only the first time. */
    method New(cfg: seq<(string, JsonValue.Json)>, construct: (ToolClass, Option<JsonValue.Json>) -> Result<ToolInstance>)
      returns (r: ToolRegistry, failures: seq<string>)
      modifies this, instance
      ensures instance == r && r.initialized
      ensures old(instance) != null && old(instance.initialized) ==> r == old(instance) && unchanged(r) && failures == []
      ensures old(instance) == null ==> (fresh(r) && r.config == cfg &&
        Instances(r.tools, r.hiddenTools, failures) ==
          if cfg != [] then InitSteps(Instances([], [], []), registeredToolClasses, cfg, construct) else Instances([], [], []))
      ensures registeredToolClasses == old(registeredToolClasses)
    {
      if instance == null {
        r := new ToolRegistry();
        instance := r;
      } else {
        r := instance;
      }
      failures := r.Init(cfg, registeredToolClasses, construct);
    }
  }

  // ----- properties -----

  /** The decorator refuses a class without a string `name` and leaves the table alone;
      otherwise it records the class and flag under that name, replacing any earlier one,
      and every other name keeps its entry. */
  lemma {:induction false} DecorateRecords(table: ClassTable, d: Decorated, hidden: bool, other: string)
    ensures d.nameAttr.None? ==> Decorate(table, d, hidden).0 == table && Decorate(table, d, hidden).1.Some?
    ensures d.nameAttr.Some? ==>
      Decorate(table, d, hidden).1.None? &&
      Get(Decorate(table, d, hidden).0, d.nameAttr.value) == Some((d.cls, hidden)) &&
      (other != d.nameAttr.value ==> Get(Decorate(table, d, hidden).0, other) == Get(table, other))
  {
    if d.nameAttr.Some? {
      GetPut(table, d.nameAttr.value, (d.cls, hidden), d.nameAttr.value);
      GetPut(table, d.nameAttr.value, (d.cls, hidden), other);
    }
  }

  /** A placed tool is found under its name in the dict its flag selects, replacing a
      same-named one; the other dict is untouched. */
  lemma {:induction false} PlacedVisibility(tools: Tools, hiddenTools: Tools, tool: ToolInstance, hidden: bool)
    ensures var (t, h) := Placed(tools, hiddenTools, tool, hidden);
      (hidden ==> Get(h, tool.name) == Some(tool) && t == tools) &&
      (!hidden ==> Get(t, tool.name) == Some(tool) && h == hiddenTools)
  {
    GetPut(tools, tool.name, tool, tool.name);
    GetPut(hiddenTools, tool.name, tool, tool.name);
  }

  /** A class that fails to construct adds exactly its `"name: error"` line to the
      failures, and the dicts stay as they were. */
  lemma {:induction false} InitFailureRecorded(
    s: Instances, entry: (string, (ToolClass, bool)), config: seq<(string, JsonValue.Json)>,
    construct: (ToolClass, Option<JsonValue.Json>) -> Result<ToolInstance>)
    requires construct(entry.1.0, JsonValue.TruthyGet(config, entry.0)).Failure?
    ensures InitStep(s, entry, config, construct) ==
      s.(failures := s.failures + [entry.0 + ": " + construct(entry.1.0, JsonValue.TruthyGet(config, entry.0)).error])
  {
  }

  /** Whether entry `j` builds a tool named `name` into the dict selected by `hidden`. */
  predicate BuildsInto(
    entries: ClassTable, j: int, name: Option<string>, hidden: bool, config: seq<(string, JsonValue.Json)>,
    construct: (ToolClass, Option<JsonValue.Json>) -> Result<ToolInstance>)
    requires 0 <= j < |entries|
  {
    var r := construct(entries[j].1.0, JsonValue.TruthyGet(config, entries[j].0));
    r.Success? && r.value.name == name && entries[j].1.1 == hidden
  }

  /** Failures do not stop the others: a tool built from entry `i` is in its dict at the
      end unless a later entry builds a tool of the same name into the same dict. */
  lemma {:induction false} BuiltToolKept(
    s: Instances, entries: ClassTable, config: seq<(string, JsonValue.Json)>,
    construct: (ToolClass, Option<JsonValue.Json>) -> Result<ToolInstance>, i: nat)
    requires i < |entries|
    requires construct(entries[i].1.0, JsonValue.TruthyGet(config, entries[i].0)).Success?
    requires var tool := construct(entries[i].1.0, JsonValue.TruthyGet(config, entries[i].0)).value;
      forall j :: i < j < |entries| ==> !BuildsInto(entries, j, tool.name, entries[i].1.1, config, construct)
    ensures var tool := construct(entries[i].1.0, JsonValue.TruthyGet(config, entries[i].0)).value;
      var final := InitSteps(s, entries, config, construct);
      Get(if entries[i].1.1 then final.hiddenTools else final.tools, tool.name) == Some(tool)
    decreases |entries|
  {
    var tool := construct(entries[i].1.0, JsonValue.TruthyGet(config, entries[i].0)).value;
    var hidden := entries[i].1.1;
    var init := entries[..|entries| - 1];
    var last := entries[|entries| - 1];
    var prev := InitSteps(s, init, config, construct);
    if i == |entries| - 1 {
      PlacedVisibility(prev.tools, prev.hiddenTools, tool, hidden);
    } else {
      assert init[i] == entries[i];
      forall j | i < j < |init|
        ensures !BuildsInto(init, j, tool.name, hidden, config, construct)
      {
        assert init[j] == entries[j];
        assert !BuildsInto(entries, j, tool.name, hidden, config, construct);
      }
      BuiltToolKept(s, init, config, construct, i);
      assert !BuildsInto(entries, |entries| - 1, tool.name, hidden, config, construct);
      var r := construct(last.1.0, JsonValue.TruthyGet(config, last.0));
      if r.Success? {
        GetPut(prev.tools, r.value.name, r.value, tool.name);
        GetPut(prev.hiddenTools, r.value.name, r.value, tool.name);
      }
    }
  }
}
