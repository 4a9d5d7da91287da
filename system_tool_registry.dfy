/**
 * The system tool registry (`ToolRegistry` in `tools/tool_registry.py`): on construction
 * it builds the weather tool and then the Wikipedia tool, each only when the
 * configuration has a truthy entry for it, and keeps them in one dict keyed by the
 * tools' names. A construction failure propagates out of the constructor. Nothing ever
 * writes its hidden-tool dict.
 *
 * The tool classes' constructors are a parameter, given the configuration key of the
 * tool being built and its configuration.
 */
module SystemToolRegistry {
  import opened Wrappers
  import JsonValue
  import opened PyDict
  import opened ToolBuilder

  type Tools = Dict<Option<string>, ToolInstance>

  type Build = (string, JsonValue.Json) -> Result<ToolInstance>

  /** The configuration keys of the tools built, in the order they are built. */
  const SystemToolKeys: seq<string> := ["weather_tool", "wikipedia_tool"]

  /** Building and registering the tool for `key`: nothing when its configuration is
      missing or falsy, the constructor's error when it raises. */
  function RegisterStep(tools: Tools, key: string, config: seq<(string, JsonValue.Json)>, build: Build): Result<Tools>
  {
    match JsonValue.TruthyGet(config, key)
    case None => Success(tools)
    case Some(c) =>
      match build(key, c)
      case Failure(e) => Failure(e)
      case Success(tool) => Success(Put(tools, tool.name, tool))
  }

  /** `_register_tools` over the given keys, stopping at the first failure. */
  function RegisterAll(tools: Tools, keys: seq<string>, config: seq<(string, JsonValue.Json)>, build: Build): Result<Tools>
    decreases |keys|
  {
    if keys == [] then Success(tools)
    else
      match RegisterStep(tools, keys[0], config, build)
      case Failure(e) => Failure(e)
      case Success(t) => RegisterAll(t, keys[1..], config, build)
  }

  class ToolRegistry {
    var tools: Tools
    const hiddenTools: Tools
    const config: seq<(string, JsonValue.Json)>

    /** The dicts as `__init__` sets them up before registering anything. */
    constructor Empty(cfg: seq<(string, JsonValue.Json)>)
      ensures tools == [] && hiddenTools == [] && config == cfg
    {
      tools, hiddenTools, config := [], [], cfg;
    }

    /** `hidden_tools` stays empty. */
    predicate Valid()
      reads this
    {
      hiddenTools == []
    }

    /** `ToolRegistry(config)`: the registry, or the error a tool constructor raised. */
    static method New(cfg: seq<(string, JsonValue.Json)>, build: Build) returns (r: ToolRegistry?, raised: Option<string>)
      ensures r == null <==> raised.Some?
      ensures RegisterAll([], SystemToolKeys, cfg, build).Failure? ==>
        raised == Some(RegisterAll([], SystemToolKeys, cfg, build).error)
      ensures RegisterAll([], SystemToolKeys, cfg, build).Success? ==>
        (r != null && fresh(r) && r.Valid() && r.config == cfg &&
         r.tools == RegisterAll([], SystemToolKeys, cfg, build).value)
    {
      var reg := new ToolRegistry.Empty(cfg);
      raised := reg.RegisterTools(build);
      r := if raised.None? then reg else null;
    }

    /** `_register_tools`. */
    method RegisterTools(build: Build) returns (raised: Option<string>)
      modifies this
      ensures var res := RegisterAll(old(tools), SystemToolKeys, config, build);
        (res.Failure? <==> raised.Some?) &&
        (res.Failure? ==> raised.value == res.error) &&
        (res.Success? ==> tools == res.value)
    {
      raised := None;
      var i := 0;
      while i < |SystemToolKeys|
        invariant 0 <= i <= |SystemToolKeys|
        invariant RegisterAll(old(tools), SystemToolKeys, config, build) ==
          RegisterAll(tools, SystemToolKeys[i..], config, build)
      {
        var key := SystemToolKeys[i];
        assert SystemToolKeys[i..][1..] == SystemToolKeys[i + 1..];
        var c := JsonValue.TruthyGet(config, key);
        if c.Some? {
          var built := build(key, c.value);
          if built.Failure? {
            return Some(built.error);
          }
          RegisterTool(built.value);
        }
        i := i + 1;
      }
    }

    /** `register_tool(tool)`: a tool with the same name is replaced. */
    method RegisterTool(tool: ToolInstance)
      modifies this
      ensures tools == Put(old(tools), tool.name, tool)
      ensures Get(tools, tool.name) == Some(tool)
      ensures forall n :: n != tool.name ==> Get(tools, n) == Get(old(tools), n)
    {
      forall n {
        GetPut(tools, tool.name, tool, n);
      }
      tools := Put(tools, tool.name, tool);
    }

    method GetTool(name: string) returns (tool: Option<ToolInstance>)
      ensures tool == Get(tools, Some(name))
      ensures tool.None? <==> Some(name) !in Keys(tools)
    {
      GetFound(tools, Some(name));
      tool := Get(tools, Some(name));
    }

    /** `get_hidden_tool`: always `None`, as nothing is ever hidden here. */
    method GetHiddenTool(name: string) returns (tool: Option<ToolInstance>)
      requires Valid()
      ensures tool == None
    {
      tool := Get(hiddenTools, Some(name));
    }

    method GetToolDefinitions() returns (definitions: Option<seq<JsonValue.Json>>)
      ensures definitions.Some? <==> forall i :: 0 <= i < |tools| ==> tools[i].1.definition.Some?
      ensures definitions.Some? ==>
        |definitions.value| == |tools| &&
        forall i :: 0 <= i < |tools| ==> definitions.value[i] == tools[i].1.definition.value
    {
      DefinitionsOfAll(Values(tools));
      definitions := DefinitionsOf(Values(tools));
    }
  }

  // ----- properties -----

  /** A tool is built only for a key whose configuration is truthy. */
  predicate Configured(config: seq<(string, JsonValue.Json)>, key: string)
  {
    JsonValue.TruthyGet(config, key).Some?
  }

  /** Registration fails exactly when a configured tool's constructor raises, and then
      with the first such error. */
  lemma {:induction false} RegisterAllFails(tools: Tools, keys: seq<string>, config: seq<(string, JsonValue.Json)>, build: Build)
    ensures RegisterAll(tools, keys, config, build).Failure? <==>
      exists i :: 0 <= i < |keys| && Configured(config, keys[i]) &&
        build(keys[i], JsonValue.TruthyGet(config, keys[i]).value).Failure?
    decreases |keys|
  {
    if keys != [] {
      match RegisterStep(tools, keys[0], config, build)
      case Failure(_) =>
      case Success(t) =>
        RegisterAllFails(t, keys[1..], config, build);
        if exists i :: (0 <= i < |keys| && Configured(config, keys[i]) &&
          build(keys[i], JsonValue.TruthyGet(config, keys[i]).value).Failure?)
        {
          var i :| 0 <= i < |keys| && Configured(config, keys[i]) &&
            build(keys[i], JsonValue.TruthyGet(config, keys[i]).value).Failure?;
          assert i > 0;
          assert keys[1..][i - 1] == keys[i];
        }
    }
  }

  /** On success every registered name holds what it held before or a tool built from a
      configured key. */
  lemma {:induction false} RegisterAllContents(tools: Tools, keys: seq<string>, config: seq<(string, JsonValue.Json)>, build: Build)
    requires RegisterAll(tools, keys, config, build).Success?
    ensures forall n :: Get(RegisterAll(tools, keys, config, build).value, n).Some? ==>
      Get(RegisterAll(tools, keys, config, build).value, n) == Get(tools, n) ||
      exists i :: (0 <= i < |keys| && Configured(config, keys[i]) &&
        build(keys[i], JsonValue.TruthyGet(config, keys[i]).value) == Success(Get(RegisterAll(tools, keys, config, build).value, n).value))
    decreases |keys|
  {
    if keys != [] {
      var t := RegisterStep(tools, keys[0], config, build).value;
      var final := RegisterAll(tools, keys, config, build).value;
      assert RegisterAll(t, keys[1..], config, build).value == final;
      RegisterAllContents(t, keys[1..], config, build);
      forall n | Get(final, n).Some?
        ensures Get(final, n) == Get(tools, n) ||
          exists i :: (0 <= i < |keys| && Configured(config, keys[i]) &&
            build(keys[i], JsonValue.TruthyGet(config, keys[i]).value) == Success(Get(final, n).value))
      {
        if exists i :: (0 <= i < |keys[1..]| && Configured(config, keys[1..][i]) &&
          build(keys[1..][i], JsonValue.TruthyGet(config, keys[1..][i]).value) == Success(Get(final, n).value))
        {
          var i :| 0 <= i < |keys[1..]| && Configured(config, keys[1..][i]) &&
            build(keys[1..][i], JsonValue.TruthyGet(config, keys[1..][i]).value) == Success(Get(final, n).value);
          assert keys[1..][i] == keys[i + 1];
        } else if Configured(config, keys[0]) {
          var tool := build(keys[0], JsonValue.TruthyGet(config, keys[0]).value).value;
          GetPut(tools, tool.name, tool, n);
          if n == tool.name {
            assert build(keys[0], JsonValue.TruthyGet(config, keys[0]).value) == Success(Get(final, n).value);
          }
        }
      }
    }
  }

  /** With neither tool configured nothing is built and the registry is empty. */
  lemma {:induction false} NothingConfigured(config: seq<(string, JsonValue.Json)>, build: Build)
    requires !Configured(config, "weather_tool") && !Configured(config, "wikipedia_tool")
    ensures RegisterAll([], SystemToolKeys, config, build) == Success([])
  {
    assert SystemToolKeys[1..][1..] == [];
  }

  /** The Wikipedia tool's constructor is not reached when the weather tool's raises. */
  lemma {:induction false} WeatherFailureStops(config: seq<(string, JsonValue.Json)>, build: Build)
    requires Configured(config, "weather_tool")
    requires build("weather_tool", JsonValue.TruthyGet(config, "weather_tool").value).Failure?
    ensures RegisterAll([], SystemToolKeys, config, build) ==
      Failure(build("weather_tool", JsonValue.TruthyGet(config, "weather_tool").value).error)
  {
  }
}
