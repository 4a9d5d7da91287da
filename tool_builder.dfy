/**
 * `create_tool_from_config` (`tools/core/utils/tool_builder.py`): the class a tool
 * definition names is resolved (a discovered class under the tool's own name, then a
 * discovered class under its `base_tool`, then a class imported from the implementation
 * module `base_tool`), and an instance is built from the whole definition.
 *
 * Importing a module and looking up a class in it, and running a class's constructor,
 * are parameters. A tool definition is modelled by the entries the code reads.
 */
module ToolBuilder {
  import opened Wrappers
  import JsonValue
  import opened PyDict
  import opened PyStr

  /** A tool class, known by its class name. */
  datatype ToolClass = ToolClass(className: string)

  /** A tool definition from the configuration: its `name`, `hidden`, `base_tool` and
      `class` entries (absent ones as `None`), and the rest of it. */
  datatype ToolDef = ToolDef(
    name: Option<string>,
    hidden: bool,
    baseTool: Option<string>,
    className: Option<string>,
    settings: JsonValue.Json)

  /** A tool instance: its `name` attribute (`None` when unset) and its definition
      (`None` when `get_definition` raises). */
  datatype ToolInstance = ToolInstance(name: Option<string>, definition: Option<JsonValue.Json>)

  // ----- class name derivation -----

  /** `str.capitalize()`: the first character upper case, the rest lower case. */
  function Capitalize(w: string): (r: string)
    ensures |r| == |w|
  {
    if w == [] then [] else [UpperChar(w[0])] + Lower(w[1..])
  }

  /** `s.split("_")`: the pieces between underscores, empty ones included. */
  function Split(s: string): (r: seq<string>)
    ensures r != []
  {
    if s == [] then [""]
    else
      var rest := Split(s[1..]);
      if s[0] == '_' then [""] + rest else [[s[0]] + rest[0]] + rest[1..]
  }

  /** `"".join(part.capitalize() for part in parts)`. */
  function CapitalizedJoin(parts: seq<string>): string
  {
    if parts == [] then [] else Capitalize(parts[0]) + CapitalizedJoin(parts[1..])
  }

  function CamelCase(key: string): string
  {
    CapitalizedJoin(Split(key))
  }

  /** Reference: the key without its underscores, a character upper case when it starts
      the key or follows an underscore and lower case otherwise. */
  function PascalCase(s: string, start: bool): string
  {
    if s == [] then []
    else if s[0] == '_' then PascalCase(s[1..], true)
    else [if start then UpperChar(s[0]) else LowerChar(s[0])] + PascalCase(s[1..], false)
  }

  /** A word capitalized when it starts the key, lower-cased when it continues one. */
  function Cap(w: string, start: bool): string
  {
    if start then Capitalize(w) else Lower(w)
  }

  lemma {:induction false} SplitJoin(s: string, start: bool)
    ensures Cap(Split(s)[0], start) + CapitalizedJoin(Split(s)[1..]) == PascalCase(s, start)
    decreases |s|
  {
    if s != [] {
      var rest := Split(s[1..]);
      var tail := CapitalizedJoin(rest[1..]);
      SplitJoin(s[1..], s[0] == '_');
      if s[0] == '_' {
        assert Split(s) == [""] + rest;
        assert Split(s)[1..] == rest;
        assert CapitalizedJoin(rest) == Capitalize(rest[0]) + tail;
        assert Cap("", start) == [];
      } else {
        var w := [s[0]] + rest[0];
        assert Split(s) == [w] + rest[1..];
        assert Split(s)[0] == w && Split(s)[1..] == rest[1..];
        var first := if start then UpperChar(s[0]) else LowerChar(s[0]);
        assert w[0] == s[0] && w[1..] == rest[0];
        assert Cap(w, start) == [first] + Lower(rest[0]);
        assert PascalCase(s, start) == [first] + PascalCase(s[1..], false);
        AppendAssoc([first], Lower(rest[0]), tail);
      }
    }
  }

  lemma {:induction false} AppendAssoc(x: string, y: string, z: string)
    ensures x + y + z == x + (y + z)
  {
  }

  /** The derived class name is the `PascalCase` of the key. */
  lemma {:induction false} CamelCaseIsPascalCase(key: string)
    ensures CamelCase(key) == PascalCase(key, true)
  {
    SplitJoin(key, true);
  }

  /** The class name looked up in the imported module: the explicit `class` entry when it
      is non-empty, otherwise the capitalized `base_tool` pieces plus `Tool`. */
  function ClassName(baseTool: string, className: Option<string>): string
  {
    if className.Some? && className.value != "" then className.value else CamelCase(baseTool) + "Tool"
  }

  /** `create_tool_from_config(tool_def, discovered_tools)`. */
  function CreateToolFromConfig(
    def: ToolDef,
    discovered: Option<Dict<string, ToolClass>>,
    importClass: (string, string) -> Result<ToolClass>,
    construct: (ToolClass, ToolDef) -> Result<ToolInstance>): Result<ToolInstance>
  {
    match ResolveClass(def, discovered, importClass)
    case Failure(e) => Failure(e)
    case Success(cls) => construct(cls, def)
  }

  function ResolveClass(
    def: ToolDef,
    discovered: Option<Dict<string, ToolClass>>,
    importClass: (string, string) -> Result<ToolClass>): Result<ToolClass>
  {
    if def.name.None? then Failure("'name'")
    else
      var name := def.name.value;
      var byName := if discovered.Some? then Get(discovered.value, name) else None;
      if byName.Some? then Success(byName.value)
      else if def.baseTool.Some? then
        var key := def.baseTool.value;
        var byKey := if discovered.Some? then Get(discovered.value, key) else None;
        if byKey.Some? then Success(byKey.value)
        else importClass(key, ClassName(key, def.className))
      else Failure("Tool '" + name + "' is not a discovered custom tool and has no 'base_tool' defined")
  }

  // ----- properties -----

  /** A discovered class under the tool's own name wins over everything else, and the
      instance is built from the whole definition. */
  lemma {:induction false} DiscoveredNameFirst(
    def: ToolDef, discovered: Dict<string, ToolClass>,
    importClass: (string, string) -> Result<ToolClass>, construct: (ToolClass, ToolDef) -> Result<ToolInstance>)
    requires def.name.Some? && def.name.value in Keys(discovered)
    ensures exists cls :: (Get(discovered, def.name.value) == Some(cls) &&
      CreateToolFromConfig(def, Some(discovered), importClass, construct) == construct(cls, def))
  {
    GetFound(discovered, def.name.value);
  }

  /** Otherwise a discovered `base_tool` class is used, and failing that the class is
      imported from the module named by `base_tool`. */
  lemma {:induction false} BaseToolResolution(
    def: ToolDef, discovered: Option<Dict<string, ToolClass>>,
    importClass: (string, string) -> Result<ToolClass>, construct: (ToolClass, ToolDef) -> Result<ToolInstance>)
    requires def.name.Some? && def.baseTool.Some?
    requires discovered.None? || def.name.value !in Keys(discovered.value)
    ensures var key := def.baseTool.value;
      var r := CreateToolFromConfig(def, discovered, importClass, construct);
      (discovered.Some? && key in Keys(discovered.value) ==>
        exists cls :: (Get(discovered.value, key) == Some(cls) && r == construct(cls, def))) &&
      (!(discovered.Some? && key in Keys(discovered.value)) ==>
        r == match importClass(key, ClassName(key, def.className))
             case Failure(e) => Failure(e)
             case Success(cls) => construct(cls, def))
  {
    if discovered.Some? {
      GetFound(discovered.value, def.name.value);
      GetFound(discovered.value, def.baseTool.value);
    }
  }

  /** A definition that is neither discovered by name nor has a `base_tool` is refused
      before anything is imported or constructed. */
  lemma {:induction false} NoClassRefused(
    def: ToolDef, discovered: Option<Dict<string, ToolClass>>,
    importClass: (string, string) -> Result<ToolClass>, construct: (ToolClass, ToolDef) -> Result<ToolInstance>)
    requires def.name.Some? && def.baseTool.None?
    requires discovered.None? || def.name.value !in Keys(discovered.value)
    ensures CreateToolFromConfig(def, discovered, importClass, construct) ==
      Failure("Tool '" + def.name.value + "' is not a discovered custom tool and has no 'base_tool' defined")
  {
    if discovered.Some? {
      GetFound(discovered.value, def.name.value);
    }
  }

  // ----- definitions -----

  /** `[tool.get_definition() for tool in tools]`: `None` when one of them raises. */
  function DefinitionsOf(tools: seq<ToolInstance>): Option<seq<JsonValue.Json>>
  {
    if tools == [] then Some([])
    else
      var init := DefinitionsOf(tools[..|tools| - 1]);
      var last := tools[|tools| - 1].definition;
      if init.Some? && last.Some? then Some(init.value + [last.value]) else None
  }

  /** The definitions exist exactly when every tool's does, one per tool in order. */
  lemma {:induction false} DefinitionsOfAll(tools: seq<ToolInstance>)
    ensures DefinitionsOf(tools).Some? <==> forall i :: 0 <= i < |tools| ==> tools[i].definition.Some?
    ensures DefinitionsOf(tools).Some? ==>
      |DefinitionsOf(tools).value| == |tools| &&
      forall i :: 0 <= i < |tools| ==> DefinitionsOf(tools).value[i] == tools[i].definition.value
    decreases |tools|
  {
    if tools != [] {
      var init := tools[..|tools| - 1];
      DefinitionsOfAll(init);
      assert forall i :: 0 <= i < |init| ==> init[i] == tools[i];
    }
  }
}
