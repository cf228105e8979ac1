/**
 * The function-tool registry (tools/gadk/registry.py): tools discovered in
 * the tool modules, registered under their names, grouped by a category
 * derived from the module name, and resolved by name with or without a
 * `_tool` suffix.
 *
 * Importing a module and listing its members is not modelled: each module
 * is given by the members `inspect.getmembers` would list, or by `None`
 * when importing it fails.
 */
module Registry {
  import opened Wrappers
  import opened Text

  /** A function object: its name, its docstring and its rendered signature. */
  datatype Func = Func(name: string, doc: Option<string>, signature: string)

  /** A `FunctionTool`, with the function it wraps if it exposes one. */
  datatype Tool = FunctionTool(func: Option<Func>)

  /** The metadata dictionary kept for each registered tool. */
  datatype ToolInfo = ToolInfo(category: string, moduleName: string, toolType: string,
                               func: Option<Func>, doc: Option<string>, signature: string)

  /**
   * A member of an imported module: a `FunctionTool` instance, another
   * callable with the module it was defined in, or anything else.
   */
  datatype Member =
    | ToolMember(name: string, tool: Tool)
    | CallableMember(name: string, func: Func, definedIn: string)
    | OtherMember(name: string)

  /** A `*.py` file of the tools directory, by its stem, with its members or `None` if it cannot be imported. */
  datatype ModuleFile = ModuleFile(stem: string, members: Option<seq<Member>>)

  /** The four dictionaries of the registry. */
  datatype RegistryState = RegistryState(
    tools: map<string, Tool>,
    rawFunctions: map<string, Func>,
    toolMetadata: map<string, ToolInfo>,
    categories: map<string, seq<string>>)

  function EmptyState(): RegistryState
  {
    RegistryState(map[], map[], map[], map[])
  }

  /**
   * What registration keeps true: every tool has metadata and nothing else
   * does, every name listed in a category is a tool, and every raw function
   * has its wrapper registered.
   */
  predicate Consistent(s: RegistryState)
  {
    && s.toolMetadata.Keys == s.tools.Keys
    && (forall c, k :: c in s.categories && 0 <= k < |s.categories[c]| ==> s.categories[c][k] in s.tools)
    && (forall n :: n in s.rawFunctions ==> WrapperName(n) in s.tools)
  }

  const ToolSuffix := "_tool"

  /** The name a raw function's wrapper is registered under. */
  function WrapperName(name: string): (r: string)
    ensures EndsWith(r, ToolSuffix)
    ensures EndsWith(name, ToolSuffix) ==> r == name
  {
    if EndsWith(name, ToolSuffix) then name
    else
      assert (name + ToolSuffix)[|name|..] == ToolSuffix;
      name + ToolSuffix
  }

  /**
   * `_get_category_from_module_name`: the first of financial, debug (for
   * "debug" or "test"), search and weather whose word occurs in the
   * lowercased module name, or general.
   */
  function CategoryOf(moduleName: string): (r: string)
    ensures r == "financial" <==> Contains(Lower(moduleName), "financial")
    ensures r == "debug" <==>
      !Contains(Lower(moduleName), "financial") &&
      (Contains(Lower(moduleName), "debug") || Contains(Lower(moduleName), "test"))
    ensures r == "general" ==>
      forall w :: w in ["financial", "debug", "test", "search", "weather"] ==> !Contains(Lower(moduleName), w)
  {
    var m := Lower(moduleName);
    if Contains(m, "financial") then "financial"
    else if Contains(m, "debug") || Contains(m, "test") then "debug"
    else if Contains(m, "search") then "search"
    else if Contains(m, "weather") then "weather"
    else "general"
  }

  /** The category does not depend on the case of the module name. */
  lemma CategoryIgnoresCase(moduleName: string)
    ensures CategoryOf(Lower(moduleName)) == CategoryOf(moduleName)
  {
    LowerIdempotent(moduleName);
  }

  /** `self._categories[category].append(name)` on the defaulting dictionary. */
  function AppendToCategory(categories: map<string, seq<string>>, category: string, name: string): map<string, seq<string>>
  {
    categories[category := (if category in categories then categories[category] else []) + [name]]
  }

  /** `_register_tool`: the tool and its metadata under `name`, and `name` appended to its category. */
  function WithTool(s: RegistryState, name: string, tool: Tool, category: string, moduleName: string): (r: RegistryState)
    ensures Consistent(s) ==> Consistent(r)
    ensures r.tools.Keys == s.tools.Keys + {name} && r.tools[name] == tool
  {
    var info := ToolInfo(category, moduleName, "FunctionTool", tool.func,
                         if tool.func.Some? then tool.func.value.doc else Some(""),
                         if tool.func.Some? then tool.func.value.signature else "");
    RegistryState(s.tools[name := tool], s.rawFunctions, s.toolMetadata[name := info],
                  AppendToCategory(s.categories, category, name))
  }

  /**
   * `_register_raw_function`: nothing when `name` is already a tool;
   * otherwise a wrapper under `WrapperName(name)`, the function under
   * `name`, and the wrapper's name appended to its category.
   */
  function WithRawFunction(s: RegistryState, name: string, func: Func, category: string, moduleName: string): (r: RegistryState)
    ensures Consistent(s) ==> Consistent(r)
    ensures name in s.tools ==> r == s
    ensures name !in s.tools ==>
      && r.tools.Keys == s.tools.Keys + {WrapperName(name)}
      && r.tools[WrapperName(name)] == FunctionTool(Some(func))
      && r.rawFunctions == s.rawFunctions[name := func]
  {
    if name in s.tools then s
    else
      var toolName := WrapperName(name);
      var info := ToolInfo(category, moduleName, "FunctionTool", Some(func), Some(func.doc.GetOr("")), func.signature);
      RegistryState(s.tools[toolName := FunctionTool(Some(func))], s.rawFunctions[name := func],
                    s.toolMetadata[toolName := info], AppendToCategory(s.categories, category, toolName))
  }

  /** `name` ends in `_tool` and the name without it is a tool. */
  predicate StrippedIsTool(s: RegistryState, name: string)
  {
    EndsWith(name, ToolSuffix) && name[..|name| - |ToolSuffix|] in s.tools
  }

  /** `name in registry`. */
  predicate Has(s: RegistryState, name: string)
  {
    name in s.tools || name + ToolSuffix in s.tools || StrippedIsTool(s, name)
  }

  /**
   * `__getattr__`: the tool named `name`, else the one named `name_tool`,
   * else, for a name ending in `_tool`, the one named without it; `None`
   * where the source raises `AttributeError`.
   */
  function Lookup(s: RegistryState, name: string): (r: Option<Tool>)
    ensures r.Some? <==> Has(s, name)
    ensures r.Some? ==> r.value in s.tools.Values
    ensures name in s.tools ==> r == Some(s.tools[name])
  {
    if name in s.tools then Some(s.tools[name])
    else if name + ToolSuffix in s.tools then Some(s.tools[name + ToolSuffix])
    else if StrippedIsTool(s, name) then Some(s.tools[name[..|name| - |ToolSuffix|]])
    else None
  }

  /**
   * `get_tools_by_category`: the tools listed under the category, or none
   * for a category never used.
   */
  function ToolsByCategory(s: RegistryState, category: string): (r: map<string, Tool>)
    requires Consistent(s)
    ensures category !in s.categories ==> r == map[]
    ensures category in s.categories ==>
      (forall n :: n in r <==> n in s.categories[category]) && forall n :: n in r ==> r[n] == s.tools[n]
  {
    if category !in s.categories then map[]
    else map n | n in s.categories[category] :: s.tools[n]
  }

  /** `get_tool_info`: the metadata under `name`, else under `name_tool`, else `None`. */
  function ToolInfoOf(s: RegistryState, name: string): (r: Option<ToolInfo>)
    ensures name in s.toolMetadata ==> r == Some(s.toolMetadata[name])
    ensures r.Some? ==> r.value in s.toolMetadata.Values
    ensures r.None? ==> name !in s.toolMetadata && name + ToolSuffix !in s.toolMetadata
  {
    if name in s.toolMetadata then Some(s.toolMetadata[name])
    else if name + ToolSuffix in s.toolMetadata then Some(s.toolMetadata[name + ToolSuffix])
    else None
  }

  /** Whatever has metadata can be looked up by the same name. */
  lemma InfoMeansFound(s: RegistryState, name: string)
    requires Consistent(s) && ToolInfoOf(s, name).Some?
    ensures Lookup(s, name).Some?
  {
    if name !in s.toolMetadata {
      assert name + ToolSuffix in s.toolMetadata;
      assert name + ToolSuffix in s.tools;
    }
  }

  /** A function registered from its raw form is found by its own name afterwards. */
  lemma RawFunctionFound(s: RegistryState, name: string, func: Func, category: string, moduleName: string)
    ensures Lookup(WithRawFunction(s, name, func, category, moduleName), name).Some?
    ensures name !in s.tools ==> Lookup(WithRawFunction(s, name, func, category, moduleName), name) == Some(FunctionTool(Some(func)))
  {
    var r := WithRawFunction(s, name, func, category, moduleName);
    if name !in s.tools && !EndsWith(name, ToolSuffix) {
      assert WrapperName(name) == name + ToolSuffix;
      assert name !in r.tools by {
        assert |name| < |name + ToolSuffix|;
      }
    }
  }

  /** The module path a member must be defined in to count as the module's own function. */
  function ModulePath(moduleName: string): string
  {
    "tools.gadk." + moduleName
  }

  /**
   * One member of the loop in `_discover_tools_from_module`: a tool is
   * registered, a public callable defined in the module is registered as a
   * raw function, and anything else is passed over.
   */
  function WithMember(s: RegistryState, m: Member, category: string, moduleName: string): RegistryState
  {
    match m
    case ToolMember(name, tool) => WithTool(s, name, tool, category, moduleName)
    case CallableMember(name, func, definedIn) =>
      if !StartsWith(name, "_") && definedIn == ModulePath(moduleName) then
        WithRawFunction(s, name, func, category, moduleName)
      else s
    case OtherMember(_) => s
  }

  /** The members of a module, registered one after the other. */
  function WithMembers(s: RegistryState, ms: seq<Member>, category: string, moduleName: string): RegistryState
  {
    if ms == [] then s
    else WithMember(WithMembers(s, ms[..|ms| - 1], category, moduleName), ms[|ms| - 1], category, moduleName)
  }

  /** A member the discovery loop registers. */
  predicate Registers(m: Member, moduleName: string)
  {
    m.ToolMember? || (m.CallableMember? && !StartsWith(m.name, "_") && m.definedIn == ModulePath(moduleName))
  }

  /** Registering never removes a tool. */
  lemma {:induction false} WithMembersGrows(s: RegistryState, ms: seq<Member>, category: string, moduleName: string)
    ensures s.tools.Keys <= WithMembers(s, ms, category, moduleName).tools.Keys
    decreases |ms|
  {
    if ms != [] {
      WithMembersGrows(s, ms[..|ms| - 1], category, moduleName);
    }
  }

  /** Registration keeps the registry consistent. */
  lemma {:induction false} WithMembersConsistent(s: RegistryState, ms: seq<Member>, category: string, moduleName: string)
    requires Consistent(s)
    ensures Consistent(WithMembers(s, ms, category, moduleName))
    decreases |ms|
  {
    if ms != [] {
      WithMembersConsistent(s, ms[..|ms| - 1], category, moduleName);
    }
  }

  /** After a module's members are registered, every member the loop registers can be looked up by its name. */
  lemma {:induction false} MembersFound(s: RegistryState, ms: seq<Member>, category: string, moduleName: string, k: nat)
    requires k < |ms| && Registers(ms[k], moduleName)
    ensures Has(WithMembers(s, ms, category, moduleName), ms[k].name)
    decreases |ms|
  {
    var init, last := ms[..|ms| - 1], ms[|ms| - 1];
    var before := WithMembers(s, init, category, moduleName);
    if k < |ms| - 1 {
      MembersFound(s, init, category, moduleName, k);
      assert init[k] == ms[k];
      HasKept(before, last, category, moduleName, ms[k].name);
    } else if last.ToolMember? {
    } else {
      RawFunctionFound(before, last.name, last.func, category, moduleName);
    }
  }

  /** Registering one more member keeps every name that could be looked up. */
  lemma HasKept(s: RegistryState, m: Member, category: string, moduleName: string, name: string)
    requires Has(s, name)
    ensures Has(WithMember(s, m, category, moduleName), name)
  {
    var r := WithMember(s, m, category, moduleName);
    assert s.tools.Keys <= r.tools.Keys;
  }

  /** `_discover_tools_from_module`: nothing when the import fails. */
  function DiscoverModule(s: RegistryState, moduleName: string, members: Option<seq<Member>>): RegistryState
  {
    if members.None? then s
    else WithMembers(s, members.value, CategoryOf(moduleName), moduleName)
  }

  /** The files `_discover_tools` passes over: the package file, the registry itself and test files. */
  predicate Skipped(stem: string)
  {
    var fileName := stem + ".py";
    fileName == "__init__.py" || fileName == "registry.py" || StartsWith(fileName, "test_")
  }

  /** `_discover_tools`: every module file not passed over, in the order listed. */
  function DiscoverTools(s: RegistryState, files: seq<ModuleFile>): RegistryState
  {
    if files == [] then s
    else
      var before := DiscoverTools(s, files[..|files| - 1]);
      var f := files[|files| - 1];
      if Skipped(f.stem) then before else DiscoverModule(before, f.stem, f.members)
  }

  lemma {:induction false} DiscoverConsistent(s: RegistryState, files: seq<ModuleFile>)
    requires Consistent(s)
    ensures Consistent(DiscoverTools(s, files))
    decreases |files|
  {
    if files != [] {
      DiscoverConsistent(s, files[..|files| - 1]);
      var before := DiscoverTools(s, files[..|files| - 1]);
      var f := files[|files| - 1];
      if !Skipped(f.stem) && f.members.Some? {
        WithMembersConsistent(before, f.members.value, CategoryOf(f.stem), f.stem);
      }
    }
  }

  /** The registry object, its four dictionaries updated in place. */
  class FunctionToolRegistry {
    var tools: map<string, Tool>
    var rawFunctions: map<string, Func>
    var toolMetadata: map<string, ToolInfo>
    var categories: map<string, seq<string>>

    function State(): RegistryState
      reads this
    {
      RegistryState(tools, rawFunctions, toolMetadata, categories)
    }

    ghost predicate Valid()
      reads this
    {
      Consistent(State())
    }

    /** A registry that discovers the given module files at once. */
    constructor(files: seq<ModuleFile>)
      ensures Valid() && State() == DiscoverTools(EmptyState(), files)
    {
      tools, rawFunctions, toolMetadata, categories := map[], map[], map[], map[];
      new;
      DiscoverAll(files);
      DiscoverConsistent(EmptyState(), files);
    }

    method RegisterTool(name: string, tool: Tool, category: string, moduleName: string)
      modifies this
      ensures State() == WithTool(old(State()), name, tool, category, moduleName)
    {
      tools := tools[name := tool];
      categories := AppendToCategory(categories, category, name);
      var func := tool.func;
      toolMetadata := toolMetadata[name := ToolInfo(category, moduleName, "FunctionTool", func,
        if func.Some? then func.value.doc else Some(""), if func.Some? then func.value.signature else "")];
    }

    method RegisterRawFunction(name: string, func: Func, category: string, moduleName: string)
      modifies this
      ensures State() == WithRawFunction(old(State()), name, func, category, moduleName)
    {
      if name in tools {
        return;
      }
      var toolName := if EndsWith(name, ToolSuffix) then name else name + ToolSuffix;
      tools := tools[toolName := FunctionTool(Some(func))];
      rawFunctions := rawFunctions[name := func];
      categories := AppendToCategory(categories, category, toolName);
      toolMetadata := toolMetadata[toolName := ToolInfo(category, moduleName, "FunctionTool", Some(func),
        Some(func.doc.GetOr("")), func.signature)];
    }

    /** One pass of the loop in `_discover_tools_from_module`. */
    method RegisterMember(m: Member, category: string, moduleName: string)
      modifies this
      ensures State() == WithMember(old(State()), m, category, moduleName)
    {
      match m {
        case ToolMember(name, tool) =>
          RegisterTool(name, tool, category, moduleName);
        case CallableMember(name, func, definedIn) =>
          if !StartsWith(name, "_") && definedIn == "tools.gadk." + moduleName {
            RegisterRawFunction(name, func, category, moduleName);
          }
        case OtherMember(_) =>
      }
    }

    method DiscoverToolsFromModule(moduleName: string, members: Option<seq<Member>>)
      modifies this
      ensures State() == DiscoverModule(old(State()), moduleName, members)
    {
      if members.None? {
        return;
      }
      var ms := members.value;
      var category := CategoryOf(moduleName);
      var i := 0;
      while i < |ms|
        invariant i <= |ms|
        invariant State() == WithMembers(old(State()), ms[..i], category, moduleName)
      {
        assert ms[..i + 1][..i] == ms[..i];
        RegisterMember(ms[i], category, moduleName);
        i := i + 1;
      }
      assert ms[..|ms|] == ms;
    }

    method DiscoverAll(files: seq<ModuleFile>)
      modifies this
      ensures State() == DiscoverTools(old(State()), files)
    {
      var i := 0;
      while i < |files|
        invariant i <= |files|
        invariant State() == DiscoverTools(old(State()), files[..i])
      {
        var f := files[i];
        assert files[..i + 1][..i] == files[..i];
        var fileName := f.stem + ".py";
        if !(fileName == "__init__.py" || fileName == "registry.py" || StartsWith(fileName, "test_")) {
          DiscoverToolsFromModule(f.stem, f.members);
        }
        i := i + 1;
      }
      assert files[..|files|] == files;
    }

    /** `__getattr__` (and `__getitem__`), `None` standing for `AttributeError`. */
    method GetAttr(name: string) returns (r: Option<Tool>)
      ensures r == Lookup(State(), name)
    {
      if name in tools {
        return Some(tools[name]);
      }
      var toolName := name + ToolSuffix;
      if toolName in tools {
        return Some(tools[toolName]);
      }
      if EndsWith(name, ToolSuffix) {
        var baseName := name[..|name| - 5];
        if baseName in tools {
          return Some(tools[baseName]);
        }
      }
      return None;
    }

    /** `__contains__`. */
    method ContainsTool(name: string) returns (b: bool)
      ensures b <==> Lookup(State(), name).Some?
    {
      b := name in tools || name + ToolSuffix in tools || (EndsWith(name, ToolSuffix) && name[..|name| - 5] in tools);
    }

    /** `get_all_tools`: a copy of the tools. */
    method GetAllTools() returns (r: map<string, Tool>)
      ensures r == tools
    {
      r := tools;
    }

    method GetToolsByCategory(category: string) returns (r: map<string, Tool>)
      requires Valid()
      ensures r == ToolsByCategory(State(), category)
    {
      if category !in categories {
        return map[];
      }
      r := map name | name in categories[category] :: tools[name];
    }

    method GetToolInfo(name: string) returns (r: Option<ToolInfo>)
      ensures r == ToolInfoOf(State(), name)
    {
      if name in toolMetadata {
        return Some(toolMetadata[name]);
      }
      var toolName := name + ToolSuffix;
      if toolName in toolMetadata {
        return Some(toolMetadata[toolName]);
      }
      return None;
    }

    /** `reload_tools`: all four dictionaries cleared, then the modules discovered again. */
    method ReloadTools(files: seq<ModuleFile>)
      modifies this
      ensures Valid() && State() == DiscoverTools(EmptyState(), files)
    {
      tools, rawFunctions, toolMetadata, categories := map[], map[], map[], map[];
      DiscoverAll(files);
      DiscoverConsistent(EmptyState(), files);
    }
  }
}
