/**
 * Template variables of the framework (utils/template_processor.py): which
 * variables of a template configuration each scope sees, the scope report,
 * the rendering of agent instructions over the whole agent tree, and the
 * variables the tree's templates mention. Jinja rendering and the regular
 * expression that finds `{{ name }}` are given as functions.
 */
module TemplateProcessor {
  import opened Wrappers
  import opened Dicts
  import opened Text
  import opened Json
  import opened AgentConfig
  import OptimizerTypes

  /**
   * The `template_variables` of a template configuration, in order: each
   * name maps to a dictionary (`default`, `apply_to_instructions`, ...) or,
   * in the legacy form, to the value itself.
   */
  type TemplateVariables = seq<(string, Json)>

  /** `d.get(key, default)`. */
  function Field(d: map<string, Json>, key: string, default: Json): Json
  {
    if key in d then d[key] else default
  }

  /** A dictionary variable whose `apply_to_instructions` (default `False`) is true. */
  predicate AppliesToInstructions(config: Json)
  {
    config.JObject? && Truthy(Field(config.fields, "apply_to_instructions", JBool(false)))
  }

  /** The value a variable contributes: a dictionary's `default` (or `''`), a legacy value itself. */
  function DefaultOf(config: Json): Json
  {
    if config.JObject? then Field(config.fields, "default", JString("")) else config
  }

  /** Whether a variable is visible in `scope`, and with which value. */
  function Contribution(config: Json, scope: string): (r: Option<Json>)
    ensures r.Some? ==> r.value == DefaultOf(config)
  {
    if config.JObject? then
      var global := AppliesToInstructions(config);
      if scope == "all" || (scope == "global_only" && global) || (scope == "local_only" && !global)
      then Some(DefaultOf(config)) else None
    else if scope == "all" || scope == "local_only" then Some(config)
    else None
  }

  /** The variables of `scope`, gathered in order. */
  function Scoped(vars: TemplateVariables, scope: string): map<string, Json>
  {
    if vars == [] then map[]
    else
      var m := Scoped(vars[..|vars| - 1], scope);
      var (name, config) := vars[|vars| - 1];
      match Contribution(config, scope)
      case Some(v) => m[name := v]
      case None => m
  }

  /** `prepare_template_variables`: the scope's variables, then the additional ones, which win. */
  function PrepareVariables(vars: TemplateVariables, additional: map<string, Json>, scope: string): (r: map<string, Json>)
    ensures forall k :: k in additional ==> k in r && r[k] == additional[k]
    ensures forall k :: k !in additional ==> (k in r <==> k in Scoped(vars, scope))
  {
    Scoped(vars, scope) + additional
  }

  /** `prepare_template_variables`, filling the dictionary variable by variable. */
  method PrepareTemplateVariables(vars: TemplateVariables, additional: map<string, Json>, scope: string)
    returns (variables: map<string, Json>)
    ensures variables == PrepareVariables(vars, additional, scope)
  {
    variables := map[];
    var i := 0;
    while i < |vars|
      invariant 0 <= i <= |vars|
      invariant variables == Scoped(vars[..i], scope)
    {
      var (name, config) := vars[i];
      assert vars[..i + 1][..i] == vars[..i];
      if config.JObject? {
        var default := Field(config.fields, "default", JString(""));
        var applies := Truthy(Field(config.fields, "apply_to_instructions", JBool(false)));
        if scope == "all" {
          variables := variables[name := default];
        } else if scope == "global_only" && applies {
          variables := variables[name := default];
        } else if scope == "local_only" && !applies {
          variables := variables[name := default];
        }
      } else if scope == "all" || scope == "local_only" {
        variables := variables[name := config];
      }
      i := i + 1;
    }
    assert vars[..|vars|] == vars;
    variables := variables + additional;
  }

  /** `get_global_template_variables`. */
  function GlobalTemplateVariables(vars: TemplateVariables): map<string, Json>
  {
    PrepareVariables(vars, map[], "global_only")
  }

  /** `get_local_template_variables`. */
  function LocalTemplateVariables(vars: TemplateVariables): map<string, Json>
  {
    PrepareVariables(vars, map[], "local_only")
  }

  /**
   * With distinct names, a variable is in a scope exactly when its
   * configuration is visible there, with its default as value, and only
   * configured names appear.
   */
  lemma ScopedSpec(vars: TemplateVariables, scope: string)
    requires DistinctKeys(vars)
    ensures forall i :: 0 <= i < |vars| ==>
      (vars[i].0 in Scoped(vars, scope) <==> Contribution(vars[i].1, scope).Some?)
    ensures forall i :: 0 <= i < |vars| && vars[i].0 in Scoped(vars, scope) ==>
      Scoped(vars, scope)[vars[i].0] == DefaultOf(vars[i].1)
    ensures forall k :: k in Scoped(vars, scope) ==> k in KeysOf(vars)
  {
    forall i | 0 <= i < |vars|
      ensures vars[i].0 in Scoped(vars, scope) <==> Contribution(vars[i].1, scope).Some?
      ensures vars[i].0 in Scoped(vars, scope) ==> Scoped(vars, scope)[vars[i].0] == DefaultOf(vars[i].1)
    {
      ScopedAt(vars, scope, i);
    }
    ScopedWithin(vars, scope);
  }

  /** The scope's entry for the variable at position `i`. */
  lemma {:induction false} ScopedAt(vars: TemplateVariables, scope: string, i: nat)
    requires DistinctKeys(vars) && i < |vars|
    ensures vars[i].0 in Scoped(vars, scope) <==> Contribution(vars[i].1, scope).Some?
    ensures vars[i].0 in Scoped(vars, scope) ==> Scoped(vars, scope)[vars[i].0] == DefaultOf(vars[i].1)
  {
    if i < |vars| - 1 {
      var init := vars[..|vars| - 1];
      DistinctInit(vars);
      ScopedAt(init, scope, i);
      assert init[i] == vars[i];
      assert vars[i].0 != vars[|vars| - 1].0;
    } else {
      DistinctInit(vars);
      ScopedWithin(vars[..i], scope);
    }
  }

  /** A name belongs to a scope exactly when some entry under it is visible there. */
  lemma ScopedKeys(vars: TemplateVariables, scope: string, k: string)
    requires DistinctKeys(vars)
    ensures k in Scoped(vars, scope) <==>
      exists i :: 0 <= i < |vars| && vars[i].0 == k && Contribution(vars[i].1, scope).Some?
  {
    ScopedSpec(vars, scope);
    if k in Scoped(vars, scope) {
      assert k in KeysOf(vars);
      var i :| 0 <= i < |vars| && vars[i].0 == k;
    }
  }

  /** Scope `all` holds every configured name. */
  lemma ScopeAllKeys(vars: TemplateVariables)
    requires DistinctKeys(vars)
    ensures Scoped(vars, "all").Keys == KeysOf(vars)
  {
    ScopedWithin(vars, "all");
    forall k | k in KeysOf(vars) ensures k in Scoped(vars, "all") {
      var i :| 0 <= i < |vars| && vars[i].0 == k;
      ScopedAt(vars, "all", i);
    }
  }

  /** Scope `global_only` holds exactly the dictionary variables that apply to instructions. */
  lemma GlobalScopeKeys(vars: TemplateVariables, k: string)
    requires DistinctKeys(vars)
    ensures k in Scoped(vars, "global_only") <==>
      exists i :: 0 <= i < |vars| && vars[i].0 == k && AppliesToInstructions(vars[i].1)
  {
    ScopedKeys(vars, "global_only", k);
  }

  /**
   * Scope `local_only` holds the rest: the two scopes are disjoint and
   * together make up `all`, with the same values.
   */
  lemma {:induction false} ScopesPartition(vars: TemplateVariables)
    requires DistinctKeys(vars)
    ensures Scoped(vars, "global_only").Keys !! Scoped(vars, "local_only").Keys
    ensures Scoped(vars, "global_only") + Scoped(vars, "local_only") == Scoped(vars, "all")
  {
    if vars != [] {
      var init := vars[..|vars| - 1];
      var (name, config) := vars[|vars| - 1];
      DistinctInit(vars);
      ScopesPartition(init);
      ScopedWithin(init, "global_only");
      ScopedWithin(init, "local_only");
      PartitionStep(Scoped(init, "global_only"), Scoped(init, "local_only"), Scoped(init, "all"), name,
                    DefaultOf(config), AppliesToInstructions(config));
    }
  }

  /** Adding a new name to one side of a partition adds it to the whole. */
  lemma PartitionStep(g: map<string, Json>, l: map<string, Json>, a: map<string, Json>, name: string, v: Json,
                      toGlobal: bool)
    requires g.Keys !! l.Keys && g + l == a && name !in g && name !in l
    ensures var g' := if toGlobal then g[name := v] else g;
      var l' := if toGlobal then l else l[name := v];
      g'.Keys !! l'.Keys && g' + l' == a[name := v]
  {
    if toGlobal {
      assert g[name := v] + l == (g + l)[name := v];
    } else {
      assert g + l[name := v] == (g + l)[name := v];
    }
  }

  /** Only configured names appear in a scope. */
  lemma {:induction false} ScopedWithin(vars: TemplateVariables, scope: string)
    ensures forall k :: k in Scoped(vars, scope) ==> k in KeysOf(vars)
  {
    if vars != [] {
      var init := vars[..|vars| - 1];
      ScopedWithin(init, scope);
      forall k | k in KeysOf(init) ensures k in KeysOf(vars) {
        var i :| 0 <= i < |init| && init[i].0 == k;
        assert vars[i].0 == k;
      }
      assert vars[|vars| - 1].0 in KeysOf(vars);
    }
  }

  // ---------------------------------------------------------------------
  // Scope report
  // ---------------------------------------------------------------------

  /** The report on one variable. */
  datatype VarInfo = VarInfo(default: Json, description: Json, varType: Json, applyToInstructions: Json, scope: string)

  function InfoOf(config: Json): VarInfo
  {
    if config.JObject? then
      VarInfo(Field(config.fields, "default", JString("")),
              Field(config.fields, "description", JString("")),
              Field(config.fields, "type", JString("string")),
              Field(config.fields, "apply_to_instructions", JBool(false)),
              if AppliesToInstructions(config) then "global" else "local")
    else VarInfo(config, JString(""), JString("string"), JBool(false), "local")
  }

  /** The report on every variable, gathered in order. */
  function VariableInfo(vars: TemplateVariables): map<string, VarInfo>
  {
    if vars == [] then map[]
    else
      var (name, config) := vars[|vars| - 1];
      VariableInfo(vars[..|vars| - 1])[name := InfoOf(config)]
  }

  /** `get_template_variable_info`, filling the report variable by variable. */
  method GetTemplateVariableInfo(vars: TemplateVariables) returns (info: map<string, VarInfo>)
    ensures info == VariableInfo(vars)
  {
    info := map[];
    var i := 0;
    while i < |vars|
      invariant 0 <= i <= |vars|
      invariant info == VariableInfo(vars[..i])
    {
      var (name, config) := vars[i];
      assert vars[..i + 1][..i] == vars[..i];
      if config.JObject? {
        var applies := Field(config.fields, "apply_to_instructions", JBool(false));
        info := info[name := VarInfo(Field(config.fields, "default", JString("")),
                                     Field(config.fields, "description", JString("")),
                                     Field(config.fields, "type", JString("string")),
                                     applies,
                                     if Truthy(applies) then "global" else "local")];
      } else {
        info := info[name := VarInfo(config, JString(""), JString("string"), JBool(false), "local")];
      }
      i := i + 1;
    }
    assert vars[..|vars|] == vars;
  }

  /** The report holds exactly the configured names. */
  lemma {:induction false} VariableInfoKeys(vars: TemplateVariables)
    ensures VariableInfo(vars).Keys == KeysOf(vars)
  {
    if vars != [] {
      VariableInfoKeys(vars[..|vars| - 1]);
      KeysOfSnoc(vars);
    }
  }

  /** The report on the variable at position `i`. */
  lemma {:induction false} VariableInfoAt(vars: TemplateVariables, i: nat)
    requires DistinctKeys(vars) && i < |vars|
    ensures vars[i].0 in VariableInfo(vars)
    ensures VariableInfo(vars)[vars[i].0] == InfoOf(vars[i].1)
  {
    if i < |vars| - 1 {
      var init := vars[..|vars| - 1];
      DistinctInit(vars);
      VariableInfoAt(init, i);
      assert init[i] == vars[i];
      assert vars[i].0 != vars[|vars| - 1].0;
    }
  }

  /** The report covers every variable and describes each by its own configuration. */
  lemma VariableInfoSpec(vars: TemplateVariables)
    requires DistinctKeys(vars)
    ensures VariableInfo(vars).Keys == KeysOf(vars)
    ensures forall i :: 0 <= i < |vars| ==> VariableInfo(vars)[vars[i].0] == InfoOf(vars[i].1)
  {
    VariableInfoKeys(vars);
    forall i | 0 <= i < |vars| ensures VariableInfo(vars)[vars[i].0] == InfoOf(vars[i].1) {
      VariableInfoAt(vars, i);
    }
  }

  /**
   * The report agrees with the scopes: it covers every variable, reports
   * `global` exactly for the variables of `global_only`, and gives each the
   * default that scope `all` uses.
   */
  lemma VariableInfoMatchesScopes(vars: TemplateVariables)
    requires DistinctKeys(vars)
    ensures VariableInfo(vars).Keys == Scoped(vars, "all").Keys
    ensures forall k :: k in VariableInfo(vars) ==>
      (VariableInfo(vars)[k].scope == "global" <==> k in Scoped(vars, "global_only")) &&
      VariableInfo(vars)[k].default == Scoped(vars, "all")[k]
  {
    VariableInfoKeys(vars);
    ScopeAllKeys(vars);
    forall k | k in VariableInfo(vars)
      ensures (VariableInfo(vars)[k].scope == "global" <==> k in Scoped(vars, "global_only")) &&
        VariableInfo(vars)[k].default == Scoped(vars, "all")[k]
    {
      var i :| 0 <= i < |vars| && vars[i].0 == k;
      VariableInfoAt(vars, i);
      ScopedAt(vars, "all", i);
      ScopedAt(vars, "global_only", i);
    }
  }

  // ---------------------------------------------------------------------
  // Rendering the agent tree
  // ---------------------------------------------------------------------

  /** A text that Jinja would treat as a template. */
  predicate HasTemplateMarker(s: string)
  {
    Contains(s, "{{") || Contains(s, "{%")
  }

  /** Jinja rendering with the given variables; `None` when rendering raises. */
  type Renderer = (string, map<string, Json>) -> Option<string>

  /** A field after rendering: rendered when it is a template that renders, otherwise as it was. */
  function RenderField(f: Option<string>, vars: map<string, Json>, render: Renderer): (r: Option<string>)
    ensures f.None? ==> r.None?
    ensures f.Some? && !HasTemplateMarker(f.value) ==> r == f
  {
    match f
    case Some(s) => if HasTemplateMarker(s) then Some(render(s, vars).GetOr(s)) else f
    case None => None
  }

  /** One agent with `instruction`, `description` and `global_instruction` rendered and nothing else touched. */
  function ProcessFields(c: Config, vars: map<string, Json>, render: Renderer): Config
  {
    c.(instruction := RenderField(c.instruction, vars, render),
       description := RenderField(c.description, vars, render),
       globalInstruction := RenderField(c.globalInstruction, vars, render))
  }

  /** `apply_template_variables_to_agent_config`: every agent of a copy of the tree rendered. */
  function ApplyTemplates(c: Config, vars: map<string, Json>, render: Renderer): Config
    decreases c
  {
    var d := ProcessFields(c, vars, render);
    match c.subAgents
    case Agents(list) =>
      d.(subAgents := Agents(seq(|list|, i requires 0 <= i < |list| => ApplyTemplates(list[i], vars, render))))
    case _ => d
  }

  function ApplyAll(cs: seq<Config>, vars: map<string, Json>, render: Renderer): (r: seq<Config>)
    ensures |r| == |cs|
  {
    seq(|cs|, i requires 0 <= i < |cs| => ApplyTemplates(cs[i], vars, render))
  }

  /** A node's label after rendering. */
  function ProcessLabel(l: Label, vars: map<string, Json>, render: Renderer): Label
  {
    Label(ProcessFields(l.fields, vars, render), l.kind)
  }

  function ProcessLabels(ls: seq<Label>, vars: map<string, Json>, render: Renderer): (r: seq<Label>)
    ensures |r| == |ls|
  {
    seq(|ls|, i requires 0 <= i < |ls| => ProcessLabel(ls[i], vars, render))
  }

  lemma ProcessLabelsAppend(xs: seq<Label>, ys: seq<Label>, vars: map<string, Json>, render: Renderer)
    ensures ProcessLabels(xs + ys, vars, render) == ProcessLabels(xs, vars, render) + ProcessLabels(ys, vars, render)
  {
  }

  /**
   * Rendering keeps the shape of the tree and visits every agent: in
   * pre-order, node `i` of the result is node `i` of the input with its
   * three text fields rendered and every other key unchanged.
   */
  lemma {:induction false} ApplyTemplatesLabels(c: Config, vars: map<string, Json>, render: Renderer)
    ensures Labels(ApplyTemplates(c, vars, render)) == ProcessLabels(Labels(c), vars, render)
    decreases c, 1
  {
    var r := ApplyTemplates(c, vars, render);
    var head := LabelOf(r);
    assert head == ProcessLabel(LabelOf(c), vars, render);
    match c.subAgents
    case Agents(list) =>
      var rs := ApplyAll(list, vars, render);
      assert r.subAgents == Agents(rs);
      ApplyAllLabels(list, vars, render);
      OptimizerTypes.LabelsSplit(r, rs);
      OptimizerTypes.LabelsSplit(c, list);
      assert LabelsOf([r]) == ProcessLabels(LabelsOf([c]), vars, render);
      ProcessLabelsAppend(LabelsOf([c]), LabelsOf(FlattenAll(list)), vars, render);
    case _ =>
  }

  lemma {:induction false} ApplyAllLabels(cs: seq<Config>, vars: map<string, Json>, render: Renderer)
    ensures LabelsOf(FlattenAll(ApplyAll(cs, vars, render))) == ProcessLabels(LabelsOf(FlattenAll(cs)), vars, render)
    decreases cs, 0
  {
    if cs != [] {
      var rs := ApplyAll(cs, vars, render);
      assert rs[1..] == ApplyAll(cs[1..], vars, render);
      ApplyTemplatesLabels(cs[0], vars, render);
      ApplyAllLabels(cs[1..], vars, render);
      OptimizerTypes.LabelsOfAppend(Flatten(rs[0]), FlattenAll(rs[1..]));
      OptimizerTypes.LabelsOfAppend(Flatten(cs[0]), FlattenAll(cs[1..]));
      ProcessLabelsAppend(LabelsOf(Flatten(cs[0])), LabelsOf(FlattenAll(cs[1..])), vars, render);
    }
  }

  /** A tree none of whose fields is a template comes back unchanged. */
  lemma NoTemplatesNoChange(c: Config, vars: map<string, Json>, render: Renderer, i: nat)
    requires i < |Labels(c)|
    requires var f := Labels(c)[i].fields;
      (f.instruction.Some? ==> !HasTemplateMarker(f.instruction.value)) &&
      (f.description.Some? ==> !HasTemplateMarker(f.description.value)) &&
      (f.globalInstruction.Some? ==> !HasTemplateMarker(f.globalInstruction.value))
    ensures |Labels(ApplyTemplates(c, vars, render))| == |Labels(c)|
    ensures Labels(ApplyTemplates(c, vars, render))[i] == Labels(c)[i]
  {
    ApplyTemplatesLabels(c, vars, render);
  }

  // ---------------------------------------------------------------------
  // Variables the templates use
  // ---------------------------------------------------------------------

  /** `re.findall` of the `{{ name }}` pattern: the names it finds in a text. */
  type Extractor = string -> set<string>

  function FieldText(f: Option<string>, extract: Extractor): set<string>
  {
    match f
    case Some(s) => extract(s)
    case None => {}
  }

  /** The names one agent's three text fields mention. */
  function NodeVariables(c: Config, extract: Extractor): set<string>
  {
    FieldText(c.instruction, extract) + FieldText(c.description, extract) + FieldText(c.globalInstruction, extract)
  }

  /** `get_template_variables_used`: the names mentioned anywhere in the tree, agent by agent. */
  function VariablesUsed(c: Config, extract: Extractor): set<string>
    decreases c, 1
  {
    match c.subAgents
    case Agents(list) => NodeVariables(c, extract) + VariablesUsedAll(list, extract)
    case _ => NodeVariables(c, extract)
  }

  function VariablesUsedAll(cs: seq<Config>, extract: Extractor): set<string>
    decreases cs, 0
  {
    if cs == [] then {} else VariablesUsed(cs[0], extract) + VariablesUsedAll(cs[1..], extract)
  }

  /** Some agent of `nodes` mentions `v` in one of its three text fields. */
  predicate MentionedIn(nodes: seq<Config>, v: string, extract: Extractor)
  {
    exists i :: 0 <= i < |nodes| && v in NodeVariables(nodes[i], extract)
  }

  lemma MentionedInAppend(a: seq<Config>, b: seq<Config>, v: string, extract: Extractor)
    ensures MentionedIn(a + b, v, extract) <==> MentionedIn(a, v, extract) || MentionedIn(b, v, extract)
  {
    if MentionedIn(a, v, extract) {
      var j :| 0 <= j < |a| && v in NodeVariables(a[j], extract);
      assert (a + b)[j] == a[j];
    }
    if MentionedIn(b, v, extract) {
      var j :| 0 <= j < |b| && v in NodeVariables(b[j], extract);
      assert (a + b)[|a| + j] == b[j];
    }
    if MentionedIn(a + b, v, extract) {
      var i :| 0 <= i < |a + b| && v in NodeVariables((a + b)[i], extract);
      if i < |a| {
        assert (a + b)[i] == a[i];
      } else {
        assert (a + b)[i] == b[i - |a|];
      }
    }
  }

  /** A name is used exactly when some agent of the tree mentions it in one of its three text fields. */
  lemma {:induction false} VariablesUsedSpec(c: Config, extract: Extractor, v: string)
    ensures v in VariablesUsed(c, extract) <==> MentionedIn(Flatten(c), v, extract)
    decreases c, 1
  {
    assert MentionedIn([c], v, extract) <==> v in NodeVariables(c, extract) by {
      if v in NodeVariables(c, extract) {
        assert [c][0] == c;
      }
    }
    match c.subAgents
    case Agents(list) =>
      VariablesUsedAllSpec(list, extract, v);
      MentionedInAppend([c], FlattenAll(list), v, extract);
    case _ =>
  }

  lemma {:induction false} VariablesUsedAllSpec(cs: seq<Config>, extract: Extractor, v: string)
    ensures v in VariablesUsedAll(cs, extract) <==> MentionedIn(FlattenAll(cs), v, extract)
    decreases cs, 0
  {
    if cs != [] {
      VariablesUsedSpec(cs[0], extract, v);
      VariablesUsedAllSpec(cs[1..], extract, v);
      MentionedInAppend(Flatten(cs[0]), FlattenAll(cs[1..]), v, extract);
    }
  }
}
