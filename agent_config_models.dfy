/**
 * The configuration models (data_model/agent_config_models.py): how an agent
 * dictionary is validated into an agent model, and the warnings the
 * hierarchy check reports about a validated model.
 *
 * Field types are taken as already checked: the dictionary's string keys
 * hold strings. `max_iterations` may hold any value, which pydantic's lax
 * mode coerces to an integer or rejects.
 */
module AgentConfigModels {
  import opened Wrappers
  import opened AgentConfig
  import Text
  import Json

  /** The agent classes the class validator accepts. */
  predicate IsAgentClass(c: string)
  {
    c == "Agent" || IsCompositeClass(c)
  }

  /** The agent classes that hold sub-agents. */
  predicate IsCompositeClass(c: string)
  {
    c == "SequentialAgent" || c == "ParallelAgent" || c == "LoopAgent"
  }

  /** The tool classes that wrap a function. */
  predicate IsFunctionToolClass(c: string)
  {
    c == "FunctionTool" || c == "LongRunningFunctionTool"
  }

  /** Python's truth value of an optional string. */
  predicate Filled(s: Option<string>)
  {
    s.Some? && s.value != ""
  }

  /** A validated entry of `tools`: a plain string, or a tool model. */
  datatype ToolModel =
    | NamedTool(text: string)
    | ToolConfig(toolClass: string, toolModule: string, functionName: Option<string>,
                 functionModule: Option<string>, agent: Option<AgentModel>)

  /**
   * A validated agent: an `AgentConfig` (the LLM agent, with its tools) or a
   * `CompositeAgentConfig` (with sub-agents and an iteration bound). Keys the
   * model does not declare are dropped.
   */
  datatype AgentModel =
    | Simple(name: string, agentClass: string, agentModule: string, description: Option<string>,
             model: Option<string>, instruction: Option<string>, tools: seq<ToolModel>)
    | Composite(name: string, agentClass: string, agentModule: string, description: Option<string>,
                subAgents: seq<AgentModel>, maxIterations: Option<int>)

  /** The outcome of `validate_dict`: a model, a pydantic validation error, or the unknown-class error. */
  datatype Validation =
    | Valid(agent: AgentModel)
    | ValidationError
    | UnknownAgentClass(agentClass: string)

  /**
   * `ToolConfig(**t)`: a string stays a string; a dictionary needs a class
   * and a module, a function tool needs a function name and module, and an
   * agent tool needs an agent, which must itself validate.
   */
  function ParseTool(t: Tool): (r: Option<ToolModel>)
    ensures t.ToolText? ==> r == Some(NamedTool(t.text))
    ensures t.ToolObject? ==> r.None?
    ensures t.ToolDict? ==> (r.Some? <==>
      && t.toolClass.Some? && t.toolModule.Some?
      && (IsFunctionToolClass(t.toolClass.value) ==> Filled(t.functionName) && Filled(t.functionModule))
      && (t.toolClass.value == "AgentTool" ==> t.agent.Some?)
      && (t.agent.Some? ==> ParseAgent(t.agent.value).Some?))
    ensures r.Some? && r.value.ToolConfig? ==> t.ToolDict? && Some(r.value.toolClass) == t.toolClass
    decreases t, 0
  {
    match t
    case ToolText(s) => Some(NamedTool(s))
    case ToolObject(_, _) => None
    case ToolDict(functionName, functionModule, toolClass, toolModule, agent) =>
      if toolClass.None? || toolModule.None? then None
      else
        var parsedAgent := if agent.Some? then ParseAgent(agent.value) else None;
        if agent.Some? && parsedAgent.None? then None
        else if IsFunctionToolClass(toolClass.value) && (!Filled(functionName) || !Filled(functionModule)) then None
        else if toolClass.value == "AgentTool" && agent.None? then None
        else Some(ToolConfig(toolClass.value, toolModule.value, functionName, functionModule, parsedAgent))
  }

  function ParseTools(ts: seq<Tool>): (r: Option<seq<ToolModel>>)
    ensures r.Some? <==> forall i :: 0 <= i < |ts| ==> ParseTool(ts[i]).Some?
    ensures r.Some? ==> |r.value| == |ts| && forall i :: 0 <= i < |ts| ==> Some(r.value[i]) == ParseTool(ts[i])
    decreases ts, 1
  {
    if ts == [] then Some([])
    else
      var head := ParseTool(ts[0]);
      var tail := ParseTools(ts[1..]);
      if head.Some? && tail.Some? then Some([head.value] + tail.value) else None
  }

  /**
   * `AgentConfig(**c)`: name, class and module are required and the class
   * must be one of the four agent classes; `sub_agents` and
   * `max_iterations` are not fields of this model and are dropped.
   */
  function ParseAgent(c: Config): (r: Option<AgentModel>)
    ensures r.Some? <==>
      && c.name.Some? && c.agentClass.Some? && c.agentModule.Some? && IsAgentClass(c.agentClass.value)
      && forall i :: 0 <= i < |c.tools| ==> ParseTool(c.tools[i]).Some?
    ensures r.Some? ==>
      && r.value.Simple? && Some(r.value.name) == c.name && Some(r.value.agentClass) == c.agentClass
      && Some(r.value.agentModule) == c.agentModule && r.value.description == c.description
      && r.value.model == c.model && r.value.instruction == c.instruction && |r.value.tools| == |c.tools|
      && forall i :: 0 <= i < |c.tools| ==> Some(r.value.tools[i]) == ParseTool(c.tools[i])
    decreases c, 2
  {
    if c.name.None? || c.agentClass.None? || c.agentModule.None? || !IsAgentClass(c.agentClass.value) then None
    else
      var tools := ParseTools(c.tools);
      if tools.None? then None
      else Some(Simple(c.name.value, c.agentClass.value, c.agentModule.value, c.description,
                       c.model, c.instruction, tools.value))
  }

  /** Each sub-agent dictionary validated as an `AgentConfig`. */
  function ParseAgents(cs: seq<Config>): (r: Option<seq<AgentModel>>)
    ensures r.Some? <==> forall i :: 0 <= i < |cs| ==> ParseAgent(cs[i]).Some?
    ensures r.Some? ==> |r.value| == |cs| && forall i :: 0 <= i < |cs| ==> Some(r.value[i]) == ParseAgent(cs[i])
  {
    if cs == [] then Some([])
    else
      var head := ParseAgent(cs[0]);
      var tail := ParseAgents(cs[1..]);
      if head.Some? && tail.Some? then Some([head.value] + tail.value) else None
  }

  /** An ASCII decimal digit, the only digit the integer parser of pydantic reads. */
  predicate IsDecimalDigit(c: char)
  {
    '0' <= c <= '9'
  }

  /** A non-empty run of decimal digits. */
  predicate DecimalDigits(s: string)
  {
    s != [] && forall i :: 0 <= i < |s| ==> IsDecimalDigit(s[i])
  }

  /** The value of a decimal integer text with an optional `+` or `-` sign. */
  function SignedValue(s: string): (r: Option<int>)
    ensures r.Some? <==> DecimalDigits(s) || (|s| > 0 && (s[0] == '+' || s[0] == '-') && DecimalDigits(s[1..]))
  {
    if DecimalDigits(s) then Some(Text.DigitsValue(s))
    else if |s| > 0 && s[0] == '+' && DecimalDigits(s[1..]) then Some(Text.DigitsValue(s[1..]))
    else if |s| > 0 && s[0] == '-' && DecimalDigits(s[1..]) then Some(-Text.DigitsValue(s[1..]))
    else None
  }

  /** The text before its first `.` when only zeros follow that point. */
  function WithoutDecimalZeros(s: string): (r: Option<string>)
    ensures r.Some? ==> '.' in s && r.value == s[..Text.CharIndex(s, '.')]
  {
    if '.' in s && forall i :: Text.CharIndex(s, '.') < i < |s| ==> s[i] == '0' then
      Some(s[..Text.CharIndex(s, '.')])
    else None
  }

  /**
   * Pydantic's lax coercion of a value to `int`: an integer is kept, a bool
   * counts as 0 or 1, a float only when it is whole, and a text, stripped of
   * surrounding whitespace, when it is a signed decimal integer, possibly
   * followed by a point and zeros; anything else is rejected.
   */
  function LaxInt(v: Scalar): (r: Option<int>)
    ensures v.IntValue? ==> r == Some(v.i)
    ensures v.BoolValue? ==> r == Some(if v.b then 1 else 0)
    ensures v.FloatValue? ==> (r.Some? <==> v.x == v.x.Floor as real) && (r.Some? ==> r.value as real == v.x)
    ensures v.OtherValue? ==> r.None?
  {
    match v
    case IntValue(i) => Some(i)
    case BoolValue(b) => Some(if b then 1 else 0)
    case FloatValue(x) => if x == x.Floor as real then Some(x.Floor) else None
    case TextValue(s) =>
      var t := Text.Strip(s);
      var whole := SignedValue(t);
      if whole.Some? then whole
      else
        var cut := WithoutDecimalZeros(t);
        if cut.Some? then SignedValue(cut.value) else None
    case OtherValue => None
  }

  /**
   * A decimal integer text, signed or followed by `.0`, coerces to its
   * value; `str(n)` of a natural number is one such text.
   */
  lemma LaxIntReadsDecimal(d: string)
    requires DecimalDigits(d)
    ensures LaxInt(TextValue(d)) == Some(Text.DigitsValue(d))
    ensures LaxInt(TextValue("-" + d)) == Some(-Text.DigitsValue(d))
    ensures LaxInt(TextValue(d + ".0")) == Some(Text.DigitsValue(d))
  {
    ReadsPlain(d);
    ReadsNegative(d);
    ReadsPoint(d);
  }

  lemma NatTextIsDecimal(n: nat)
    ensures DecimalDigits(Text.NatToString(n)) && Text.DigitsValue(Text.NatToString(n)) == n
  {
    Text.NatToStringValue(n);
  }

  lemma ReadsPlain(d: string)
    requires DecimalDigits(d)
    ensures LaxInt(TextValue(d)) == Some(Text.DigitsValue(d))
  {
    Text.StripOfTrimmed(d);
  }

  lemma ReadsNegative(d: string)
    requires DecimalDigits(d)
    ensures LaxInt(TextValue("-" + d)) == Some(-Text.DigitsValue(d))
  {
    var neg := "-" + d;
    SignedNegative(d);
    Text.StripOfTrimmed(neg);
  }

  lemma SignedNegative(d: string)
    requires DecimalDigits(d)
    ensures SignedValue("-" + d) == Some(-Text.DigitsValue(d))
  {
    var neg := "-" + d;
    assert neg[1..] == d;
    assert !IsDecimalDigit(neg[0]);
  }

  lemma ReadsPoint(d: string)
    requires DecimalDigits(d)
    ensures LaxInt(TextValue(d + ".0")) == Some(Text.DigitsValue(d))
  {
    var point := d + ".0";
    PointZeros(d);
    assert !IsDecimalDigit(point[|d|]);
    assert SignedValue(point).None?;
    Text.StripOfTrimmed(point);
  }

  lemma PointZeros(d: string)
    requires DecimalDigits(d)
    ensures WithoutDecimalZeros(d + ".0") == Some(d)
  {
    var point := d + ".0";
    assert point == d + ['.'] + "0";
    Text.CharIndexAfter(d, '.', "0");
    assert point[..|d|] == d;
  }

  /**
   * The composite validator's rule for `max_iterations`, on the coerced
   * value: a loop agent may give a positive integer, a sequential or
   * parallel agent nothing; a value that does not coerce is rejected first.
   */
  predicate MaxIterationsAllowed(agentClass: string, m: Option<Scalar>)
  {
    m.None? ||
    (LaxInt(m.value).Some? && (agentClass == "LoopAgent" ==> LaxInt(m.value).value >= 1) &&
     (agentClass == "SequentialAgent" || agentClass == "ParallelAgent" ==> false))
  }

  /**
   * `CompositeAgentConfig(**c)`: name, class and module are required, the
   * class must be an agent class, `sub_agents` must be None (kept as no
   * sub-agents) or a list of valid `AgentConfig`s and `max_iterations` must obey the composite rule;
   * `tools` is not a field of this model and is dropped.
   */
  function ParseComposite(c: Config): (r: Option<AgentModel>)
    ensures r.Some? <==>
      && c.name.Some? && c.agentClass.Some? && c.agentModule.Some? && IsAgentClass(c.agentClass.value)
      && MaxIterationsAllowed(c.agentClass.value, c.maxIterations)
      && (c.subAgents.NotAList? ==> c.subAgents.value.JNull?)
      && (c.subAgents.Agents? ==> forall i :: 0 <= i < |c.subAgents.list| ==> ParseAgent(c.subAgents.list[i]).Some?)
    ensures r.Some? ==> r.value.Composite? && forall i :: 0 <= i < |r.value.subAgents| ==> r.value.subAgents[i].Simple?
    ensures r.Some? ==>
      && Some(r.value.name) == c.name && Some(r.value.agentClass) == c.agentClass
      && Some(r.value.agentModule) == c.agentModule && r.value.description == c.description
      && (c.maxIterations.None? ==> r.value.maxIterations.None?)
      && (c.maxIterations.Some? ==> r.value.maxIterations == LaxInt(c.maxIterations.value))
      && (!c.subAgents.Agents? ==> r.value.subAgents == [])
      && (c.subAgents.Agents? ==>
            && |r.value.subAgents| == |c.subAgents.list|
            && forall i :: 0 <= i < |c.subAgents.list| ==> Some(r.value.subAgents[i]) == ParseAgent(c.subAgents.list[i]))
  {
    if c.name.None? || c.agentClass.None? || c.agentModule.None? || !IsAgentClass(c.agentClass.value) then None
    else
      var subs := match c.subAgents
        case Absent => Some([])
        case Agents(list) => ParseAgents(list)
        case NotAList(v) => if v.JNull? then Some([]) else None;
      if subs.None? || !MaxIterationsAllowed(c.agentClass.value, c.maxIterations) then None
      else
        var maxIterations := if c.maxIterations.Some? then Some(LaxInt(c.maxIterations.value).value) else None;
        Some(Composite(c.name.value, c.agentClass.value, c.agentModule.value, c.description,
                       subs.value, maxIterations))
  }

  /** The class `validate_dict` takes when the dictionary gives none. */
  const DefaultClass := "Agent"
  /** The module `validate_dict` takes when the dictionary gives none. */
  const DefaultModule := "google.adk.agents"

  /** The copy `validate_dict` validates: class and module get their defaults when missing. */
  function WithDefaults(c: Config): (d: Config)
    ensures d.agentClass == Some(c.agentClass.GetOr(DefaultClass))
    ensures d.agentModule == Some(c.agentModule.GetOr(DefaultModule))
    ensures d.(agentClass := c.agentClass, agentModule := c.agentModule) == c
  {
    c.(agentClass := Some(c.agentClass.GetOr(DefaultClass)), agentModule := Some(c.agentModule.GetOr(DefaultModule)))
  }

  /** The model class `validate_dict` picks: `AgentConfig` for an LLM agent, `CompositeAgentConfig` otherwise. */
  function ParseAs(agentClass: string, d: Config): Option<AgentModel>
  {
    if agentClass == "Agent" then ParseAgent(d) else ParseComposite(d)
  }

  /**
   * `AgentConfigValidator.validate_dict`: on a copy of the dictionary the
   * class and module get their defaults, then the class picks the model.
   */
  function ValidateDict(c: Config): (v: Validation)
    ensures var cls := c.agentClass.GetOr(DefaultClass);
      var parsed := ParseAs(cls, WithDefaults(c));
      IsAgentClass(cls) ==>
        && (v.Valid? <==> parsed.Some?)
        && (v.Valid? ==> v.agent == parsed.value)
        && (!v.Valid? ==> v.ValidationError?)
    ensures v.UnknownAgentClass? <==> !IsAgentClass(c.agentClass.GetOr(DefaultClass))
    ensures v.UnknownAgentClass? ==> c.agentClass == Some(v.agentClass)
    ensures c.name.None? ==> !v.Valid?
    ensures v.Valid? ==>
      && c.name == Some(v.agent.name)
      && v.agent.agentClass == c.agentClass.GetOr(DefaultClass)
      && v.agent.agentModule == c.agentModule.GetOr(DefaultModule)
      && (v.agent.Simple? <==> v.agent.agentClass == "Agent")
    ensures v.Valid? && v.agent.Composite? ==>
      && (v.agent.maxIterations.Some? <==> c.maxIterations.Some?)
      && (v.agent.maxIterations.Some? ==>
            && v.agent.agentClass == "LoopAgent" && v.agent.maxIterations.value >= 1
            && LaxInt(c.maxIterations.value) == Some(v.agent.maxIterations.value))
      && forall i :: 0 <= i < |v.agent.subAgents| ==> v.agent.subAgents[i].Simple?
  {
    var agentClass := c.agentClass.GetOr(DefaultClass);
    var parsed := if IsAgentClass(agentClass) then ParseAs(agentClass, WithDefaults(c)) else None;
    if !IsAgentClass(agentClass) then UnknownAgentClass(agentClass)
    else if parsed.None? then ValidationError
    else Valid(parsed.value)
  }

  /** The agents the validated model holds directly. */
  function SubsOf(a: AgentModel): (r: seq<AgentModel>)
    ensures forall i :: 0 <= i < |r| ==> r[i] < a
  {
    if a.Composite? then a.subAgents else []
  }

  /** A warning of `validate_agent_hierarchy`, with the values its message interpolates. */
  datatype Warning =
    | DeepNesting(path: string, depth: nat)
    | DuplicateName(name: string, path: string)
    | NeitherModelNorInstruction(path: string)
    | NoSubAgents(path: string)

  /** The dotted path of an agent below `path`; the root's is its name. */
  function PathOf(path: string, name: string): string
  {
    if path != "" then path + "." + name else name
  }

  /** Whether the agent has no model and no instruction (an LLM agent only). */
  predicate Unguided(a: AgentModel)
  {
    a.Simple? && a.agentClass == "Agent" && !Filled(a.model) && !Filled(a.instruction)
  }

  /**
   * The warnings for one agent at `depth` below `path`, in the order the
   * recursive check appends them: deep nesting, then each sub-agent's
   * duplicate-name warning followed by its own warnings, then the
   * agent-specific checks.
   */
  function Warnings(a: AgentModel, depth: nat, path: string): seq<Warning>
    decreases a, 2
  {
    var current := PathOf(path, a.name);
    NestingWarnings(depth, current) + ChildWarnings(a, depth, current) + OwnWarnings(a, current)
  }

  function NestingWarnings(depth: nat, current: string): seq<Warning>
  {
    if depth > 5 then [DeepNesting(current, depth)] else []
  }

  function ChildWarnings(a: AgentModel, depth: nat, current: string): seq<Warning>
    decreases a, 1
  {
    if a.Composite? then SiblingWarnings(a.subAgents, {}, depth + 1, current) else []
  }

  function OwnWarnings(a: AgentModel, current: string): seq<Warning>
  {
    (if Unguided(a) then [NeitherModelNorInstruction(current)] else [])
    + (if IsCompositeClass(a.agentClass) && SubsOf(a) == [] then [NoSubAgents(current)] else [])
  }

  /** The warnings of a list of siblings, `seen` holding the names met before them. */
  function SiblingWarnings(subs: seq<AgentModel>, seen: set<string>, depth: nat, path: string): seq<Warning>
    decreases subs, 0
  {
    if subs == [] then []
    else
      (if subs[0].name in seen then [DuplicateName(subs[0].name, path)] else [])
      + Warnings(subs[0], depth, path)
      + SiblingWarnings(subs[1..], seen + {subs[0].name}, depth, path)
  }

  /** `AgentConfigValidator.validate_agent_hierarchy`. */
  method ValidateAgentHierarchy(config: AgentModel) returns (warnings: seq<Warning>)
    ensures warnings == Warnings(config, 0, "")
  {
    warnings := ValidateRecursive(config, 0, "", []);
  }

  /** The nested `_validate_recursive`, appending to the shared list of warnings. */
  method ValidateRecursive(a: AgentModel, depth: nat, path: string, warnings: seq<Warning>)
    returns (r: seq<Warning>)
    ensures r == warnings + Warnings(a, depth, path)
    decreases a, 2
  {
    var current := PathOf(path, a.name);
    r := warnings;
    if depth > 5 {
      r := r + [DeepNesting(current, depth)];
    }
    assert r == warnings + NestingWarnings(depth, current);
    if a.Composite? && a.subAgents != [] {
      r := ValidateSiblings(a.subAgents, depth + 1, current, r);
    } else {
      assert ChildWarnings(a, depth, current) == [];
    }
    ghost var mid := r;
    if a.Simple? && a.agentClass == "Agent" {
      if !Filled(a.model) && !Filled(a.instruction) {
        r := r + [NeitherModelNorInstruction(current)];
      }
    }
    if IsCompositeClass(a.agentClass) {
      if !a.Composite? || a.subAgents == [] {
        r := r + [NoSubAgents(current)];
      }
    }
    WarningsParts(a, depth, path, warnings, mid, r);
  }

  lemma WarningsParts(a: AgentModel, depth: nat, path: string, warnings: seq<Warning>,
                      mid: seq<Warning>, r: seq<Warning>)
    requires mid == warnings + NestingWarnings(depth, PathOf(path, a.name)) + ChildWarnings(a, depth, PathOf(path, a.name))
    requires r == mid + OwnWarnings(a, PathOf(path, a.name))
    ensures r == warnings + Warnings(a, depth, path)
  {
    var current := PathOf(path, a.name);
    var n, c, o := NestingWarnings(depth, current), ChildWarnings(a, depth, current), OwnWarnings(a, current);
    AppendAssoc(warnings, n + c, o);
    AppendAssoc(warnings, n, c);
  }

  /** The loop over one agent's sub-agents, with its `names_at_level` set. */
  method ValidateSiblings(subs: seq<AgentModel>, depth: nat, path: string, warnings: seq<Warning>)
    returns (r: seq<Warning>)
    ensures r == warnings + SiblingWarnings(subs, {}, depth, path)
    decreases subs, 0
  {
    r := warnings;
    var names: set<string> := {};
    var i := 0;
    while i < |subs|
      invariant i <= |subs|
      invariant r + SiblingWarnings(subs[i..], names, depth, path) == warnings + SiblingWarnings(subs, {}, depth, path)
    {
      var sub := subs[i];
      ghost var before := r;
      ghost var seen := names;
      r := r + if sub.name in names then [DuplicateName(sub.name, path)] else [];
      names := names + {sub.name};
      r := ValidateRecursive(sub, depth, path, r);
      SiblingStep(subs, i, seen, depth, path, before, r);
      i := i + 1;
    }
  }

  lemma SiblingStep(subs: seq<AgentModel>, i: nat, seen: set<string>, depth: nat, path: string,
                    before: seq<Warning>, after: seq<Warning>)
    requires i < |subs|
    requires after == before + (if subs[i].name in seen then [DuplicateName(subs[i].name, path)] else [])
      + Warnings(subs[i], depth, path)
    ensures after + SiblingWarnings(subs[i + 1..], seen + {subs[i].name}, depth, path) ==
      before + SiblingWarnings(subs[i..], seen, depth, path)
  {
    var d := if subs[i].name in seen then [DuplicateName(subs[i].name, path)] else [];
    var w := Warnings(subs[i], depth, path);
    var rest := SiblingWarnings(subs[i + 1..], seen + {subs[i].name}, depth, path);
    SiblingUnfold(subs[i..], seen, depth, path);
    assert subs[i..][1..] == subs[i + 1..];
    AppendAssoc(before + d, w, rest);
    AppendAssoc(before, d, w + rest);
  }

  lemma SiblingUnfold(subs: seq<AgentModel>, seen: set<string>, depth: nat, path: string)
    requires subs != []
    ensures SiblingWarnings(subs, seen, depth, path) ==
      (if subs[0].name in seen then [DuplicateName(subs[0].name, path)] else [])
      + (Warnings(subs[0], depth, path) + SiblingWarnings(subs[1..], seen + {subs[0].name}, depth, path))
  {
    AppendAssoc(if subs[0].name in seen then [DuplicateName(subs[0].name, path)] else [],
      Warnings(subs[0], depth, path), SiblingWarnings(subs[1..], seen + {subs[0].name}, depth, path));
  }

  /** The warnings an agent earns by itself: no model nor instruction, or a composite class with no sub-agents. */
  predicate Issue(a: AgentModel, w: Warning, path: string)
  {
    (w == NeitherModelNorInstruction(PathOf(path, a.name)) && Unguided(a)) ||
    (w == NoSubAgents(PathOf(path, a.name)) && IsCompositeClass(a.agentClass) && SubsOf(a) == [])
  }

  /** Some sibling has the issue `w`. */
  predicate SiblingIssue(subs: seq<AgentModel>, w: Warning, path: string)
  {
    exists i :: 0 <= i < |subs| && Issue(subs[i], w, path)
  }

  /** Some sibling is named `name` after a name in `seen` or an earlier sibling of that name. */
  predicate RepeatsAfter(subs: seq<AgentModel>, seen: set<string>, name: string)
  {
    exists i :: 0 <= i < |subs| && subs[i].name == name && (name in seen || NamedBefore(subs, i, name))
  }

  predicate NamedBefore(subs: seq<AgentModel>, i: int, name: string)
    requires 0 <= i <= |subs|
  {
    exists j :: 0 <= j < i && subs[j].name == name
  }

  /** Two siblings share the name `name`. */
  predicate Repeated(subs: seq<AgentModel>, name: string)
  {
    exists i, j :: 0 <= j < i < |subs| && subs[j].name == name && subs[i].name == name
  }

  /** An agent without sub-agents, not too deep, is warned about exactly for its own issues. */
  lemma LeafWarnings(a: AgentModel, depth: nat, path: string, w: Warning)
    requires a.Simple? && depth <= 5
    ensures w in Warnings(a, depth, path) <==> Issue(a, w, path)
  {
    assert NestingWarnings(depth, PathOf(path, a.name)) == [];
    assert ChildWarnings(a, depth, PathOf(path, a.name)) == [];
  }

  lemma SiblingIssueUnfold(subs: seq<AgentModel>, w: Warning, path: string)
    requires subs != []
    ensures SiblingIssue(subs, w, path) <==> Issue(subs[0], w, path) || SiblingIssue(subs[1..], w, path)
  {
    if SiblingIssue(subs, w, path) && !Issue(subs[0], w, path) {
      var i :| 0 <= i < |subs| && Issue(subs[i], w, path);
      assert subs[1..][i - 1] == subs[i];
    }
    if SiblingIssue(subs[1..], w, path) {
      var i :| 0 <= i < |subs[1..]| && Issue(subs[1..][i], w, path);
      assert subs[i + 1] == subs[1..][i];
    }
  }

  lemma RepeatsAfterUnfold(subs: seq<AgentModel>, seen: set<string>, name: string)
    requires subs != []
    ensures RepeatsAfter(subs, seen, name) <==>
      (subs[0].name == name && name in seen) || RepeatsAfter(subs[1..], seen + {subs[0].name}, name)
  {
    if RepeatsAfter(subs, seen, name) && !(subs[0].name == name && name in seen) {
      RepeatsInTail(subs, seen, name);
    }
    if RepeatsAfter(subs[1..], seen + {subs[0].name}, name) {
      RepeatsFromTail(subs, seen, name);
    }
  }

  lemma RepeatsInTail(subs: seq<AgentModel>, seen: set<string>, name: string)
    requires subs != [] && RepeatsAfter(subs, seen, name) && !(subs[0].name == name && name in seen)
    ensures RepeatsAfter(subs[1..], seen + {subs[0].name}, name)
  {
    var rest := subs[1..];
    var i :| 0 <= i < |subs| && subs[i].name == name && (name in seen || NamedBefore(subs, i, name));
    assert i > 0;
    assert rest[i - 1] == subs[i];
    if name !in seen && subs[0].name != name {
      var j :| 0 <= j < i && subs[j].name == name;
      assert rest[j - 1] == subs[j];
      assert NamedBefore(rest, i - 1, name);
    }
  }

  lemma RepeatsFromTail(subs: seq<AgentModel>, seen: set<string>, name: string)
    requires subs != [] && RepeatsAfter(subs[1..], seen + {subs[0].name}, name)
    ensures RepeatsAfter(subs, seen, name)
  {
    var rest := subs[1..];
    var i :| 0 <= i < |rest| && rest[i].name == name && (name in seen + {subs[0].name} || NamedBefore(rest, i, name));
    assert subs[i + 1] == rest[i];
    if name == subs[0].name {
      assert NamedBefore(subs, i + 1, name);
    } else if name !in seen {
      var j :| 0 <= j < i && rest[j].name == name;
      assert subs[j + 1] == rest[j];
      assert NamedBefore(subs, i + 1, name);
    }
  }

  /**
   * Below the nesting limit, the warnings for siblings that hold no
   * sub-agents are their own issues and one duplicate-name warning, at the
   * parent's path, for each sibling whose name was met before.
   */
  lemma {:induction false} LeafSiblingWarnings(subs: seq<AgentModel>, seen: set<string>, depth: nat, path: string, w: Warning)
    requires depth <= 5 && forall i :: 0 <= i < |subs| ==> subs[i].Simple?
    ensures w in SiblingWarnings(subs, seen, depth, path) <==>
      SiblingIssue(subs, w, path) || (w.DuplicateName? && w.path == path && RepeatsAfter(subs, seen, w.name))
    decreases |subs|
  {
    if subs != [] {
      LeafSiblingWarnings(subs[1..], seen + {subs[0].name}, depth, path, w);
      LeafWarnings(subs[0], depth, path, w);
      SiblingIssueUnfold(subs, w, path);
      if w.DuplicateName? {
        RepeatsAfterUnfold(subs, seen, w.name);
      }
    }
  }

  lemma RepeatedFromStart(subs: seq<AgentModel>, name: string)
    ensures RepeatsAfter(subs, {}, name) <==> Repeated(subs, name)
  {
    if RepeatsAfter(subs, {}, name) {
      var i :| 0 <= i < |subs| && subs[i].name == name && NamedBefore(subs, i, name);
      var j :| 0 <= j < i && subs[j].name == name;
    }
    if Repeated(subs, name) {
      var i, j :| 0 <= j < i < |subs| && subs[j].name == name && subs[i].name == name;
      assert NamedBefore(subs, i, name);
    }
  }

  /**
   * The warnings for a validated configuration: the root's own issues, each
   * sub-agent's own issues at the root's path, and a duplicate-name warning
   * for every name two sub-agents share; never a deep-nesting warning, since
   * a sub-agent is validated without sub-agents of its own.
   */
  lemma ValidatedWarnings(c: Config, w: Warning)
    requires ValidateDict(c).Valid?
    ensures var m := ValidateDict(c).agent;
      w in Warnings(m, 0, "") <==>
        || Issue(m, w, "")
        || SiblingIssue(SubsOf(m), w, m.name)
        || (w.DuplicateName? && w.path == m.name && Repeated(SubsOf(m), w.name))
  {
    var m := ValidateDict(c).agent;
    if m.Simple? {
      LeafWarnings(m, 0, "", w);
    } else {
      RootWarnings(m, w);
    }
  }

  /** The warnings for a root whose sub-agents have no sub-agents of their own. */
  lemma RootWarnings(m: AgentModel, w: Warning)
    requires m.Composite? && forall i :: 0 <= i < |m.subAgents| ==> m.subAgents[i].Simple?
    ensures w in Warnings(m, 0, "") <==>
      || Issue(m, w, "")
      || SiblingIssue(SubsOf(m), w, m.name)
      || (w.DuplicateName? && w.path == m.name && Repeated(SubsOf(m), w.name))
  {
    RootWarningsSplit(m);
    OwnIssue(m, w, "");
    LeafSiblingWarnings(m.subAgents, {}, 1, m.name, w);
    if w.DuplicateName? {
      RepeatedFromStart(m.subAgents, w.name);
    }
  }

  /** A composite root's warnings: its sub-agents' at its name, then its own. */
  lemma RootWarningsSplit(m: AgentModel)
    requires m.Composite?
    ensures PathOf("", m.name) == m.name
    ensures Warnings(m, 0, "") == SiblingWarnings(m.subAgents, {}, 1, m.name) + OwnWarnings(m, m.name)
  {
    assert PathOf("", m.name) == m.name;
  }

  /** An agent's own warnings are its issues. */
  lemma OwnIssue(a: AgentModel, w: Warning, path: string)
    ensures w in OwnWarnings(a, PathOf(path, a.name)) <==> Issue(a, w, path)
  {
  }

  /** `validate_agent_hierarchy` never reports deep nesting for a configuration `validate_dict` accepts. */
  lemma ValidatedNeverDeep(c: Config)
    requires ValidateDict(c).Valid?
    ensures forall k :: 0 <= k < |Warnings(ValidateDict(c).agent, 0, "")| ==>
      !Warnings(ValidateDict(c).agent, 0, "")[k].DeepNesting?
  {
    var ws := Warnings(ValidateDict(c).agent, 0, "");
    forall k | 0 <= k < |ws| ensures !ws[k].DeepNesting? {
      ValidatedWarnings(c, ws[k]);
    }
  }

  /*
   * The nesting the hierarchy check is written for. `CompositeAgentConfig`
   * types `sub_agents` as a list of `AgentConfig`, which has no
   * `sub_agents` field, so a composite sub-agent loses its own sub-agents
   * and the deep-nesting warning can never fire (`ValidatedNeverDeep`).
   * The definitions below validate each sub-agent as the model its class
   * names, keeping composites nested, and show that the check then reports
   * exactly the hierarchies deeper than six levels.
   */

  /** Whether some warning of `ws` is a deep-nesting warning. */
  predicate HasDeep(ws: seq<Warning>)
  {
    exists k :: 0 <= k < |ws| && ws[k].DeepNesting?
  }

  lemma HasDeepAppend(a: seq<Warning>, b: seq<Warning>)
    ensures HasDeep(a + b) <==> HasDeep(a) || HasDeep(b)
  {
    if HasDeep(a + b) {
      var k :| 0 <= k < |a + b| && (a + b)[k].DeepNesting?;
      if k >= |a| {
        assert b[k - |a|] == (a + b)[k];
      }
    }
    if HasDeep(b) {
      var k :| 0 <= k < |b| && b[k].DeepNesting?;
      assert (a + b)[|a| + k] == b[k];
    }
    if HasDeep(a) {
      var k :| 0 <= k < |a| && a[k].DeepNesting?;
      assert (a + b)[k] == a[k];
    }
  }

  /** The number of levels of a validated model: 1 for an agent without sub-agents. */
  function ModelDepth(a: AgentModel): (d: nat)
    ensures d >= 1
    decreases a, 1
  {
    if a.Composite? then 1 + ModelMaxDepth(a.subAgents) else 1
  }

  function ModelMaxDepth(ms: seq<AgentModel>): (d: nat)
    ensures ms != [] ==> d >= 1
    decreases ms, 0
  {
    if ms == [] then 0
    else
      var h := ModelDepth(ms[0]);
      var t := ModelMaxDepth(ms[1..]);
      if h >= t then h else t
  }

  /** The hierarchy check of an agent at `depth` warns of deep nesting exactly when its deepest agent lies below depth 5. */
  lemma {:induction false} WarningsDeep(a: AgentModel, depth: nat, path: string)
    ensures HasDeep(Warnings(a, depth, path)) <==> depth + ModelDepth(a) > 6
    decreases a, 1
  {
    var current := PathOf(path, a.name);
    HasDeepAppend(NestingWarnings(depth, current), ChildWarnings(a, depth, current));
    HasDeepAppend(NestingWarnings(depth, current) + ChildWarnings(a, depth, current), OwnWarnings(a, current));
    OwnNeverDeep(a, current);
    if a.Composite? {
      SiblingsDeep(a.subAgents, {}, depth + 1, current);
    }
    if depth > 5 {
      assert NestingWarnings(depth, current)[0].DeepNesting?;
    }
  }

  lemma OwnNeverDeep(a: AgentModel, current: string)
    ensures !HasDeep(OwnWarnings(a, current))
  {
  }

  lemma {:induction false} SiblingsDeep(subs: seq<AgentModel>, seen: set<string>, depth: nat, path: string)
    ensures HasDeep(SiblingWarnings(subs, seen, depth, path)) <==> subs != [] && depth + ModelMaxDepth(subs) > 6
    decreases subs, 0
  {
    if subs != [] {
      var dup: seq<Warning> := if subs[0].name in seen then [DuplicateName(subs[0].name, path)] else [];
      WarningsDeep(subs[0], depth, path);
      SiblingsDeep(subs[1..], seen + {subs[0].name}, depth, path);
      HasDeepAppend(dup, Warnings(subs[0], depth, path));
      HasDeepAppend(dup + Warnings(subs[0], depth, path), SiblingWarnings(subs[1..], seen + {subs[0].name}, depth, path));
      assert !HasDeep(dup);
    }
  }

  /** A composite configuration with every sub-agent validated as the model its class names, composites included. */
  function ParseNested(c: Config): (r: Option<AgentModel>)
    ensures r.Some? ==> Some(r.value.name) == c.name && Some(r.value.agentClass) == c.agentClass
    ensures r.Some? ==> (r.value.Composite? <==> IsCompositeClass(c.agentClass.value))
    ensures r.Some? && r.value.Composite? && c.subAgents.Agents? ==> |r.value.subAgents| == |c.subAgents.list|
    decreases c, 1
  {
    if c.name.None? || c.agentClass.None? || c.agentModule.None? || !IsAgentClass(c.agentClass.value) then None
    else if !IsCompositeClass(c.agentClass.value) then ParseAgent(c)
    else
      var subs := match c.subAgents
        case Absent => Some([])
        case Agents(list) => ParseNestedAll(list)
        case NotAList(v) => if v.JNull? then Some([]) else None;
      if subs.None? || !MaxIterationsAllowed(c.agentClass.value, c.maxIterations) then None
      else
        var maxIterations := if c.maxIterations.Some? then Some(LaxInt(c.maxIterations.value).value) else None;
        Some(Composite(c.name.value, c.agentClass.value, c.agentModule.value, c.description,
                       subs.value, maxIterations))
  }

  /**
   * `sub_agents: null` is accepted for `Optional[List['AgentConfig']]`: a
   * composite dictionary holding it validates, with or without the nesting
   * kept, exactly as one without the key, and has no sub-agents.
   */
  lemma NullSubAgentsAccepted(c: Config)
    requires c.subAgents == NotAList(Json.JNull)
    ensures ParseComposite(c) == ParseComposite(c.(subAgents := Absent))
    ensures ParseNested(c) == ParseNested(c.(subAgents := Absent))
    ensures ParseComposite(c).Some? ==> ParseComposite(c).value.subAgents == []
  {
  }

  function ParseNestedAll(cs: seq<Config>): (r: Option<seq<AgentModel>>)
    ensures r.Some? <==> forall i :: 0 <= i < |cs| ==> ParseNested(cs[i]).Some?
    ensures r.Some? ==> |r.value| == |cs| && forall i :: 0 <= i < |cs| ==> Some(r.value[i]) == ParseNested(cs[i])
    decreases cs, 0
  {
    if cs == [] then Some([])
    else
      var head := ParseNested(cs[0]);
      var tail := ParseNestedAll(cs[1..]);
      if head.Some? && tail.Some? then Some([head.value] + tail.value) else None
  }

  /** `validate_dict` with the nesting kept: the root's defaults, then the model its class names. */
  function ValidateDictNested(c: Config): (v: Validation)
    ensures v.UnknownAgentClass? <==> !IsAgentClass(c.agentClass.GetOr(DefaultClass))
    ensures c.agentClass.GetOr(DefaultClass) == "Agent" ==> v == ValidateDict(c)
    ensures v.Valid? ==> c.name == Some(v.agent.name) && v.agent.agentClass == c.agentClass.GetOr(DefaultClass)
  {
    var agentClass := c.agentClass.GetOr(DefaultClass);
    var parsed := ParseNested(WithDefaults(c));
    if !IsAgentClass(agentClass) then UnknownAgentClass(agentClass)
    else if parsed.None? then ValidationError
    else Valid(parsed.value)
  }

  /** With the nesting kept, the hierarchy check reports deep nesting exactly for a validated model of more than six levels. */
  lemma NestedDeepWarned(c: Config)
    requires ValidateDictNested(c).Valid?
    ensures HasDeep(Warnings(ValidateDictNested(c).agent, 0, "")) <==> ModelDepth(ValidateDictNested(c).agent) > 6
  {
    WarningsDeep(ValidateDictNested(c).agent, 0, "");
  }

  /** `n` sequential agents, each holding the next, above an LLM agent with a model. */
  function Chain(n: nat): Config
  {
    var agent := EmptyConfig().(name := Some("agent"), agentModule := Some(DefaultModule));
    if n == 0 then agent.(agentClass := Some("Agent"), model := Some("model"))
    else agent.(agentClass := Some("SequentialAgent"), subAgents := Agents([Chain(n - 1)]))
  }

  lemma {:induction false} ChainNested(n: nat)
    ensures ParseNested(Chain(n)).Some? && ModelDepth(ParseNested(Chain(n)).value) == n + 1
  {
    if n > 0 {
      ChainNested(n - 1);
      var m := ParseNested(Chain(n - 1)).value;
      var subs := ParseNestedAll([Chain(n - 1)]);
      assert [Chain(n - 1)][0] == Chain(n - 1);
      assert subs.Some? && subs.value[0] == m;
      assert subs.value == [m];
      assert [m][1..] == [];
      assert ModelMaxDepth([m]) == ModelDepth(m);
    }
  }

  /**
   * Seven levels: `validate_dict` accepts the chain and the check reports no
   * deep nesting; with the nesting kept, the agent at depth 6 is reported.
   */
  lemma DeepChainWarned()
    ensures ValidateDict(Chain(6)).Valid? && !HasDeep(Warnings(ValidateDict(Chain(6)).agent, 0, ""))
    ensures ValidateDictNested(Chain(6)).Valid? && HasDeep(Warnings(ValidateDictNested(Chain(6)).agent, 0, ""))
  {
    ChainNested(6);
    assert ValidateDictNested(Chain(6)) == Valid(ParseNested(Chain(6)).value);
    NestedDeepWarned(Chain(6));
    ChainNested(5);
    assert ParseAgents([Chain(5)]).Some?;
    ValidatedNeverDeep(Chain(6));
  }
}
