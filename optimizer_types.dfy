/**
 * The records of the prompt optimizer (agent_optimizer/types.py): traces,
 * feedback, suggestions, iteration and result records, the optimization
 * input with its backward-compatible single pair, the scoring metrics, and
 * the two configuration helpers that rewrite and read agent prompts.
 */
module OptimizerTypes {
  import opened Wrappers
  import opened Json
  import opened AgentConfig
  import Text

  datatype OptimizationObjective = Accuracy | Fluency | Factuality | InstructionFollowing

  /** How per-pair scores are combined into one score. */
  datatype AggregationStrategy = Average | WeightedAverage | Min | Max | Median

  /** What one agent did during a run. */
  datatype AgentTrace = AgentTrace(
    agentId: string,
    inputData: string,
    outputData: string,
    prompt: string,
    toolsUsed: seq<string>,
    executionTime: Option<real>,
    error: Option<string>)

  /** What a whole run did; `agentTraces` keeps the order in which agents were recorded. */
  datatype WorkflowTrace = WorkflowTrace(
    agentTraces: seq<(string, AgentTrace)>,
    totalExecutionTime: Option<real>,
    finalOutput: Option<string>)

  /**
   * One agent feedback record. The fields hold the values of the
   * evaluation reply's item as they are, whatever their type; a missing
   * key gives the default, and a missing `suggested_fix` gives `None`.
   */
  datatype AgentFeedback = AgentFeedback(
    agentId: Json,
    issue: Json,
    evidence: Json,
    suggestedFix: Json)

  datatype EvaluationResult = EvaluationResult(
    score: real,
    globalFeedback: Json,
    agentFeedback: seq<AgentFeedback>,
    metrics: map<string, real>)

  datatype PromptSuggestion = PromptSuggestion(
    agentId: string,
    newPrompt: string,
    reason: string,
    confidence: real)

  /** One row of the optimization history; `currentPrompts` is recorded by the optimizer loop. */
  datatype OptimizationIteration = OptimizationIteration(
    iteration: int,
    score: real,
    changedPrompts: seq<PromptSuggestion>,
    evaluationResult: Option<EvaluationResult>,
    trace: Option<WorkflowTrace>,
    criticResponse: Option<string>,
    suggesterResponse: Option<string>,
    generatedSuggestions: seq<PromptSuggestion>,
    currentPrompts: map<string, string>)

  /** Loop settings; `maxLlmRetriesPerIteration` is the retry bound the optimizer loop reads. */
  datatype OptimizationConfig = OptimizationConfig(
    maxIterations: int,
    convergenceThreshold: real,
    objective: OptimizationObjective,
    enableTracing: bool,
    plateauThreshold: real,
    plateauPatience: int,
    aggregationStrategy: AggregationStrategy,
    maxLlmRetriesPerIteration: int)

  /** The outcome of a run, with the LLM failure counters the optimizer loop maintains. */
  datatype OptimizationResult = OptimizationResult(
    finalScore: real,
    iterationsRun: int,
    finalAgentConfig: Config,
    history: seq<OptimizationIteration>,
    convergenceAchieved: bool,
    terminationReason: string,
    baselineScore: Option<real>,
    baselineEvaluation: Option<EvaluationResult>,
    llmFailureCount: nat,
    llmServiceErrors: nat,
    llmFormatErrors: nat)

  /** The `template_config_content` entry of a job configuration. */
  datatype TemplateContent = TemplateContent(
    templateName: string,
    templateDescription: string,
    userQueryTemplate: string,
    variables: map<string, string>)

  /** The `analysis_config` entry: its template content, if any, and its other keys. */
  datatype AnalysisConfig = AnalysisConfig(
    templateConfigContent: Option<TemplateContent>,
    otherKeys: map<string, string>)

  /** A job configuration: its analysis section, if any, and its other keys. */
  datatype JobConfig = JobConfig(
    analysisConfig: Option<AnalysisConfig>,
    otherKeys: map<string, string>)

  /** An input (by its `str()` text) and the output expected for it. */
  datatype InputOutputPair = InputOutputPair(inputData: string, expectedOutput: string, weight: real)

  datatype OptimizationInput = OptimizationInput(
    agentConfig: Config,
    inputOutputPairs: seq<InputOutputPair>,
    config: OptimizationConfig,
    jobConfig: Option<JobConfig>,
    inputData: Option<string>,
    expectedOutput: Option<string>)

  /**
   * `OptimizationInput.__post_init__`: the deprecated single `input_data` /
   * `expected_output` becomes the only pair, with weight 1.0, when no pairs
   * were given; an input still without pairs is rejected.
   */
  function PostInit(inp: OptimizationInput): (r: Result<OptimizationInput>)
    ensures r.Ok? <==> (inp.inputOutputPairs != [] || (inp.inputData.Some? && inp.expectedOutput.Some?))
    ensures r.Ok? ==> r.value.inputOutputPairs != []
    ensures r.Ok? && inp.inputOutputPairs != [] ==> r.value == inp
    ensures r.Ok? && inp.inputOutputPairs == [] ==>
      r.value == inp.(inputOutputPairs := [InputOutputPair(inp.inputData.value, inp.expectedOutput.value, 1.0)])
  {
    var withPair :=
      if inp.inputData.Some? && inp.expectedOutput.Some? && inp.inputOutputPairs == [] then
        inp.(inputOutputPairs := [InputOutputPair(inp.inputData.value, inp.expectedOutput.value, 1.0)])
      else inp;
    if withPair.inputOutputPairs == [] then
      Err("Must provide either input_output_pairs or input_data/expected_output")
    else Ok(withPair)
  }

  // ---------------------------------------------------------------------
  // Rewriting one agent's prompt
  // ---------------------------------------------------------------------

  /**
   * The walk of `update_agent_prompt`: a node named `id` takes the prompt
   * and stops the walk; otherwise its sub-agents are tried left to right.
   * The flag says whether some node took the prompt.
   */
  function UpdateNode(c: Config, id: string, prompt: string): (Config, bool)
    decreases c, 1
  {
    if c.name == Some(id) then (c.(instruction := Some(prompt)), true)
    else
      match c.subAgents
      case Agents(list) =>
        var (updated, found) := UpdateList(list, id, prompt);
        (c.(subAgents := Agents(updated)), found)
      case _ => (c, false)
  }

  function UpdateList(cs: seq<Config>, id: string, prompt: string): (seq<Config>, bool)
    decreases cs, 0
  {
    if cs == [] then ([], false)
    else
      var (head, found) := UpdateNode(cs[0], id, prompt);
      if found then ([head] + cs[1..], true)
      else
        var (tail, foundLater) := UpdateList(cs[1..], id, prompt);
        ([cs[0]] + tail, foundLater)
  }

  /** `AgentConfigUpdater.update_agent_prompt`: a new configuration; the argument is a value and is never changed. */
  function UpdateAgentPrompt(c: Config, id: string, prompt: string): Config
  {
    UpdateNode(c, id, prompt).0
  }

  /** A label with its instruction replaced. */
  function WithInstruction(l: Label, prompt: string): Label
  {
    l.(fields := l.fields.(instruction := Some(prompt)))
  }

  lemma LabelsOfAppend(xs: seq<Config>, ys: seq<Config>)
    ensures LabelsOf(xs + ys) == LabelsOf(xs) + LabelsOf(ys)
  {
  }

  lemma SeqUpdateAppend<T>(a: seq<T>, b: seq<T>, k: nat, x: T)
    requires k < |a| + |b|
    ensures (a + b)[k := x] == if k < |a| then a[k := x] + b else a + b[k - |a| := x]
  {
  }

  /** The labels a walk that found the node at `k` produces; `k` past the end means no change. */
  function Relabel(ls: seq<Label>, k: nat, prompt: string): seq<Label>
  {
    if k < |ls| then ls[k := WithInstruction(ls[k], prompt)] else ls
  }

  lemma RelabelAppend(a: seq<Label>, b: seq<Label>, k: nat, prompt: string)
    ensures Relabel(a + b, k, prompt) ==
      if k < |a| then Relabel(a, k, prompt) + b else a + Relabel(b, k - |a|, prompt)
  {
    if k < |a| + |b| {
      SeqUpdateAppend(a, b, k, WithInstruction((a + b)[k], prompt));
    }
  }

  /**
   * Only the first node in pre-order named `id` changes, and only its
   * instruction; when no node is named `id` the configuration is returned
   * as it was.
   */
  lemma {:induction false} UpdateNodeSpec(c: Config, id: string, prompt: string)
    ensures UpdateNode(c, id, prompt).1 == HasNamed(c, id)
    ensures Labels(UpdateNode(c, id, prompt).0) == Relabel(Labels(c), FirstNamed(Flatten(c), id), prompt)
    ensures !UpdateNode(c, id, prompt).1 ==> UpdateNode(c, id, prompt).0 == c
    decreases c, 1
  {
    if c.name == Some(id) {
      UpdateNodeHere(c, id, prompt);
    } else {
      match c.subAgents
      case Agents(list) =>
        UpdateListSpec(list, id, prompt);
        UpdateNodeBelow(c, id, prompt, list);
      case Absent =>
        UpdateNodeLeaf(c, id, prompt);
      case NotAList(_) =>
        UpdateNodeLeaf(c, id, prompt);
    }
  }

  /** The list walk's contract, as `UpdateListSpec` states it. */
  predicate ListUpdated(cs: seq<Config>, id: string, prompt: string)
  {
    var (updated, found) := UpdateList(cs, id, prompt);
    && |updated| == |cs|
    && found == (FirstNamed(FlattenAll(cs), id) < |FlattenAll(cs)|)
    && LabelsOf(FlattenAll(updated)) == Relabel(LabelsOf(FlattenAll(cs)), FirstNamed(FlattenAll(cs), id), prompt)
    && (!found ==> updated == cs)
  }

  /** A node's pre-order is the node followed by its sub-agents' pre-order. */
  lemma FlattenUnfold(c: Config)
    ensures Flatten(c) == [c] + (if c.subAgents.Agents? then FlattenAll(c.subAgents.list) else [])
  {
  }

  lemma UpdateNodeHere(c: Config, id: string, prompt: string)
    requires c.name == Some(id)
    ensures UpdateNode(c, id, prompt).1 == HasNamed(c, id)
    ensures Labels(UpdateNode(c, id, prompt).0) == Relabel(Labels(c), FirstNamed(Flatten(c), id), prompt)
  {
    var r := c.(instruction := Some(prompt));
    var rest := if c.subAgents.Agents? then FlattenAll(c.subAgents.list) else [];
    FlattenUnfold(c);
    FlattenUnfold(r);
    LabelsOfAppend([r], rest);
    LabelsOfAppend([c], rest);
    RelabelAppend(LabelsOf([c]), LabelsOf(rest), 0, prompt);
    RelabelHead(c, r, prompt);
  }

  lemma RelabelHead(c: Config, r: Config, prompt: string)
    requires r == c.(instruction := Some(prompt))
    ensures Relabel(LabelsOf([c]), 0, prompt) == LabelsOf([r])
  {
  }

  lemma UpdateNodeLeaf(c: Config, id: string, prompt: string)
    requires c.name != Some(id) && !c.subAgents.Agents?
    ensures !UpdateNode(c, id, prompt).1 && !HasNamed(c, id)
    ensures UpdateNode(c, id, prompt).0 == c
  {
    FlattenUnfold(c);
  }

  lemma UpdateNodeBelow(c: Config, id: string, prompt: string, list: seq<Config>)
    requires c.name != Some(id) && c.subAgents == Agents(list)
    requires ListUpdated(list, id, prompt)
    ensures UpdateNode(c, id, prompt).1 == HasNamed(c, id)
    ensures Labels(UpdateNode(c, id, prompt).0) == Relabel(Labels(c), FirstNamed(Flatten(c), id), prompt)
    ensures !UpdateNode(c, id, prompt).1 ==> UpdateNode(c, id, prompt).0 == c
  {
    BelowFound(c, id, prompt, list);
    BelowLabels(c, id, prompt, list);
  }

  lemma FirstNamedAfterRoot(c: Config, id: string, list: seq<Config>)
    requires c.name != Some(id) && c.subAgents == Agents(list)
    ensures FirstNamed(Flatten(c), id) == 1 + FirstNamed(FlattenAll(list), id)
    ensures |Flatten(c)| == 1 + |FlattenAll(list)|
  {
    FlattenUnfold(c);
    FirstNamedAppend([c], FlattenAll(list), id);
  }

  lemma BelowFound(c: Config, id: string, prompt: string, list: seq<Config>)
    requires c.name != Some(id) && c.subAgents == Agents(list)
    requires ListUpdated(list, id, prompt)
    ensures UpdateNode(c, id, prompt).1 == HasNamed(c, id)
    ensures !UpdateNode(c, id, prompt).1 ==> UpdateNode(c, id, prompt).0 == c
  {
    FirstNamedAfterRoot(c, id, list);
  }

  lemma BelowLabels(c: Config, id: string, prompt: string, list: seq<Config>)
    requires c.name != Some(id) && c.subAgents == Agents(list)
    requires ListUpdated(list, id, prompt)
    ensures Labels(UpdateNode(c, id, prompt).0) == Relabel(Labels(c), FirstNamed(Flatten(c), id), prompt)
  {
    var updated := UpdateList(list, id, prompt).0;
    var r := c.(subAgents := Agents(updated));
    UpdateNodeBelowIs(c, id, prompt, list);
    LabelsSplit(c, list);
    LabelsSplit(r, updated);
    ListUpdatedLabels(list, id, prompt);
    FirstNamedAfterRoot(c, id, list);
    SameLabelOf(c, r);
    RelabelAppend(LabelsOf([c]), LabelsOf(FlattenAll(list)), FirstNamed(Flatten(c), id), prompt);
  }

  lemma UpdateNodeBelowIs(c: Config, id: string, prompt: string, list: seq<Config>)
    requires c.name != Some(id) && c.subAgents == Agents(list)
    ensures UpdateNode(c, id, prompt).0 == c.(subAgents := Agents(UpdateList(list, id, prompt).0))
  {
  }

  lemma LabelsSplit(c: Config, list: seq<Config>)
    requires c.subAgents == Agents(list)
    ensures Labels(c) == LabelsOf([c]) + LabelsOf(FlattenAll(list))
  {
    FlattenUnfold(c);
    LabelsOfAppend([c], FlattenAll(list));
  }

  lemma ListUpdatedLabels(cs: seq<Config>, id: string, prompt: string)
    requires ListUpdated(cs, id, prompt)
    ensures |UpdateList(cs, id, prompt).0| == |cs|
    ensures LabelsOf(FlattenAll(UpdateList(cs, id, prompt).0)) ==
      Relabel(LabelsOf(FlattenAll(cs)), FirstNamed(FlattenAll(cs), id), prompt)
    ensures UpdateList(cs, id, prompt).1 == (FirstNamed(FlattenAll(cs), id) < |FlattenAll(cs)|)
    ensures !UpdateList(cs, id, prompt).1 ==> UpdateList(cs, id, prompt).0 == cs
  {
  }

  lemma SameLabelOf(c: Config, r: Config)
    requires r.subAgents.Agents? && c.subAgents.Agents? && |r.subAgents.list| == |c.subAgents.list|
    requires r == c.(subAgents := r.subAgents)
    ensures LabelsOf([r]) == LabelsOf([c])
  {
  }

  lemma {:induction false} UpdateListSpec(cs: seq<Config>, id: string, prompt: string)
    ensures |UpdateList(cs, id, prompt).0| == |cs|
    ensures UpdateList(cs, id, prompt).1 == (FirstNamed(FlattenAll(cs), id) < |FlattenAll(cs)|)
    ensures LabelsOf(FlattenAll(UpdateList(cs, id, prompt).0)) ==
      Relabel(LabelsOf(FlattenAll(cs)), FirstNamed(FlattenAll(cs), id), prompt)
    ensures !UpdateList(cs, id, prompt).1 ==> UpdateList(cs, id, prompt).0 == cs
    decreases cs, 0
  {
    if cs != [] {
      UpdateNodeSpec(cs[0], id, prompt);
      if UpdateNode(cs[0], id, prompt).1 {
        ListFoundHead(cs, id, prompt);
      } else {
        UpdateListSpec(cs[1..], id, prompt);
        ListFoundLater(cs, id, prompt);
      }
    }
  }

  /** The pre-order of a non-empty list: its first tree's, then the rest's. */
  lemma FlattenAllCons(cs: seq<Config>)
    requires cs != []
    ensures FlattenAll(cs) == Flatten(cs[0]) + FlattenAll(cs[1..])
  {
  }

  lemma ConsTail<T>(x: T, xs: seq<T>)
    ensures ([x] + xs)[0] == x && ([x] + xs)[1..] == xs
  {
  }

  /** The list walk when its first tree takes the prompt. */
  lemma ListFoundHead(cs: seq<Config>, id: string, prompt: string)
    requires cs != [] && UpdateNode(cs[0], id, prompt).1 && HasNamed(cs[0], id)
    requires Labels(UpdateNode(cs[0], id, prompt).0) ==
      Relabel(Labels(cs[0]), FirstNamed(Flatten(cs[0]), id), prompt)
    ensures |UpdateList(cs, id, prompt).0| == |cs|
    ensures UpdateList(cs, id, prompt).1 == (FirstNamed(FlattenAll(cs), id) < |FlattenAll(cs)|)
    ensures LabelsOf(FlattenAll(UpdateList(cs, id, prompt).0)) ==
      Relabel(LabelsOf(FlattenAll(cs)), FirstNamed(FlattenAll(cs), id), prompt)
  {
    var head := UpdateNode(cs[0], id, prompt).0;
    var first := Flatten(cs[0]);
    var rest := FlattenAll(cs[1..]);
    var rs := [head] + cs[1..];
    UpdateListHeadIs(cs, id, prompt);
    FlattenAllCons(cs);
    ConsTail(head, cs[1..]);
    FlattenAllCons(rs);
    FirstNamedAppend(first, rest, id);
    LabelsOfAppend(first, rest);
    LabelsOfAppend(Flatten(head), rest);
    RelabelAppend(LabelsOf(first), LabelsOf(rest), FirstNamed(first, id), prompt);
  }

  lemma UpdateListHeadIs(cs: seq<Config>, id: string, prompt: string)
    requires cs != [] && UpdateNode(cs[0], id, prompt).1
    ensures UpdateList(cs, id, prompt) == ([UpdateNode(cs[0], id, prompt).0] + cs[1..], true)
  {
  }

  lemma UpdateListLaterIs(cs: seq<Config>, id: string, prompt: string)
    requires cs != [] && !UpdateNode(cs[0], id, prompt).1
    ensures UpdateList(cs, id, prompt) ==
      ([cs[0]] + UpdateList(cs[1..], id, prompt).0, UpdateList(cs[1..], id, prompt).1)
  {
  }

  /** Nodes without the name in front of the relabelled rest: the name's first node is in the rest, relabelled. */
  lemma SkipFirstLabels(first: seq<Config>, rest: seq<Config>, newRest: seq<Config>, id: string, prompt: string)
    requires FirstNamed(first, id) == |first|
    requires LabelsOf(newRest) == Relabel(LabelsOf(rest), FirstNamed(rest, id), prompt)
    ensures FirstNamed(first + rest, id) == |first| + FirstNamed(rest, id)
    ensures LabelsOf(first + newRest) == Relabel(LabelsOf(first + rest), FirstNamed(first + rest, id), prompt)
  {
    FirstNamedAppend(first, rest, id);
    LabelsOfAppend(first, rest);
    LabelsOfAppend(first, newRest);
    RelabelShifted(LabelsOf(first), LabelsOf(rest), LabelsOf(newRest), LabelsOf(first + rest), LabelsOf(first + newRest),
                   FirstNamed(rest, id), FirstNamed(first + rest, id), prompt);
  }

  /** Relabelling the second part is relabelling the whole at the shifted position. */
  lemma RelabelShifted(a: seq<Label>, b: seq<Label>, newB: seq<Label>, ab: seq<Label>, aNewB: seq<Label>,
                       k: nat, j: nat, prompt: string)
    requires newB == Relabel(b, k, prompt) && ab == a + b && aNewB == a + newB && j == |a| + k
    ensures aNewB == Relabel(ab, j, prompt)
  {
    RelabelAfter(a, b, k, prompt);
  }

  lemma RelabelAfter(a: seq<Label>, b: seq<Label>, k: nat, prompt: string)
    ensures a + Relabel(b, k, prompt) == Relabel(a + b, |a| + k, prompt)
  {
    RelabelAppend(a, b, |a| + k, prompt);
  }

  /** The list walk when its first tree does not take the prompt. */
  lemma ListFoundLater(cs: seq<Config>, id: string, prompt: string)
    requires cs != [] && !UpdateNode(cs[0], id, prompt).1 && !HasNamed(cs[0], id)
    requires ListUpdated(cs[1..], id, prompt)
    ensures |UpdateList(cs, id, prompt).0| == |cs|
    ensures UpdateList(cs, id, prompt).1 == (FirstNamed(FlattenAll(cs), id) < |FlattenAll(cs)|)
    ensures LabelsOf(FlattenAll(UpdateList(cs, id, prompt).0)) ==
      Relabel(LabelsOf(FlattenAll(cs)), FirstNamed(FlattenAll(cs), id), prompt)
    ensures !UpdateList(cs, id, prompt).1 ==> UpdateList(cs, id, prompt).0 == cs
  {
    var tail := UpdateList(cs[1..], id, prompt).0;
    UpdateListLaterIs(cs, id, prompt);
    ListUpdatedLabels(cs[1..], id, prompt);
    FlattenAllCons(cs);
    ConsTail(cs[0], tail);
    FlattenAllCons([cs[0]] + tail);
    SkipFirstLabels(Flatten(cs[0]), FlattenAll(cs[1..]), FlattenAll(tail), id, prompt);
    if tail == cs[1..] {
      ConsBack(cs);
    }
  }

  lemma ConsBack<T>(xs: seq<T>)
    requires xs != []
    ensures [xs[0]] + xs[1..] == xs
  {
  }

  // ---------------------------------------------------------------------
  // Reading every agent's prompt
  // ---------------------------------------------------------------------

  /** A node contributes `name -> instruction` when it has both keys. */
  predicate HasPrompt(l: Label, name: string)
  {
    l.fields.name == Some(name) && l.fields.instruction.Some?
  }

  /**
   * The prompts gathered by visiting the labels in order; a later node
   * with the same name overwrites an earlier one.
   */
  function CollectPrompts(ls: seq<Label>): map<string, string>
  {
    if ls == [] then map[]
    else
      var acc := CollectPrompts(ls[..|ls| - 1]);
      var l := ls[|ls| - 1];
      if l.fields.name.Some? && l.fields.instruction.Some? then
        acc[l.fields.name.value := l.fields.instruction.value]
      else acc
  }

  /** `AgentConfigUpdater.extract_agent_prompts`: `name -> instruction` over the tree in pre-order. */
  function ExtractAgentPrompts(c: Config): map<string, string>
  {
    CollectPrompts(Labels(c))
  }

  /** The position of the last label that has a prompt under `name`, or -1. */
  function LastWithPrompt(ls: seq<Label>, name: string): (i: int)
    ensures -1 <= i < |ls|
    ensures i >= 0 ==> HasPrompt(ls[i], name)
    ensures forall j :: i < j < |ls| ==> !HasPrompt(ls[j], name)
  {
    if ls == [] then -1
    else if HasPrompt(ls[|ls| - 1], name) then |ls| - 1
    else LastWithPrompt(ls[..|ls| - 1], name)
  }

  lemma {:induction false} CollectPromptsSpec(ls: seq<Label>)
    ensures forall name :: name in CollectPrompts(ls) <==> LastWithPrompt(ls, name) >= 0
    ensures forall name :: name in CollectPrompts(ls) ==>
      CollectPrompts(ls)[name] == ls[LastWithPrompt(ls, name)].fields.instruction.value
  {
    if ls != [] {
      CollectPromptsSpec(ls[..|ls| - 1]);
    }
  }

  /**
   * The extracted map holds exactly the names of nodes having both a name
   * and an instruction, each with the instruction of its last such node in
   * pre-order.
   */
  lemma ExtractAgentPromptsSpec(c: Config)
    ensures forall name :: name in ExtractAgentPrompts(c) <==>
      exists i :: 0 <= i < |Labels(c)| && HasPrompt(Labels(c)[i], name)
    ensures forall name :: name in ExtractAgentPrompts(c) ==>
      ExtractAgentPrompts(c)[name] == Labels(c)[LastWithPrompt(Labels(c), name)].fields.instruction.value
  {
    CollectPromptsSpec(Labels(c));
  }

  /** The tree has exactly one node named `id`. */
  predicate NamedOnce(c: Config, id: string)
  {
    var k := FirstNamed(Flatten(c), id);
    k < |Flatten(c)| && forall j :: k < j < |Flatten(c)| ==> Flatten(c)[j].name != Some(id)
  }

  lemma {:induction false} LastWithPromptUpdate(ls: seq<Label>, k: nat, l: Label, name: string)
    requires k < |ls|
    requires l.fields.name == ls[k].fields.name
    requires ls[k].fields.name != Some(name)
    ensures LastWithPrompt(ls[k := l], name) == LastWithPrompt(ls, name)
  {
    if |ls| - 1 != k {
      assert ls[k := l][..|ls| - 1] == ls[..|ls| - 1][k := l];
      LastWithPromptUpdate(ls[..|ls| - 1], k, l, name);
    }
  }

  /**
   * When exactly one node is named `id`, reading the prompts after setting
   * that node's prompt gives the new prompt for `id` and leaves every other
   * entry as it was.
   */
  lemma UpdateThenExtract(c: Config, id: string, prompt: string)
    requires NamedOnce(c, id)
    ensures var before := ExtractAgentPrompts(c);
      var after := ExtractAgentPrompts(UpdateAgentPrompt(c, id, prompt));
      && id in after && after[id] == prompt
      && (forall name :: name != id ==> (name in after <==> name in before))
      && (forall name :: name != id && name in before ==> name in after && after[name] == before[name])
  {
    UpdateNodeSpec(c, id, prompt);
    var k := FirstNamed(Flatten(c), id);
    NamedOnceLabels(c, id);
    CollectAfterRelabel(Labels(c), k, id, prompt);
  }

  /** The only node named `id` is the first one; its label carries the name. */
  lemma NamedOnceLabels(c: Config, id: string)
    requires NamedOnce(c, id)
    ensures var k := FirstNamed(Flatten(c), id);
      && k < |Labels(c)| && Labels(c)[k].fields.name == Some(id)
      && forall j :: k < j < |Labels(c)| ==> Labels(c)[j].fields.name != Some(id)
  {
    var k := FirstNamed(Flatten(c), id);
    forall j | k < j < |Labels(c)| ensures Labels(c)[j].fields.name != Some(id) {
      assert Flatten(c)[j].name != Some(id);
    }
  }

  /**
   * Setting the instruction of the only label named `id` makes the prompt
   * map give the new prompt for `id` and leaves every other entry as it was.
   */
  lemma CollectAfterRelabel(ls: seq<Label>, k: nat, id: string, prompt: string)
    requires k < |ls| && ls[k].fields.name == Some(id)
    requires forall j :: k < j < |ls| ==> ls[j].fields.name != Some(id)
    ensures var before := CollectPrompts(ls);
      var after := CollectPrompts(Relabel(ls, k, prompt));
      && id in after && after[id] == prompt
      && (forall name :: name != id ==> (name in after <==> name in before))
      && (forall name :: name != id && name in before ==> name in after && after[name] == before[name])
  {
    var l := WithInstruction(ls[k], prompt);
    var ls' := ls[k := l];
    assert Relabel(ls, k, prompt) == ls';
    CollectPromptsSpec(ls);
    CollectPromptsSpec(ls');
    LastWithPromptIsLast(ls', id, k);
    forall name | name != id
      ensures LastWithPrompt(ls', name) == LastWithPrompt(ls, name)
    {
      LastWithPromptUpdate(ls, k, l, name);
    }
  }

  lemma {:induction false} LastWithPromptIsLast(ls: seq<Label>, name: string, k: nat)
    requires k < |ls| && HasPrompt(ls[k], name)
    requires forall j :: k < j < |ls| ==> !HasPrompt(ls[j], name)
    ensures LastWithPrompt(ls, name) == k
  {
    if |ls| - 1 != k {
      LastWithPromptIsLast(ls[..|ls| - 1], name, k);
    }
  }

  // ---------------------------------------------------------------------
  // Where the two walks raise
  // ---------------------------------------------------------------------

  /**
   * A dictionary key visited as if it were an agent dictionary, as a loop
   * over a dictionary `sub_agents` value makes both walks do: `'name' in key`
   * and the like are substring tests, and `key['name']` (reached when the key
   * contains both "name" and "instruction") or `key['sub_agents']` raises
   * `TypeError`.
   */
  predicate KeyRaises(key: string)
  {
    (Text.Contains(key, "name") && Text.Contains(key, "instruction")) || Text.Contains(key, "sub_agents")
  }

  /** A loop over a string `sub_agents` value yields one-character strings, on which the prompt walk never raises. */
  lemma CharacterNeverRaises(ch: char)
    ensures !KeyRaises([ch])
  {
    assert !Text.OccursAt([ch], "name", Text.Find([ch], "name"));
    assert !Text.OccursAt([ch], "sub_agents", Text.Find([ch], "sub_agents"));
  }

  /**
   * Visiting a node with this `sub_agents` shape makes `extract_agent_prompts`
   * raise: None, a boolean or a number cannot be iterated, and a dictionary
   * raises on a key `KeyRaises` holds for. A string yields its characters,
   * which never raise (`CharacterNeverRaises`).
   */
  predicate ExtractRaisesAt(k: Kind)
  {
    && k.NonListKind?
    && (!Iterable(k.value) || (k.value.JObject? && exists key :: key in k.value.fields && KeyRaises(key)))
  }

  /**
   * Visiting a node with this `sub_agents` shape makes `update_agent_prompt`
   * raise: None, a boolean or a number cannot be iterated, and the first item
   * of a non-empty string or dictionary is a string, on which `.get` raises.
   */
  predicate UpdateRaisesAt(k: Kind)
  {
    && k.NonListKind?
    && (!Iterable(k.value) || (k.value.JString? && k.value.s != []) || (k.value.JObject? && k.value.fields != map[]))
  }

  /** The two walks over the tree that visit every `sub_agents` item as an agent dictionary. */
  datatype Walk = Extracting | Updating

  /** Visiting a node with this `sub_agents` shape makes the walk raise. */
  predicate VisitRaises(w: Walk, k: Kind)
  {
    match w
    case Extracting => ExtractRaisesAt(k)
    case Updating => UpdateRaisesAt(k)
  }

  /** The index of the first label whose visit makes the walk raise, or the number of labels. */
  function FirstRaise(ls: seq<Label>, w: Walk): (k: nat)
    ensures k <= |ls|
    ensures k < |ls| ==> VisitRaises(w, ls[k].kind)
    ensures forall j :: 0 <= j < k ==> !VisitRaises(w, ls[j].kind)
  {
    if ls == [] then 0
    else if VisitRaises(w, ls[0].kind) then 0
    else 1 + FirstRaise(ls[1..], w)
  }

  /** Two label lists with the same shapes, position by position, have the same first raising index. */
  lemma {:induction false} FirstRaiseSameShapes(ls: seq<Label>, ms: seq<Label>, w: Walk)
    requires |ls| == |ms| && forall j :: 0 <= j < |ls| ==> ls[j].kind == ms[j].kind
    ensures FirstRaise(ls, w) == FirstRaise(ms, w)
  {
    if ls != [] && !VisitRaises(w, ls[0].kind) {
      FirstRaiseSameShapes(ls[1..], ms[1..], w);
    }
  }

  /** `extract_agent_prompts` raises on the tree: some node's `sub_agents` makes its visit raise. */
  predicate ExtractRaises(c: Config)
  {
    FirstRaise(Labels(c), Extracting) < |Labels(c)|
  }

  /** The message of the exception visiting a node with this `sub_agents` value raises in `extract_agent_prompts`. */
  function ExtractRaiseText(v: NonListValue): string
  {
    if Iterable(v) then StringIndexText else NotIterableText(v)
  }

  /** The message of the exception `extract_agent_prompts` raises visiting these labels in order, if it raises. */
  function ExtractException(ls: seq<Label>): (r: Option<string>)
    ensures r.Some? <==> FirstRaise(ls, Extracting) < |ls|
  {
    var k := FirstRaise(ls, Extracting);
    if k < |ls| then Some(ExtractRaiseText(ls[k].kind.value)) else None
  }

  /** The text of `extract_agent_prompts`' exception on a tree it raises on: the first raising node's. */
  function ExtractRaiseMessage(c: Config): (m: string)
    requires ExtractRaises(c)
  {
    ExtractException(Labels(c)).value
  }

  /** The first raising label of two lists one after the other is the first list's, if it has one. */
  lemma {:induction false} FirstRaiseAppend(a: seq<Label>, b: seq<Label>, w: Walk)
    ensures FirstRaise(a + b, w) == if FirstRaise(a, w) < |a| then FirstRaise(a, w) else |a| + FirstRaise(b, w)
  {
    if a != [] {
      assert (a + b)[1..] == a[1..] + b;
      FirstRaiseAppend(a[1..], b, w);
    } else {
      assert a + b == b;
    }
  }

  /** Visiting two label lists one after the other raises the first list's exception, if it raises. */
  lemma ExtractExceptionAppend(a: seq<Label>, b: seq<Label>)
    ensures ExtractException(a + b) == if ExtractException(a).Some? then ExtractException(a) else ExtractException(b)
  {
    FirstRaiseAppend(a, b, Extracting);
    var k := FirstRaise(a, Extracting);
    if k < |a| {
      assert (a + b)[k] == a[k];
    } else if FirstRaise(b, Extracting) < |b| {
      assert (a + b)[|a| + FirstRaise(b, Extracting)] == b[FirstRaise(b, Extracting)];
    }
  }

  /**
   * `update_agent_prompt` raises for `id`: the walk reaches a node whose visit
   * raises before it reaches the first node named `id`.
   */
  predicate UpdateRaises(c: Config, id: string)
  {
    FirstRaise(Labels(c), Updating) < FirstNamed(Flatten(c), id)
  }

  /**
   * Reading the prompts raises exactly when some node's visit raises;
   * a tree that reads without raising is traversable; and a traversable tree
   * whose dictionary `sub_agents` values have no raising key reads without
   * raising.
   */
  lemma ExtractRaisesSpec(c: Config)
    ensures ExtractRaises(c) <==> exists j :: 0 <= j < |Flatten(c)| && ExtractRaisesAt(KindOf(Flatten(c)[j].subAgents))
    ensures !ExtractRaises(c) ==> Traversable(c)
    ensures Traversable(c) && (forall j :: 0 <= j < |Flatten(c)| ==> !ExtractRaisesAt(KindOf(Flatten(c)[j].subAgents))) ==>
      !ExtractRaises(c)
  {
    var ls := Labels(c);
    var k := FirstRaise(ls, Extracting);
    assert forall j :: 0 <= j < |Flatten(c)| ==> ls[j].kind == KindOf(Flatten(c)[j].subAgents);
    TraversableSpec(c);
    if !ExtractRaises(c) {
      forall j | 0 <= j < |Flatten(c)| ensures !IterationRaises(Flatten(c)[j]) {
        assert !ExtractRaisesAt(ls[j].kind);
      }
    }
  }

  /**
   * Setting a prompt changes no node's `sub_agents`, so the tree reads
   * afterwards exactly when it read before, with the same exception.
   */
  lemma UpdateKeepsExtractRaises(c: Config, id: string, prompt: string)
    ensures ExtractRaises(UpdateAgentPrompt(c, id, prompt)) == ExtractRaises(c)
    ensures ExtractRaises(c) ==> ExtractRaiseMessage(UpdateAgentPrompt(c, id, prompt)) == ExtractRaiseMessage(c)
  {
    UpdateNodeSpec(c, id, prompt);
    var ls := Labels(c);
    var ms := Labels(UpdateAgentPrompt(c, id, prompt));
    FirstRaiseSameShapes(ls, ms, Extracting);
  }

  // ---------------------------------------------------------------------
  // Scoring metrics
  // ---------------------------------------------------------------------

  datatype ScoringMetrics = ScoringMetrics(
    semanticSimilarity: real,
    exactMatch: real,
    bleuScore: real,
    rougeScore: real,
    customScore: real)

  /** `getattr(metrics, name)` for the five metric attributes; any other name is skipped. */
  function MetricNamed(m: ScoringMetrics, name: string): Option<real>
  {
    if name == "semantic_similarity" then Some(m.semanticSimilarity)
    else if name == "exact_match" then Some(m.exactMatch)
    else if name == "bleu_score" then Some(m.bleuScore)
    else if name == "rouge_score" then Some(m.rougeScore)
    else if name == "custom_score" then Some(m.customScore)
    else None
  }

  /** The weights used when none are given. */
  function DefaultWeights(): seq<(string, real)>
  {
    [("semantic_similarity", 0.4), ("exact_match", 0.2), ("bleu_score", 0.2), ("rouge_score", 0.2)]
  }

  /** What one weight adds to the score sum: metric·weight when it names a metric, else nothing. */
  function Share(m: ScoringMetrics, e: (string, real)): real
  {
    if MetricNamed(m, e.0).Some? then MetricNamed(m, e.0).value * e.1 else 0.0
  }

  /** What one weight adds to the weight sum: the weight when it names a metric, else nothing. */
  function Counted(m: ScoringMetrics, e: (string, real)): real
  {
    if MetricNamed(m, e.0).Some? then e.1 else 0.0
  }

  /** Σ metric·weight over the weights that name a metric. */
  function WeightedSum(m: ScoringMetrics, ws: seq<(string, real)>): real
  {
    if ws == [] then 0.0 else WeightedSum(m, ws[..|ws| - 1]) + Share(m, ws[|ws| - 1])
  }

  /** Σ weight over the weights that name a metric. */
  function TotalWeight(m: ScoringMetrics, ws: seq<(string, real)>): real
  {
    if ws == [] then 0.0 else TotalWeight(m, ws[..|ws| - 1]) + Counted(m, ws[|ws| - 1])
  }

  /**
   * `ScoringMetrics.weighted_average`: 0.0 unless the counted weights sum to
   * a positive total, else Σ(metric·weight)/Σweight.
   */
  method WeightedAverageOf(m: ScoringMetrics, weights: Option<seq<(string, real)>>) returns (r: real)
    ensures var ws := weights.GetOr(DefaultWeights());
      r == if TotalWeight(m, ws) > 0.0 then WeightedSum(m, ws) / TotalWeight(m, ws) else 0.0
  {
    var ws := weights.GetOr(DefaultWeights());
    var totalScore, totalWeight := WeightedTotals(m, ws);
    r := if totalWeight > 0.0 then totalScore / totalWeight else 0.0;
  }

  /** The loop of `weighted_average`: the weighted sum and the weight total over the metrics it finds. */
  method WeightedTotals(m: ScoringMetrics, ws: seq<(string, real)>) returns (totalScore: real, totalWeight: real)
    ensures totalScore == WeightedSum(m, ws) && totalWeight == TotalWeight(m, ws)
  {
    totalScore := 0.0;
    totalWeight := 0.0;
    var i := 0;
    while i < |ws|
      invariant 0 <= i <= |ws|
      invariant totalScore == WeightedSum(m, ws[..i])
      invariant totalWeight == TotalWeight(m, ws[..i])
    {
      var (name, w) := ws[i];
      SumsUnfold(m, ws[..i + 1]);
      PrefixInit(ws, i);
      var metric := MetricNamed(m, name);
      if metric.Some? {
        totalScore := totalScore + metric.value * w;
        totalWeight := totalWeight + w;
      }
      i := i + 1;
    }
    WholePrefix(ws);
  }

  lemma PrefixInit<T>(xs: seq<T>, i: nat)
    requires i < |xs|
    ensures xs[..i + 1][..i] == xs[..i] && xs[..i + 1][i] == xs[i] && |xs[..i + 1]| == i + 1
  {
  }

  /** Every metric the weights name lies in [0, 1]. */
  predicate NamedMetricsInUnitRange(m: ScoringMetrics, ws: seq<(string, real)>)
  {
    forall i :: 0 <= i < |ws| && MetricNamed(m, ws[i].0).Some? ==>
      0.0 <= MetricNamed(m, ws[i].0).value <= 1.0
  }

  predicate NonNegativeWeights(ws: seq<(string, real)>)
  {
    forall i :: 0 <= i < |ws| ==> ws[i].1 >= 0.0
  }

  /** With such metrics and weights the score sum lies between 0 and the weight sum. */
  lemma {:induction false} WeightedSumBounds(m: ScoringMetrics, ws: seq<(string, real)>)
    requires NonNegativeWeights(ws) && NamedMetricsInUnitRange(m, ws)
    ensures 0.0 <= WeightedSum(m, ws) <= TotalWeight(m, ws)
  {
    if ws != [] {
      WithinInit(m, ws);
      WeightedSumBounds(m, ws[..|ws| - 1]);
      SumsUnfold(m, ws);
      ShareBounds(m, ws[|ws| - 1]);
    }
  }

  lemma WithinInit(m: ScoringMetrics, ws: seq<(string, real)>)
    requires ws != [] && NonNegativeWeights(ws) && NamedMetricsInUnitRange(m, ws)
    ensures NonNegativeWeights(ws[..|ws| - 1]) && NamedMetricsInUnitRange(m, ws[..|ws| - 1])
    ensures ws[|ws| - 1].1 >= 0.0
    ensures MetricNamed(m, ws[|ws| - 1].0).Some? ==> 0.0 <= MetricNamed(m, ws[|ws| - 1].0).value <= 1.0
  {
  }

  /** The sums over a non-empty list: those over all but its last weight, plus that weight's share. */
  lemma SumsUnfold(m: ScoringMetrics, ws: seq<(string, real)>)
    requires ws != []
    ensures WeightedSum(m, ws) == WeightedSum(m, ws[..|ws| - 1]) + Share(m, ws[|ws| - 1])
    ensures TotalWeight(m, ws) == TotalWeight(m, ws[..|ws| - 1]) + Counted(m, ws[|ws| - 1])
  {
  }

  /** A weight's share lies between 0 and its counted weight. */
  lemma ShareBounds(m: ScoringMetrics, e: (string, real))
    requires e.1 >= 0.0
    requires MetricNamed(m, e.0).Some? ==> 0.0 <= MetricNamed(m, e.0).value <= 1.0
    ensures 0.0 <= Share(m, e) <= Counted(m, e)
  {
    if MetricNamed(m, e.0).Some? {
      ScaledWithin(MetricNamed(m, e.0).value, e.1);
    }
  }

  lemma ScaledWithin(v: real, w: real)
    requires w >= 0.0 && 0.0 <= v <= 1.0
    ensures 0.0 <= v * w <= w
  {
    assert (1.0 - v) * w >= 0.0;
  }

  /**
   * With non-negative weights and metrics in [0, 1], the weighted average
   * lies in [0, 1].
   */
  lemma WeightedAverageInUnitRange(m: ScoringMetrics, ws: seq<(string, real)>)
    requires NonNegativeWeights(ws) && NamedMetricsInUnitRange(m, ws)
    ensures var t := TotalWeight(m, ws);
      t > 0.0 ==> 0.0 <= WeightedSum(m, ws) / t <= 1.0
  {
    WeightedSumBounds(m, ws);
    if TotalWeight(m, ws) > 0.0 {
      RatioInUnitRange(WeightedSum(m, ws), TotalWeight(m, ws));
    }
  }

  lemma RatioInUnitRange(s: real, t: real)
    requires t > 0.0 && 0.0 <= s <= t
    ensures 0.0 <= s / t <= 1.0
  {
    assert s / t * t == s;
  }
}
