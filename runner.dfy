/**
 * The workflow runner of the optimizer (agent_optimizer/runner.py), without
 * the workflow execution itself: the job configuration it prepares, the
 * output text it reads from a run's results, and the agent traces it records
 * from responses shaped `"Name %% (timestamp): content"`.
 */
module Runner {
  import opened Wrappers
  import opened Text
  import opened Json
  import opened AgentConfig
  import opened OptimizerTypes
  import opened Dicts
  import opened Trace

  // ---------------------------------------------------------------------
  // Job configuration
  // ---------------------------------------------------------------------

  /** A job configuration dictionary. */
  type JobConfig = map<string, Json>

  /** `_create_default_job_config`. */
  function DefaultJobConfig(): JobConfig
  {
    map[
      "job_name" := JString("AgentOptimizationRun"),
      "job_description" := JString("Optimization run for agent workflow"),
      "job_type" := JString("optimization"),
      "runner_config" := JObject(map[
        "app_name" := JString("AgentOptimization"),
        "session_config" := JObject(map[
          "user_id" := JString("optimizer"),
          "session_id" := JString("optimization_session")])]),
      "agent_config" := JObject(map["config_type" := JString("content")]),
      "input_config" := JObject(map["input_files" := JArray([]), "preview_length" := JNumber(1000.0)]),
      "analysis_config" := JObject(map["template_config_content" := JObject(map[])]),
      "output_config" := JObject(map[
        "output_directory" := JString("output"),
        "output_format" := JArray([JString("json")]),
        "file_naming" := JString("optimization_run_{timestamp}"),
        "timestamp_format" := JString("%Y%m%d_%H%M%S"),
        "include_metadata" := JBool(true)]),
      "execution_config" := JObject(map[
        "track_execution_steps" := JBool(true),
        "display_progress" := JBool(false),
        "log_level" := JString("INFO"),
        "error_handling" := JString("continue_on_agent_failure"),
        "timeout_seconds" := JNumber(300.0)]),
      "report_config" := JObject(map[
        "include_final_responses" := JBool(true),
        "include_code_preview" := JBool(false),
        "include_execution_summary" := JBool(true),
        "display_results_summary" := JBool(false)])
    ]
  }

  /** The template configuration that carries the optimization input as its user query. */
  function InputTemplate(inputText: string): Json
  {
    JObject(map[
      "template_name" := JString("optimization_input"),
      "template_description" := JString("Input data for optimization"),
      "user_query_template" := JString(inputText),
      "variables" := JObject(map[])])
  }

  /** The message of the `TypeError` that `value['template_config_content'] = ...` raises on a value that is not a dictionary. */
  function ItemAssignmentText(value: Json): string
  {
    if value.JArray? then "list indices must be integers or slices, not str"
    else "'" + TypeName(value) + "' object does not support item assignment"
  }

  /**
   * `_update_job_config_with_input`, with `inputText` the `str()` of the
   * input: on a copy, an `analysis_config` is added when missing and its
   * `template_config_content` is set to the input template; an
   * `analysis_config` that is not a dictionary makes the assignment raise.
   */
  function UpdateJobConfigWithInput(job: JobConfig, inputText: string): (r: Result<JobConfig>)
    ensures r.Ok? <==> ("analysis_config" !in job || job["analysis_config"].JObject?)
    ensures r.Err? ==> r.error == ItemAssignmentText(job["analysis_config"])
    ensures r.Ok? ==> r.value.Keys == job.Keys + {"analysis_config"}
    ensures r.Ok? ==> forall key :: key in job && key != "analysis_config" ==> r.value[key] == job[key]
    ensures r.Ok? ==> (
      r.value["analysis_config"].JObject? &&
      var analysis := r.value["analysis_config"].fields;
      "template_config_content" in analysis &&
      analysis["template_config_content"] == InputTemplate(inputText) &&
      analysis["template_config_content"].fields["user_query_template"] == JString(inputText) &&
      (forall key :: key in analysis && key != "template_config_content" ==>
         "analysis_config" in job && key in job["analysis_config"].fields &&
         analysis[key] == job["analysis_config"].fields[key]))
  {
    var analysis := if "analysis_config" in job then job["analysis_config"] else JObject(map[]);
    if !analysis.JObject? then Err(ItemAssignmentText(analysis))
    else
      Ok(job["analysis_config" := JObject(analysis.fields["template_config_content" := InputTemplate(inputText)])])
  }

  /**
   * The test `'template_config_content' not in job_config['analysis_config']`:
   * a dictionary is searched by key, a string by substring and a list by
   * element; on any other value the `in` test raises.
   */
  function LacksTemplate(analysis: Json): (r: Result<bool>)
    ensures r.Err? <==> !Iterable(analysis)
    ensures r.Err? ==> r.error == "argument of type '" + TypeName(analysis) + "' is not iterable"
  {
    match analysis
    case JObject(fields) => Ok("template_config_content" !in fields)
    case JString(s) => Ok(!Contains(s, "template_config_content"))
    case JArray(items) => Ok(JString("template_config_content") !in items)
    case _ => Err("argument of type '" + TypeName(analysis) + "' is not iterable")
  }

  /**
   * The job configuration `run_workflow` executes: the input is placed into
   * it only when it has no `analysis_config` or that has no
   * `template_config_content`; otherwise the job is used as given.
   */
  function PrepareJobConfig(job: JobConfig, inputText: string): (r: Result<JobConfig>)
    ensures ("analysis_config" in job && job["analysis_config"].JObject? &&
             "template_config_content" in job["analysis_config"].fields) ==> r == Ok(job)
    ensures "analysis_config" !in job ==> r == UpdateJobConfigWithInput(job, inputText)
  {
    if "analysis_config" !in job then UpdateJobConfigWithInput(job, inputText)
    else
      match LacksTemplate(job["analysis_config"])
      case Err(e) => Err(e)
      case Ok(lacks) => if lacks then UpdateJobConfigWithInput(job, inputText) else Ok(job)
  }

  /** Preparing a prepared job changes nothing more: the input goes in at most once. */
  lemma PrepareJobConfigIdempotent(job: JobConfig, inputText: string, otherText: string)
    requires PrepareJobConfig(job, inputText).Ok?
    ensures PrepareJobConfig(PrepareJobConfig(job, inputText).value, otherText) == PrepareJobConfig(job, inputText)
  {
    var prepared := PrepareJobConfig(job, inputText).value;
    if prepared != job {
      assert PrepareJobConfig(job, inputText) == UpdateJobConfigWithInput(job, inputText);
    }
  }

  /**
   * The default job already holds an (empty) `template_config_content`, so
   * a run started without a job configuration never receives its input
   * through the job.
   */
  lemma DefaultJobIgnoresInput(inputText: string)
    ensures PrepareJobConfig(DefaultJobConfig(), inputText) == Ok(DefaultJobConfig())
  {
    assert "template_config_content" in DefaultJobConfig()["analysis_config"].fields;
  }

  // ---------------------------------------------------------------------
  // Output text of a run
  // ---------------------------------------------------------------------

  /** One agent's block of the output: `f"[{name}]\n{response}"`, a non-string response rendered by `str()`. */
  function OutputBlock(name: string, response: Json, host: Host): string
  {
    "[" + name + "]\n" + TextOf(response, host)
  }

  function Blocks(es: seq<(string, Json)>, host: Host): (r: seq<string>)
    ensures |r| == |es|
    ensures forall i :: 0 <= i < |es| ==> r[i] == OutputBlock(es[i].0, es[i].1, host)
  {
    seq(|es|, i requires 0 <= i < |es| => OutputBlock(es[i].0, es[i].1, host))
  }

  /**
   * `_extract_output_from_results`: the agents' blocks separated by blank
   * lines when `execution_results` is a dictionary, its `str()` when it is
   * something else, and `resultsText`, the `str()` of the whole results,
   * when it is missing.
   */
  function ExtractOutput(results: RunResults, host: Host, resultsText: string): (r: string)
    ensures results.executionResults.Missing? ==> r == resultsText
    ensures results.executionResults.NotADict? ==> r == host.str(results.executionResults.value)
  {
    match results.executionResults
    case Missing => resultsText
    case ByAgent(es) => Join(Blocks(es, host), "\n\n")
    case NotADict(v) => host.str(v)
  }

  /**
   * Each agent's block appears whole in the output, in key order: block `i`
   * begins at its offset and block `i + 1` two characters after it ends.
   */
  lemma OutputBlocksInOrder(results: RunResults, host: Host, resultsText: string, i: nat)
    requires results.executionResults.ByAgent? && i < |results.executionResults.entries|
    ensures var es := results.executionResults.entries;
      var r := ExtractOutput(results, host, resultsText);
      var o := JoinOffset(Blocks(es, host), "\n\n", i);
      OccursAt(r, "[" + es[i].0 + "]\n" + TextOf(es[i].1, host), o) &&
      (i + 1 < |es| ==> JoinOffset(Blocks(es, host), "\n\n", i + 1) == o + |OutputBlock(es[i].0, es[i].1, host)| + 2)
  {
    JoinPartAt(Blocks(results.executionResults.entries, host), "\n\n", i);
  }

  // ---------------------------------------------------------------------
  // Agent traces read from the responses
  // ---------------------------------------------------------------------

  /** The trace the runner records for a parsed response: only the name and the content are known. */
  function ParsedTrace(name: string, content: string): AgentTrace
  {
    AgentTrace(name, "", content, "", [], None, None)
  }

  /** The content of an entry whose response is a string with the timestamp shape. */
  function ParsedContent(response: Json): Option<string>
  {
    if response.JString? then SplitResponse(response.s) else None
  }

  /** The traces after recording every parsable entry of `es`, in order, into `traces`. */
  function RecordParsed(traces: seq<(string, AgentTrace)>, es: seq<(string, Json)>): seq<(string, AgentTrace)>
  {
    if es == [] then traces
    else
      var init := RecordParsed(traces, es[..|es| - 1]);
      var (name, response) := es[|es| - 1];
      match ParsedContent(response)
      case Some(content) => Put(init, name, ParsedTrace(name, content))
      case None => init
  }

  /** The content of the last entry under `name` whose response parses, if any. */
  function LastParsed(es: seq<(string, Json)>, name: string): Option<string>
  {
    if es == [] then None
    else if es[|es| - 1].0 == name && ParsedContent(es[|es| - 1].1).Some? then ParsedContent(es[|es| - 1].1)
    else LastParsed(es[..|es| - 1], name)
  }

  /**
   * After recording, an agent's trace comes from the last entry under its
   * name whose response parses, carrying exactly the content the trace
   * extractor would read from it; agents without such an entry keep the
   * trace they had.
   */
  lemma {:induction false} RecordParsedSpec(traces: seq<(string, AgentTrace)>, es: seq<(string, Json)>, name: string)
    ensures LastParsed(es, name).Some? ==>
      Get(RecordParsed(traces, es), name) == Some(ParsedTrace(name, LastParsed(es, name).value))
    ensures LastParsed(es, name).None? ==> Get(RecordParsed(traces, es), name) == Get(traces, name)
    ensures LastParsed(es, name).Some? ==>
      exists i :: 0 <= i < |es| && es[i].0 == name && es[i].1.JString? && OutputData(es[i].1.s) == LastParsed(es, name).value
  {
    if es != [] {
      var init := es[..|es| - 1];
      var (n, response) := es[|es| - 1];
      RecordParsedSpec(traces, init, name);
      var r0 := RecordParsed(traces, init);
      if ParsedContent(response).Some? {
        PutSpec(r0, n, ParsedTrace(n, ParsedContent(response).value));
      }
      if LastParsed(es, name).Some? && LastParsed(init, name).Some? && !(n == name && ParsedContent(response).Some?) {
        var i :| 0 <= i < |init| && init[i].0 == name &&
          init[i].1.JString? && OutputData(init[i].1.s) == LastParsed(init, name).value;
        assert es[i] == init[i];
      }
    }
  }

  lemma RecordParsedStep(traces: seq<(string, AgentTrace)>, es: seq<(string, Json)>, i: nat)
    requires i < |es|
    ensures RecordParsed(traces, es[..i + 1]) ==
      match ParsedContent(es[i].1)
      case Some(content) => Put(RecordParsed(traces, es[..i]), es[i].0, ParsedTrace(es[i].0, content))
      case None => RecordParsed(traces, es[..i])
  {
    assert es[..i + 1][..i] == es[..i];
  }

  /** The loop of `_extract_agent_traces_from_results`: each parsable string response stores a trace under its name. */
  method RecordTraces(base: seq<(string, AgentTrace)>, es: seq<(string, Json)>) returns (traces: seq<(string, AgentTrace)>)
    ensures traces == RecordParsed(base, es)
  {
    traces := base;
    for i := 0 to |es|
      invariant traces == RecordParsed(base, es[..i])
    {
      RecordParsedStep(base, es, i);
      var parsed := if es[i].1.JString? then SplitResponse(es[i].1.s) else None;
      traces := if parsed.Some? then Put(traces, es[i].0, ParsedTrace(es[i].0, parsed.value)) else traces;
    }
    assert es[..|es|] == es;
  }

  /** Recording keeps the agent names of the trace distinct. */
  lemma {:induction false} RecordParsedDistinct(traces: seq<(string, AgentTrace)>, es: seq<(string, Json)>)
    requires DistinctKeys(traces)
    ensures DistinctKeys(RecordParsed(traces, es))
  {
    if es != [] {
      var (n, response) := es[|es| - 1];
      RecordParsedDistinct(traces, es[..|es| - 1]);
      if ParsedContent(response).Some? {
        PutDistinct(RecordParsed(traces, es[..|es| - 1]), n, ParsedTrace(n, ParsedContent(response).value));
      }
    }
  }

  // ---------------------------------------------------------------------
  // Agent prompts
  // ---------------------------------------------------------------------

  /** The prompt map after visiting one more node: `name -> instruction` when the node has both keys. */
  function Visit(prompts: map<string, string>, l: Label): map<string, string>
  {
    if l.fields.name.Some? && l.fields.instruction.Some? then prompts[l.fields.name.value := l.fields.instruction.value]
    else prompts
  }

  /** The prompt map after visiting the nodes in order, starting from `prompts`. */
  function VisitAll(prompts: map<string, string>, ls: seq<Label>): map<string, string>
  {
    if ls == [] then prompts else Visit(VisitAll(prompts, ls[..|ls| - 1]), ls[|ls| - 1])
  }

  lemma {:induction false} VisitAllAppend(prompts: map<string, string>, xs: seq<Label>, ys: seq<Label>)
    ensures VisitAll(prompts, xs + ys) == VisitAll(VisitAll(prompts, xs), ys)
    decreases |ys|
  {
    if ys == [] {
      assert xs + ys == xs;
    } else {
      assert (xs + ys)[..|xs + ys| - 1] == xs + ys[..|ys| - 1];
      VisitAllAppend(prompts, xs, ys[..|ys| - 1]);
    }
  }

  /** Visiting from an empty map gathers the same prompts as the configuration helper. */
  lemma {:induction false} VisitAllFromEmpty(ls: seq<Label>)
    ensures VisitAll(map[], ls) == CollectPrompts(ls)
  {
    if ls != [] {
      VisitAllFromEmpty(ls[..|ls| - 1]);
    }
  }

  /**
   * The loop over a `sub_agents` value that is not a list, each item visited
   * as if it were an agent dictionary: None, a boolean or a number cannot be
   * iterated; a string yields one-character strings, which never raise
   * (`CharacterNeverRaises`); a dictionary yields its keys, and a key that
   * contains "name" and "instruction", or "sub_agents", is indexed by a
   * string and raises. Nothing is added to the prompts.
   */
  method VisitItems(v: NonListValue) returns (raised: Option<string>)
    ensures raised == if ExtractRaisesAt(NonListKind(v)) then Some(ExtractRaiseText(v)) else None
  {
    match v {
      case JString(_) =>
        raised := None;
      case JObject(fields) =>
        var keys := fields.Keys;
        while keys != {}
          invariant keys <= fields.Keys
          invariant forall key :: key in fields.Keys - keys ==> !KeyRaises(key)
          decreases keys
        {
          var key :| key in keys;
          if KeyRaises(key) {
            return Some(StringIndexText);
          }
          keys := keys - {key};
        }
        raised := None;
      case _ =>
        raised := Some(NotIterableText(v));
    }
  }

  /** The recursive visit of one agent dictionary: its own prompt, then each item of its `sub_agents`. */
  method ExtractRecursive(c: Config, prompts: map<string, string>) returns (r: map<string, string>, raised: Option<string>)
    ensures raised == ExtractException(Labels(c))
    ensures raised.None? ==> r == VisitAll(prompts, Labels(c))
    decreases c, 1
  {
    r := prompts;
    if c.name.Some? && c.instruction.Some? {
      r := r[c.name.value := c.instruction.value];
    }
    assert r == VisitAll(prompts, [LabelOf(c)]) by {
      assert [LabelOf(c)][..0] == [];
    }
    match c.subAgents {
      case Absent =>
        raised := None;
        assert Labels(c) == [LabelOf(c)];
      case NotAList(v) =>
        raised := VisitItems(v);
        assert Labels(c) == [LabelOf(c)];
      case Agents(list) =>
        r, raised := ExtractAll(list, r);
        LabelsOfAppend([c], FlattenAll(list));
        assert Labels(c) == [LabelOf(c)] + LabelsOf(FlattenAll(list));
        ExtractExceptionAppend([LabelOf(c)], LabelsOf(FlattenAll(list)));
        if raised.None? {
          VisitAllAppend(prompts, [LabelOf(c)], LabelsOf(FlattenAll(list)));
        }
    }
  }

  /** The loop over a `sub_agents` list; the first sub-tree that raises ends it. */
  method ExtractAll(cs: seq<Config>, prompts: map<string, string>) returns (r: map<string, string>, raised: Option<string>)
    ensures raised == ExtractException(LabelsOf(FlattenAll(cs)))
    ensures raised.None? ==> r == VisitAll(prompts, LabelsOf(FlattenAll(cs)))
    decreases cs, 0
  {
    r := prompts;
    raised := None;
    var i := 0;
    while i < |cs| && raised.None?
      invariant 0 <= i <= |cs|
      invariant raised.None? ==>
        ExtractException(LabelsOf(FlattenAll(cs[..i]))).None? && r == VisitAll(prompts, LabelsOf(FlattenAll(cs[..i])))
      invariant raised.Some? ==> raised == ExtractException(LabelsOf(FlattenAll(cs)))
    {
      r, raised := ExtractRecursive(cs[i], r);
      PrefixLabelsStep(cs, i);
      ExtractExceptionAppend(LabelsOf(FlattenAll(cs[..i])), Labels(cs[i]));
      PrefixRaiseIsWhole(cs, i + 1);
      if raised.None? {
        VisitAllAppend(prompts, LabelsOf(FlattenAll(cs[..i])), Labels(cs[i]));
      }
      i := i + 1;
    }
    WholePrefix(cs);
  }

  /** The labels of the first `i + 1` sub-trees are those of the first `i` followed by the next sub-tree's. */
  lemma PrefixLabelsStep(cs: seq<Config>, i: nat)
    requires i < |cs|
    ensures LabelsOf(FlattenAll(cs[..i + 1])) == LabelsOf(FlattenAll(cs[..i])) + Labels(cs[i])
  {
    assert cs[..i + 1] == cs[..i] + [cs[i]];
    assert FlattenAll([cs[i]]) == Flatten(cs[i]) by {
      assert [cs[i]][1..] == [];
    }
    FlattenAllAppend(cs[..i], [cs[i]]);
    LabelsOfAppend(FlattenAll(cs[..i]), Flatten(cs[i]));
  }

  /** What the first `j` sub-trees raise is what the whole list raises. */
  lemma PrefixRaiseIsWhole(cs: seq<Config>, j: nat)
    requires j <= |cs|
    ensures ExtractException(LabelsOf(FlattenAll(cs[..j]))).Some? ==>
      ExtractException(LabelsOf(FlattenAll(cs))) == ExtractException(LabelsOf(FlattenAll(cs[..j])))
  {
    ListLabelsSplit(cs, j);
    ExtractExceptionAppend(LabelsOf(FlattenAll(cs[..j])), LabelsOf(FlattenAll(cs[j..])));
  }

  /** The labels of a list of sub-trees are those of its first `j` followed by those of the rest. */
  lemma ListLabelsSplit(cs: seq<Config>, j: nat)
    requires j <= |cs|
    ensures LabelsOf(FlattenAll(cs)) == LabelsOf(FlattenAll(cs[..j])) + LabelsOf(FlattenAll(cs[j..]))
  {
    assert cs == cs[..j] + cs[j..];
    FlattenAllAppend(cs[..j], cs[j..]);
    LabelsOfAppend(FlattenAll(cs[..j]), FlattenAll(cs[j..]));
  }

  /** The runner: whether it traces, and the trace of the current run. */
  class WorkflowRunner {
    var enableTracing: bool
    var currentTrace: Option<WorkflowTrace>

    constructor(enableTracing: bool)
      ensures this.enableTracing == enableTracing && currentTrace == None
    {
      this.enableTracing := enableTracing;
      currentTrace := None;
    }

    /**
     * `get_agent_prompts`: `name -> instruction` for every agent dictionary
     * in pre-order, a later name overwriting an earlier one; the same map as
     * the configuration helper's, and the same exception where that raises.
     */
    method GetAgentPrompts(agentConfig: Config) returns (r: Result<map<string, string>>)
      ensures !ExtractRaises(agentConfig) ==> r == Ok(ExtractAgentPrompts(agentConfig))
      ensures ExtractRaises(agentConfig) ==> r == Err(ExtractRaiseMessage(agentConfig))
    {
      var prompts, raised := ExtractRecursive(agentConfig, map[]);
      if raised.Some? {
        return Err(raised.value);
      }
      VisitAllFromEmpty(Labels(agentConfig));
      return Ok(prompts);
    }

    /**
     * `_extract_agent_traces_from_results`: without a current trace nothing
     * happens; an `execution_results` that is not a dictionary raises before
     * any change; otherwise each string response with the timestamp shape
     * stores a trace under its agent's name.
     */
    method ExtractAgentTracesFromResults(results: RunResults) returns (raised: bool)
      modifies this
      ensures enableTracing == old(enableTracing)
      ensures raised <==> old(currentTrace).Some? && results.executionResults.NotADict?
      ensures raised || old(currentTrace).None? ==> currentTrace == old(currentTrace)
      ensures !raised && old(currentTrace).Some? ==>
        currentTrace == Some(old(currentTrace).value.(agentTraces :=
          RecordParsed(old(currentTrace).value.agentTraces, EntriesOf(results.executionResults).value)))
    {
      if currentTrace.None? {
        return false;
      }
      var entries := EntriesOf(results.executionResults);
      if entries.None? {
        return true;
      }
      var es := entries.value;
      var trace := currentTrace.value;
      var traces := RecordTraces(trace.agentTraces, es);
      currentTrace := Some(trace.(agentTraces := traces));
      return false;
    }
  }
}
