/**
 * The trace extractor of the optimizer (agent_optimizer/trace.py): it turns
 * the results of one workflow run into a `WorkflowTrace`, one agent trace per
 * entry of `execution_results`, cutting the agent's answer out of responses
 * shaped `"Name %% (timestamp): content"`.
 */
module Trace {
  import opened Wrappers
  import opened Dicts
  import opened Text
  import opened Json
  import opened AgentConfig
  import opened OptimizerTypes

  // ---------------------------------------------------------------------
  // The results of a run
  // ---------------------------------------------------------------------

  /**
   * The `execution_results` entry of a run's results: missing, a dictionary
   * from agent name to response in insertion order, or some other value.
   */
  datatype ExecResults = Missing | ByAgent(entries: seq<(string, Json)>) | NotADict(value: Json)

  /** The keys of a run's results that the trace reads. */
  datatype RunResults = RunResults(executionResults: ExecResults, executionTime: Option<real>)

  /** `results.get('execution_results', {})` as an entry list; `None` when it is not a dictionary. */
  function EntriesOf(e: ExecResults): Option<seq<(string, Json)>>
  {
    match e
    case Missing => Some([])
    case ByAgent(es) => Some(es)
    case NotADict(_) => None
  }

  /** The regular-expression extractors of the trace, given as functions of the response. */
  datatype Extractors = Extractors(errorMessage: string -> Option<string>, toolsUsed: string -> seq<string>)

  const TimestampOpen := " %% ("
  const TimestampClose := "): "

  /**
   * The content of a response `"Name %% (timestamp): content"`: the text
   * after the first `"): "` that follows the first `" %% ("`, when both occur.
   */
  function SplitResponse(response: string): (r: Option<string>)
    ensures r.Some? ==> EndsWith(response, r.value) && |r.value| + 8 <= |response|
    ensures !Contains(response, TimestampOpen) ==> r == None
  {
    var i := Find(response, TimestampOpen);
    if i < 0 then None
    else
      var rest := response[i + 5..];
      var j := Find(rest, TimestampClose);
      if j < 0 then None
      else
        assert response[|response| - |rest[j + 3..]|..] == rest[j + 3..];
        Some(rest[j + 3..])
  }

  /** `_create_agent_trace`'s `output_data`: the content when the response has the timestamp shape, else the response. */
  function OutputData(response: string): (r: string)
    ensures EndsWith(response, r)
    ensures !Contains(response, TimestampOpen) ==> r == response
  {
    SplitResponse(response).GetOr(response)
  }

  lemma NoOccurrenceBefore(s: string, sub: string, k: nat)
    requires OccursAt(s, sub, k)
    requires forall j :: 0 <= j < k ==> !OccursAt(s, sub, j)
    ensures Find(s, sub) == k
  {
  }

  /**
   * A response built as `name + " %% (" + timestamp + "): " + content`, with
   * no `%` in the name and no `)` in the timestamp, yields exactly its content.
   */
  lemma OutputDataOfFormatted(name: string, timestamp: string, content: string)
    requires '%' !in name && ')' !in timestamp
    ensures SplitResponse(name + TimestampOpen + timestamp + TimestampClose + content) == Some(content)
    ensures OutputData(name + TimestampOpen + timestamp + TimestampClose + content) == content
  {
    var s := name + TimestampOpen + timestamp + TimestampClose + content;
    var tail := timestamp + TimestampClose + content;
    assert s == name + TimestampOpen + tail;
    FindOpen(name, tail);
    assert s[|name| + 5..] == tail;
    FindClose(timestamp, content);
    assert tail[|timestamp| + 3..] == content;
  }

  /** With no `%` in the name, the first `" %% ("` is the one right after it. */
  lemma FindOpen(name: string, tail: string)
    requires '%' !in name
    ensures Find(name + TimestampOpen + tail, TimestampOpen) == |name|
  {
    var s := name + TimestampOpen + tail;
    assert s[|name|..|name| + 5] == TimestampOpen;
    forall j | 0 <= j < |name| ensures !OccursAt(s, TimestampOpen, j) {
      if j + 1 < |name| {
        assert s[j + 1] == name[j + 1];
      } else {
        assert s[j + 1] == ' ';
      }
      NotAtIfDiffers(s, TimestampOpen, j, 1);
    }
    NoOccurrenceBefore(s, TimestampOpen, |name|);
  }

  /** With no `)` in the timestamp, the first `"): "` is the one right after it. */
  lemma FindClose(timestamp: string, tail: string)
    requires ')' !in timestamp
    ensures Find(timestamp + TimestampClose + tail, TimestampClose) == |timestamp|
  {
    var s := timestamp + TimestampClose + tail;
    assert s[|timestamp|..|timestamp| + 3] == TimestampClose;
    forall j | 0 <= j < |timestamp| ensures !OccursAt(s, TimestampClose, j) {
      assert s[j] == timestamp[j];
      NotAtIfDiffers(s, TimestampClose, j, 0);
    }
    NoOccurrenceBefore(s, TimestampClose, |timestamp|);
  }

  /** `sub` does not occur at `j` when one of its characters differs from the text's there. */
  lemma NotAtIfDiffers(s: string, sub: string, j: nat, k: nat)
    requires k < |sub| && j + k < |s| && s[j + k] != sub[k]
    ensures !OccursAt(s, sub, j)
  {
    assert j + |sub| <= |s| ==> s[j..j + |sub|][k] == s[j + k];
  }

  /** The `error` field: read from the response only when its lowercase form mentions an error or a failure. */
  function ErrorOf(response: string, ex: Extractors): (r: Option<string>)
  {
    var low := Lower(response);
    if Contains(low, "error") || Contains(low, "failed") then ex.errorMessage(response) else None
  }

  /** A response that never mentions an error or a failure gets no error, whatever the extractor would say. */
  lemma ErrorNeedsKeyword(response: string, ex: Extractors)
    requires !Contains(Lower(response), "error") && !Contains(Lower(response), "failed")
    ensures ErrorOf(response, ex) == None
  {
  }

  /** `_create_agent_trace`: no input data or timing is known; the prompt is the one given. */
  function CreateAgentTrace(id: string, response: string, prompt: string, ex: Extractors): (r: AgentTrace)
    ensures r.agentId == id && r.prompt == prompt && r.inputData == "" && r.executionTime == None
    ensures r.outputData == OutputData(response)
    ensures r.error.Some? ==> Contains(Lower(response), "error") || Contains(Lower(response), "failed")
  {
    AgentTrace(id, "", OutputData(response), prompt, ex.toolsUsed(response), None, ErrorOf(response, ex))
  }

  /** `agent_prompts.get(agent_id, '')`. */
  function PromptFor(prompts: map<string, string>, id: string): string
  {
    if id in prompts then prompts[id] else ""
  }

  /** The number of leading entries whose response is a string. */
  function StringPrefix(es: seq<(string, Json)>): (k: nat)
    ensures k <= |es|
    ensures forall i :: 0 <= i < k ==> es[i].1.JString?
    ensures k < |es| ==> !es[k].1.JString?
  {
    if es == [] || !es[0].1.JString? then 0
    else
      var k := StringPrefix(es[1..]);
      assert forall i :: 1 <= i < k + 1 ==> es[i] == es[1..][i - 1];
      1 + k
  }

  predicate AllStrings(es: seq<(string, Json)>)
  {
    forall i :: 0 <= i < |es| ==> es[i].1.JString?
  }

  /** How one agent's trace is built from its name and its string response. */
  type TraceBuilder = (string, string) -> AgentTrace

  /** `_create_agent_trace` with the agent's prompt looked up in the configuration's prompts. */
  function Builder(prompts: map<string, string>, ex: Extractors): TraceBuilder
  {
    (id: string, response: string) => CreateAgentTrace(id, response, PromptFor(prompts, id), ex)
  }

  /** The agent traces recorded from string responses, in order, later keys overwriting earlier ones. */
  function RecordAll(es: seq<(string, Json)>, build: TraceBuilder): seq<(string, AgentTrace)>
    requires AllStrings(es)
  {
    if es == [] then []
    else
      var last := es[|es| - 1];
      Put(RecordAll(es[..|es| - 1], build), last.0, build(last.0, last.1.s))
  }

  lemma RecordAllStep(es: seq<(string, Json)>, i: nat, build: TraceBuilder)
    requires i < |es| && AllStrings(es[..i + 1])
    ensures AllStrings(es[..i])
    ensures RecordAll(es[..i + 1], build) == Put(RecordAll(es[..i], build), es[i].0, build(es[i].0, es[i].1.s))
  {
    assert es[..i + 1][..i] == es[..i];
  }

  /**
   * The loop of `extract_trace_from_results` over `execution_results`: it
   * stores one trace per entry and stops, by raising, at the first response
   * that is not a string.
   */
  method RecordResponses(es: seq<(string, Json)>, build: TraceBuilder) returns (traces: seq<(string, AgentTrace)>, stopped: bool)
    ensures stopped <==> StringPrefix(es) < |es|
    ensures traces == RecordAll(es[..StringPrefix(es)], build)
  {
    ghost var k := StringPrefix(es);
    traces := [];
    var i := 0;
    while i < |es|
      invariant 0 <= i <= k
      invariant traces == RecordAll(es[..i], build)
      decreases |es| - i
    {
      var id := es[i].0;
      var response := es[i].1;
      if !response.JString? {
        return traces, true;
      }
      RecordAllStep(es, i, build);
      traces := Put(traces, id, build(id, response.s));
      i := i + 1;
    }
    return traces, false;
  }

  /** `_extract_final_output`: the string responses joined by blank lines, or `str()` of a non-dictionary. */
  function FinalOutput(e: ExecResults, str: Json -> string): (r: string)
    ensures e.Missing? ==> r == ""
  {
    match e
    case Missing => ""
    case ByAgent(es) => Join(StringResponses(es), "\n\n")
    case NotADict(v) => str(v)
  }

  /** The string responses, in order, skipping every other value. */
  function StringResponses(es: seq<(string, Json)>): (r: seq<string>)
    ensures |r| <= |es|
    ensures AllStrings(es) ==> |r| == |es|
  {
    if es == [] then []
    else
      var init := StringResponses(es[..|es| - 1]);
      var last := es[|es| - 1].1;
      assert AllStrings(es) ==> AllStrings(es[..|es| - 1]);
      if last.JString? then init + [last.s] else init
  }

  /** Each string response is kept whole and in place. */
  lemma {:induction false} StringResponsesOfStrings(es: seq<(string, Json)>)
    requires AllStrings(es)
    ensures |StringResponses(es)| == |es|
    ensures forall i :: 0 <= i < |es| ==> StringResponses(es)[i] == es[i].1.s
  {
    if es != [] {
      StringResponsesOfStrings(es[..|es| - 1]);
    }
  }

  /**
   * `extract_trace_from_results` as a value: a configuration with a
   * `sub_agents` value the prompt walk cannot iterate (None, a boolean or a
   * number), or a non-dictionary
   * `execution_results`, raises at once and leaves the trace empty; a
   * response that is not a string raises inside the loop, so the traces
   * recorded before it are kept and the time and final output stay unset.
   */
  function ExtractTrace(results: RunResults, config: Config, ex: Extractors, str: Json -> string): (r: WorkflowTrace)
  {
    if !Traversable(config) then WorkflowTrace([], None, None)
    else
    match EntriesOf(results.executionResults)
    case None => WorkflowTrace([], None, None)
    case Some(es) =>
      var k := StringPrefix(es);
      var traces := RecordAll(es[..k], Builder(ExtractAgentPrompts(config), ex));
      if k < |es| then WorkflowTrace(traces, None, None)
      else WorkflowTrace(traces, results.executionTime, Some(FinalOutput(results.executionResults, str)))
  }

  /** `TraceExtractor.extract_trace_from_results`: never raises, filling the trace entry by entry. */
  method ExtractTraceFromResults(results: RunResults, config: Config, ex: Extractors, str: Json -> string)
    returns (trace: WorkflowTrace)
    ensures trace == ExtractTrace(results, config, ex, str)
  {
    if !Traversable(config) {
      return WorkflowTrace([], None, None);
    }
    var entries := EntriesOf(results.executionResults);
    if entries.None? {
      return WorkflowTrace([], None, None);
    }
    var es := entries.value;
    var build := Builder(ExtractAgentPrompts(config), ex);
    var traces, stopped := RecordResponses(es, build);
    if stopped {
      return WorkflowTrace(traces, None, None);
    }
    assert es[..|es|] == es;
    trace := WorkflowTrace(traces, results.executionTime, Some(FinalOutput(results.executionResults, str)));
  }

  /** With distinct keys, recording appends one trace per entry, in entry order. */
  lemma {:induction false} RecordAllSpec(es: seq<(string, Json)>, build: TraceBuilder)
    requires AllStrings(es) && DistinctKeys(es)
    ensures |RecordAll(es, build)| == |es|
    ensures forall i :: 0 <= i < |es| ==> RecordAll(es, build)[i] == (es[i].0, build(es[i].0, es[i].1.s))
  {
    if es != [] {
      var init := es[..|es| - 1];
      var last := es[|es| - 1];
      RecordAllSpec(init, build);
      var r0 := RecordAll(init, build);
      assert KeysOf(r0) == KeysOf(init) by {
        assert forall i :: 0 <= i < |init| ==> r0[i].0 == init[i].0;
      }
      assert last.0 !in KeysOf(init);
      PutSpec(r0, last.0, build(last.0, last.1.s));
    }
  }

  /**
   * When every response is a string, the trace has exactly one entry per
   * key of `execution_results`, in order, each carrying that agent's prompt
   * from the configuration or `""`, and the run's time and final output.
   */
  lemma OneTracePerEntry(results: RunResults, config: Config, ex: Extractors, str: Json -> string)
    requires results.executionResults.ByAgent? && Traversable(config)
    requires AllStrings(results.executionResults.entries) && DistinctKeys(results.executionResults.entries)
    ensures var es := results.executionResults.entries;
      var t := ExtractTrace(results, config, ex, str);
      |t.agentTraces| == |es| &&
      (forall i :: 0 <= i < |es| ==>
         (t.agentTraces[i].0 == es[i].0 &&
          t.agentTraces[i].1.prompt == PromptFor(ExtractAgentPrompts(config), es[i].0) &&
          t.agentTraces[i].1.outputData == OutputData(es[i].1.s))) &&
      t.totalExecutionTime == results.executionTime &&
      t.finalOutput == Some(Join(seq(|es|, i requires 0 <= i < |es| => es[i].1.s), "\n\n"))
  {
    var es := results.executionResults.entries;
    var prompts := ExtractAgentPrompts(config);
    AllStringsTrace(results, config, ex, str);
    RecordAllSpec(es, Builder(prompts, ex));
    ResponsesInOrder(es);
    forall i | 0 <= i < |es|
      ensures RecordAll(es, Builder(prompts, ex))[i].1.prompt == PromptFor(prompts, es[i].0)
      ensures RecordAll(es, Builder(prompts, ex))[i].1.outputData == OutputData(es[i].1.s)
    {
      BuiltTrace(prompts, ex, es[i].0, es[i].1.s);
    }
  }

  /** With only string responses, every entry is recorded and the run's time and output are kept. */
  lemma AllStringsTrace(results: RunResults, config: Config, ex: Extractors, str: Json -> string)
    requires results.executionResults.ByAgent? && Traversable(config) && AllStrings(results.executionResults.entries)
    ensures ExtractTrace(results, config, ex, str) ==
      WorkflowTrace(RecordAll(results.executionResults.entries, Builder(ExtractAgentPrompts(config), ex)),
                    results.executionTime, Some(Join(StringResponses(results.executionResults.entries), "\n\n")))
  {
    var es := results.executionResults.entries;
    assert es[..StringPrefix(es)] == es;
  }

  /** A built trace carries the looked-up prompt and the response's output. */
  lemma BuiltTrace(prompts: map<string, string>, ex: Extractors, id: string, response: string)
    ensures Builder(prompts, ex)(id, response).prompt == PromptFor(prompts, id)
    ensures Builder(prompts, ex)(id, response).outputData == OutputData(response)
  {
  }

  /** With only string responses, the responses are the entries' strings in order. */
  lemma ResponsesInOrder(es: seq<(string, Json)>)
    requires AllStrings(es)
    ensures StringResponses(es) == seq(|es|, i requires 0 <= i < |es| => es[i].1.s)
  {
    StringResponsesOfStrings(es);
  }

  /**
   * Reading the prompts of a configuration with a `sub_agents` value that
   * cannot be iterated raises, and the trace stays empty. A string or a
   * dictionary is iterated, and its items, which are not dictionaries, are
   * skipped.
   */
  lemma NotTraversableTrace(results: RunResults, config: Config, ex: Extractors, str: Json -> string)
    requires !Traversable(config)
    ensures ExtractTrace(results, config, ex, str) == WorkflowTrace([], None, None)
  {
  }

  /** A response that is not a string stops the trace at the entries before it, with no time or output. */
  lemma NonStringStopsTrace(results: RunResults, config: Config, ex: Extractors, str: Json -> string, k: nat)
    requires results.executionResults.ByAgent?
    requires k < |results.executionResults.entries|
    requires !results.executionResults.entries[k].1.JString?
    ensures var t := ExtractTrace(results, config, ex, str);
      |t.agentTraces| <= k && t.totalExecutionTime == None && t.finalOutput == None
  {
    var es := results.executionResults.entries;
    var p := StringPrefix(es);
    RecordAllLength(es[..p], Builder(ExtractAgentPrompts(config), ex));
  }

  lemma {:induction false} RecordAllLength(es: seq<(string, Json)>, build: TraceBuilder)
    requires AllStrings(es)
    ensures |RecordAll(es, build)| <= |es|
    ensures KeysOf(RecordAll(es, build)) == KeysOf(es)
  {
    if es != [] {
      var init := es[..|es| - 1];
      var last := es[|es| - 1];
      RecordAllLength(init, build);
      var r0 := RecordAll(init, build);
      PutSpec(r0, last.0, build(last.0, last.1.s));
      assert KeysOf(es) == KeysOf(init) + {last.0} by {
        assert forall i :: 0 <= i < |init| ==> init[i] == es[i];
      }
      PutLength(r0, last.0, build(last.0, last.1.s));
    }
  }
}
