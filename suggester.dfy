/**
 * The prompt suggester: keyword-dispatched rewrites of an agent's prompt,
 * suggestions drawn from a workflow trace, the filter applied to the
 * suggestion list a model returns, the low-score fallback used when the
 * model gives nothing usable, and the de-duplication and ranking that
 * produce the final list. The model's reply is an input; `json.loads` and
 * the float rendering come from a `Host`.
 */
module Suggester {
  import opened Wrappers
  import opened Text
  import opened Json
  import opened Stats
  import opened OptimizerTypes

  /** The `suggester.improvements` section of the optimizer configuration. */
  datatype Improvements = Improvements(
    accuracyAdditions: seq<string>,
    detailAdditions: seq<string>,
    formatAdditions: seq<string>,
    contextAdditions: seq<string>,
    errorHandling: string,
    outputLength: string)

  /** `current_prompts`: the (agent id, prompt) items of the dictionary, in its order. */
  type Prompts = seq<(string, string)>

  predicate HasPrompt(prompts: Prompts, id: string)
  {
    exists i :: 0 <= i < |prompts| && prompts[i].0 == id
  }

  predicate AllHavePrompts(prompts: Prompts, ss: seq<PromptSuggestion>)
  {
    forall i :: 0 <= i < |ss| ==> HasPrompt(prompts, ss[i].agentId)
  }

  lemma AllHavePromptsIds(prompts: Prompts, ss: seq<PromptSuggestion>)
    requires AllHavePrompts(prompts, ss)
    ensures forall id :: id in AgentIds(ss) ==> HasPrompt(prompts, id)
  {
  }

  /** `current_prompts[id]` when `id in current_prompts`. */
  function Lookup(prompts: Prompts, id: string): (r: Option<string>)
    ensures r.Some? <==> HasPrompt(prompts, id)
    ensures r.Some? ==> (id, r.value) in prompts
  {
    if prompts == [] then None
    else if prompts[0].0 == id then Some(prompts[0].1)
    else
      assert forall i :: 1 <= i < |prompts| ==> prompts[i] == prompts[1..][i - 1];
      assert HasPrompt(prompts, id) ==> HasPrompt(prompts[1..], id);
      Lookup(prompts[1..], id)
  }

  // ---------------------------------------------------------------------
  // Keyword dispatch and the prompt rewrites
  // ---------------------------------------------------------------------

  /** The five rewrites, in the order the issue's keywords are tried. */
  datatype Rewrite = AccuracyFocus | DetailRequirements | FormattingRequirements | ContextAwareness | ImprovementNote

  function Position(k: Rewrite): nat
  {
    match k
    case AccuracyFocus => 0
    case DetailRequirements => 1
    case FormattingRequirements => 2
    case ContextAwareness => 3
    case ImprovementNote => 4
  }

  /** The words in a lowercased issue that select each rewrite. */
  function Keywords(k: Rewrite): seq<string>
  {
    match k
    case AccuracyFocus => ["accuracy", "incorrect"]
    case DetailRequirements => ["detail", "brief"]
    case FormattingRequirements => ["format", "structure"]
    case ContextAwareness => ["context", "understanding"]
    case ImprovementNote => []
  }

  predicate Mentions(issue: string, k: Rewrite)
  {
    exists w :: w in Keywords(k) && Contains(Lower(issue), w)
  }

  /**
   * `_generate_specific_agent_suggestion`'s dispatch: the first rewrite in
   * order whose keywords the lowercased issue contains, or the generic note
   * when it contains none of them.
   */
  function Classify(issue: string): Rewrite
  {
    var l := Lower(issue);
    if Contains(l, "accuracy") || Contains(l, "incorrect") then AccuracyFocus
    else if Contains(l, "detail") || Contains(l, "brief") then DetailRequirements
    else if Contains(l, "format") || Contains(l, "structure") then FormattingRequirements
    else if Contains(l, "context") || Contains(l, "understanding") then ContextAwareness
    else ImprovementNote
  }

  /** The selected rewrite is mentioned by the issue, and no rewrite tried before it is. */
  lemma ClassifyFirstMatch(issue: string)
    ensures var k := Classify(issue);
      (k != ImprovementNote ==> Mentions(issue, k)) &&
      (forall j :: Position(j) < Position(k) ==> !Mentions(issue, j))
  {
    var k := Classify(issue);
    MentionsPair(issue, AccuracyFocus, "accuracy", "incorrect");
    MentionsPair(issue, DetailRequirements, "detail", "brief");
    MentionsPair(issue, FormattingRequirements, "format", "structure");
    MentionsPair(issue, ContextAwareness, "context", "understanding");
    NoteNotMentioned(issue);
    forall j | Position(j) < Position(k) ensures !Mentions(issue, j) {
      match j
      case AccuracyFocus =>
      case DetailRequirements =>
      case FormattingRequirements =>
      case ContextAwareness =>
      case ImprovementNote =>
    }
  }

  /** A rewrite other than the note is mentioned exactly when one of its two keywords occurs. */
  lemma MentionsPair(issue: string, k: Rewrite, w0: string, w1: string)
    requires Keywords(k) == [w0, w1]
    ensures Mentions(issue, k) == (Contains(Lower(issue), w0) || Contains(Lower(issue), w1))
  {
    if Contains(Lower(issue), w0) {
      assert w0 in Keywords(k);
    }
    if Contains(Lower(issue), w1) {
      assert w1 in Keywords(k);
    }
  }

  lemma NoteNotMentioned(issue: string)
    ensures !Mentions(issue, ImprovementNote)
  {
  }

  /** The dispatch does not depend on the issue's case. */
  lemma ClassifyIgnoresCase(issue: string)
    ensures Classify(Lower(issue)) == Classify(issue)
  {
    LowerIdempotent(issue);
  }

  function Header(k: Rewrite): string
  {
    match k
    case AccuracyFocus => "\n\nACCURACY FOCUS:\n"
    case DetailRequirements => "\n\nDETAIL REQUIREMENTS:\n"
    case FormattingRequirements => "\n\nFORMATTING REQUIREMENTS:\n"
    case ContextAwareness => "\n\nCONTEXT AWARENESS:\n"
    case ImprovementNote => "\n\nIMPROVEMENT NOTE:\n"
  }

  /** What follows the header: the configured additions, one per line, or the issue and the `str()` of its evidence. */
  function Addition(k: Rewrite, issue: string, evidence: string, imp: Improvements): string
  {
    match k
    case AccuracyFocus => Join(imp.accuracyAdditions, "\n")
    case DetailRequirements => Join(imp.detailAdditions, "\n")
    case FormattingRequirements => Join(imp.formatAdditions, "\n")
    case ContextAwareness => Join(imp.contextAdditions, "\n")
    case ImprovementNote => "Address the following issue: " + issue + "\n" + "Evidence: " + evidence
  }

  /** `_improve_*_prompt` and `_generic_improvement_prompt`. */
  function ImprovePrompt(k: Rewrite, current: string, issue: string, evidence: string, imp: Improvements): (r: string)
    ensures StartsWith(r, RStrip(current) + Header(k))
    ensures EndsWith(r, Addition(k, issue, evidence, imp))
  {
    RStrip(current) + Header(k) + Addition(k, issue, evidence, imp)
  }

  /** Trailing whitespace on the current prompt never changes a rewrite. */
  lemma ImproveIgnoresTrailingSpace(k: Rewrite, current: string, ws: string, issue: string, evidence: string, imp: Improvements)
    requires AllSpace(ws)
    ensures ImprovePrompt(k, current + ws, issue, evidence, imp) == ImprovePrompt(k, current, issue, evidence, imp)
  {
    RStripTrailingSpace(current, ws);
  }

  /** The rewritten prompt keeps the whole current prompt except its trailing whitespace. */
  lemma ImproveKeepsPrompt(k: Rewrite, current: string, issue: string, evidence: string, imp: Improvements)
    ensures var r := ImprovePrompt(k, current, issue, evidence, imp);
      |r| > |RStrip(current)| && r[..|RStrip(current)|] == current[..|RStrip(current)|] &&
      AllSpace(current[|RStrip(current)|..])
  {
    var r := ImprovePrompt(k, current, issue, evidence, imp);
    var p := RStrip(current);
    assert r[..|p|] == p;
  }

  /**
   * `_generate_specific_agent_suggestion` for an issue that is a string:
   * the rewrite the lowercased issue selects, with confidence 0.8.
   */
  function SpecificSuggestion(agentId: string, current: string, issue: string, evidence: string, imp: Improvements): (s: PromptSuggestion)
    ensures s.agentId == agentId && s.confidence == 0.8
    ensures s.newPrompt == ImprovePrompt(Classify(issue), current, issue, evidence, imp)
  {
    PromptSuggestion(agentId, ImprovePrompt(Classify(issue), current, issue, evidence, imp), "Address issue: " + issue, 0.8)
  }

  /**
   * A feedback record yields a suggestion: its agent id is a string with a
   * prompt, and its issue is a string. Any other issue makes `.lower()`
   * raise inside the try, and the suggestion is dropped; an agent id that
   * is a number, a boolean or `None` is not a key of the prompts.
   */
  predicate Actionable(prompts: Prompts, f: AgentFeedback)
  {
    f.agentId.JString? && HasPrompt(prompts, f.agentId.s) && f.issue.JString?
  }

  /** A list or dictionary agent id cannot be hashed: `agent_id in current_prompts` raises outside any try. */
  predicate Unhashable(v: Json)
  {
    v.JArray? || v.JObject?
  }

  /** Some feedback record's agent id makes the membership test raise. */
  predicate UnhashableAgent(feedback: seq<AgentFeedback>)
  {
    exists i :: 0 <= i < |feedback| && Unhashable(feedback[i].agentId)
  }

  /** The suggestion for one feedback record, if it is actionable. */
  function FeedbackSuggestion(prompts: Prompts, f: AgentFeedback, imp: Improvements, host: Host): seq<PromptSuggestion>
  {
    if !f.agentId.JString? || !f.issue.JString? then []
    else match Lookup(prompts, f.agentId.s)
      case None => []
      case Some(current) => [SpecificSuggestion(f.agentId.s, current, f.issue.s, TextOf(f.evidence, host), imp)]
  }

  /** `_generate_agent_specific_suggestions`, when no agent id is a list or dictionary: one suggestion per actionable record. */
  function AgentSpecificSuggestions(prompts: Prompts, feedback: seq<AgentFeedback>, imp: Improvements, host: Host): (r: seq<PromptSuggestion>)
    ensures |r| <= |feedback|
  {
    if feedback == [] then []
    else AgentSpecificSuggestions(prompts, feedback[..|feedback| - 1], imp, host) + FeedbackSuggestion(prompts, feedback[|feedback| - 1], imp, host)
  }

  /** The number of actionable records. */
  function ActionableCount(prompts: Prompts, feedback: seq<AgentFeedback>): (n: nat)
    ensures n <= |feedback|
  {
    if feedback == [] then 0
    else ActionableCount(prompts, feedback[..|feedback| - 1]) + (if Actionable(prompts, feedback[|feedback| - 1]) then 1 else 0)
  }

  /**
   * Every agent-specific suggestion is for an agent with a prompt and has
   * confidence 0.8; there is one per actionable record, so one per record
   * when every record is actionable and none when no issue is a string.
   */
  lemma {:induction false} AgentSpecificSpec(prompts: Prompts, feedback: seq<AgentFeedback>, imp: Improvements, host: Host)
    ensures AllHavePrompts(prompts, AgentSpecificSuggestions(prompts, feedback, imp, host))
    ensures AllConfident(AgentSpecificSuggestions(prompts, feedback, imp, host), 0.8)
    ensures |AgentSpecificSuggestions(prompts, feedback, imp, host)| == ActionableCount(prompts, feedback)
    ensures AllActionable(prompts, feedback) ==> |AgentSpecificSuggestions(prompts, feedback, imp, host)| == |feedback|
    ensures NoTextIssue(feedback) ==> AgentSpecificSuggestions(prompts, feedback, imp, host) == []
  {
    if feedback != [] {
      var init := feedback[..|feedback| - 1];
      var f := feedback[|feedback| - 1];
      AgentSpecificSpec(prompts, init, imp, host);
      var r0 := AgentSpecificSuggestions(prompts, init, imp, host);
      var extra := FeedbackSuggestion(prompts, f, imp, host);
      FeedbackSuggestionShape(prompts, f, imp, host);
      AllHavePromptsAppend(prompts, r0, extra);
      ConfidenceAppend(r0, extra, 0.8);
      InitAllActionable(prompts, feedback);
    }
  }

  /** The suggestion for one feedback record is there exactly when the record is actionable, with confidence 0.8. */
  lemma FeedbackSuggestionShape(prompts: Prompts, f: AgentFeedback, imp: Improvements, host: Host)
    ensures |FeedbackSuggestion(prompts, f, imp, host)| == if Actionable(prompts, f) then 1 else 0
    ensures AllHavePrompts(prompts, FeedbackSuggestion(prompts, f, imp, host))
    ensures AllConfident(FeedbackSuggestion(prompts, f, imp, host), 0.8)
  {
  }

  /** Every suggestion has confidence `c`. */
  predicate AllConfident(ss: seq<PromptSuggestion>, c: real)
  {
    forall i :: 0 <= i < |ss| ==> ss[i].confidence == c
  }

  lemma ConfidenceAppend(a: seq<PromptSuggestion>, b: seq<PromptSuggestion>, c: real)
    requires AllConfident(a, c) && AllConfident(b, c)
    ensures AllConfident(a + b, c)
  {
    forall i | 0 <= i < |a + b| ensures (a + b)[i].confidence == c {
      if i >= |a| {
        assert (a + b)[i] == b[i - |a|];
      }
    }
  }

  /** No feedback record has a string issue. */
  predicate NoTextIssue(feedback: seq<AgentFeedback>)
  {
    forall i :: 0 <= i < |feedback| ==> !feedback[i].issue.JString?
  }

  /** Every feedback record is actionable. */
  predicate AllActionable(prompts: Prompts, feedback: seq<AgentFeedback>)
  {
    forall i :: 0 <= i < |feedback| ==> Actionable(prompts, feedback[i])
  }

  lemma InitAllActionable(prompts: Prompts, feedback: seq<AgentFeedback>)
    requires feedback != []
    ensures AllActionable(prompts, feedback) ==>
      AllActionable(prompts, feedback[..|feedback| - 1]) && Actionable(prompts, feedback[|feedback| - 1])
    ensures NoTextIssue(feedback) ==>
      NoTextIssue(feedback[..|feedback| - 1]) && !Actionable(prompts, feedback[|feedback| - 1])
  {
  }

  /** No agent id among the first `n` records is a list or dictionary. */
  predicate NoneUnhashable(feedback: seq<AgentFeedback>, n: nat)
    requires n <= |feedback|
  {
    forall j :: 0 <= j < n ==> !Unhashable(feedback[j].agentId)
  }

  /** Record `i` holds the first list or dictionary agent id. */
  predicate FirstUnhashable(feedback: seq<AgentFeedback>, i: int)
  {
    0 <= i < |feedback| && Unhashable(feedback[i].agentId) && NoneUnhashable(feedback, i)
  }

  /** Python's `TypeError` text for hashing a list or a dictionary. */
  function UnhashableText(v: Json): string
  {
    "unhashable type: '" + TypeName(v) + "'"
  }

  /**
   * `_generate_agent_specific_suggestions` with its loop: the first record
   * whose agent id is a list or dictionary ends it with `TypeError`.
   */
  method GenerateAgentSpecificSuggestions(prompts: Prompts, feedback: seq<AgentFeedback>, imp: Improvements, host: Host)
    returns (r: Result<seq<PromptSuggestion>>)
    ensures r.Err? <==> UnhashableAgent(feedback)
    ensures r.Ok? ==> r.value == AgentSpecificSuggestions(prompts, feedback, imp, host)
    ensures r.Err? ==> exists i :: FirstUnhashable(feedback, i) && r.error == UnhashableText(feedback[i].agentId)
  {
    var suggestions := [];
    for i := 0 to |feedback|
      invariant suggestions == AgentSpecificSuggestions(prompts, feedback[..i], imp, host)
      invariant NoneUnhashable(feedback, i)
    {
      var f := feedback[i];
      if Unhashable(f.agentId) {
        r := Err(UnhashableText(f.agentId));
        assert FirstUnhashable(feedback, i);
        return;
      }
      var extra := [];
      if f.agentId.JString? {
        var current := Lookup(prompts, f.agentId.s);
        if current.Some? && f.issue.JString? {
          extra := [SpecificSuggestion(f.agentId.s, current.value, f.issue.s, TextOf(f.evidence, host), imp)];
        }
      }
      assert extra == FeedbackSuggestion(prompts, f, imp, host);
      AgentSpecificStep(prompts, feedback, i, imp, host);
      suggestions := suggestions + extra;
    }
    assert feedback[..|feedback|] == feedback;
    r := Ok(suggestions);
  }

  lemma AgentSpecificStep(prompts: Prompts, feedback: seq<AgentFeedback>, i: nat, imp: Improvements, host: Host)
    requires i < |feedback|
    ensures AgentSpecificSuggestions(prompts, feedback[..i + 1], imp, host) ==
      AgentSpecificSuggestions(prompts, feedback[..i], imp, host) + FeedbackSuggestion(prompts, feedback[i], imp, host)
  {
    assert feedback[..i + 1][..i] == feedback[..i];
  }

  // ---------------------------------------------------------------------
  // Suggestions drawn from a workflow trace
  // ---------------------------------------------------------------------

  /** `if agent_trace.error:` — present and non-empty. */
  predicate HasError(t: AgentTrace)
  {
    t.error.Some? && t.error.value != ""
  }

  /** Output shorter than 100 characters asks for more detail. */
  predicate ShortOutput(t: AgentTrace)
  {
    |t.outputData| < 100
  }

  /** `_create_error_handling_suggestion`: the trimmed prompt, a newline and the error-handling addition, at confidence 0.7. */
  function ErrorSuggestion(agentId: string, current: string, error: string, imp: Improvements): PromptSuggestion
  {
    PromptSuggestion(agentId, RStrip(current) + "\n" + imp.errorHandling,
      "Improve error handling (previous error: " + error + ")", 0.7)
  }

  /** The error-handling suggestion is for the agent, at confidence 0.7, and adds its addition on a new line after the trimmed prompt. */
  lemma ErrorSuggestionShape(agentId: string, current: string, error: string, imp: Improvements)
    ensures var s := ErrorSuggestion(agentId, current, error, imp);
      && s.agentId == agentId && s.confidence == 0.7
      && StartsWith(s.newPrompt, RStrip(current) + "\n") && s.newPrompt[|RStrip(current)| + 1..] == imp.errorHandling
  {
  }

  /** `_create_output_length_suggestion`: the trimmed prompt, a newline and the output-length addition, at confidence 0.6. */
  function LengthSuggestion(agentId: string, current: string, outputLength: nat, imp: Improvements): PromptSuggestion
  {
    PromptSuggestion(agentId, RStrip(current) + "\n" + imp.outputLength,
      "Increase output detail (previous output: " + NatToString(outputLength) + " chars)", 0.6)
  }

  /** The output-length suggestion is for the agent, at confidence 0.6, and adds its addition on a new line after the trimmed prompt. */
  lemma LengthSuggestionShape(agentId: string, current: string, outputLength: nat, imp: Improvements)
    ensures var s := LengthSuggestion(agentId, current, outputLength, imp);
      && s.agentId == agentId && s.confidence == 0.6
      && StartsWith(s.newPrompt, RStrip(current) + "\n") && s.newPrompt[|RStrip(current)| + 1..] == imp.outputLength
  {
  }

  /** The suggestions for one trace entry: an error one, then a length one. */
  function EntrySuggestions(prompts: Prompts, agentId: string, t: AgentTrace, imp: Improvements): seq<PromptSuggestion>
  {
    match Lookup(prompts, agentId)
    case None => []
    case Some(current) =>
      (if HasError(t) then [ErrorSuggestion(agentId, current, t.error.value, imp)] else []) +
      (if ShortOutput(t) then [LengthSuggestion(agentId, current, |t.outputData|, imp)] else [])
  }

  /** An error suggestion for `s`'s agent is justified by an erroneous trace, a length one by a short one. */
  predicate Justified(traces: seq<(string, AgentTrace)>, s: PromptSuggestion)
  {
    exists i :: 0 <= i < |traces| && traces[i].0 == s.agentId &&
      (s.confidence == 0.7 ==> HasError(traces[i].1)) &&
      (s.confidence == 0.6 ==> ShortOutput(traces[i].1))
  }

  /** `_generate_trace_based_suggestions`. */
  function TraceSuggestions(prompts: Prompts, traces: seq<(string, AgentTrace)>, imp: Improvements): (r: seq<PromptSuggestion>)
    ensures |r| <= 2 * |traces|
  {
    if traces == [] then []
    else
      var (id, t) := traces[|traces| - 1];
      TraceSuggestions(prompts, traces[..|traces| - 1], imp) + EntrySuggestions(prompts, id, t, imp)
  }

  /** `s` is for an agent with a prompt, and its kind is justified by one of the traces. */
  predicate FromTraces(prompts: Prompts, traces: seq<(string, AgentTrace)>, s: PromptSuggestion)
  {
    HasPrompt(prompts, s.agentId) && (s.confidence == 0.7 || s.confidence == 0.6) && Justified(traces, s)
  }

  /**
   * Trace suggestions are only for agents with a prompt; each error
   * suggestion (confidence 0.7) comes from a trace of that agent with an
   * error, each length suggestion (confidence 0.6) from one with short output.
   */
  lemma {:induction false} TraceSuggestionsSpec(prompts: Prompts, traces: seq<(string, AgentTrace)>, imp: Improvements)
    ensures AllFromTraces(prompts, traces, TraceSuggestions(prompts, traces, imp))
  {
    if traces != [] {
      var init := traces[..|traces| - 1];
      TraceSuggestionsSpec(prompts, init, imp);
      FromTracesExtend(prompts, traces, TraceSuggestions(prompts, init, imp));
      EntryFromTraces(prompts, traces, imp);
      FromTracesAppend(prompts, traces, TraceSuggestions(prompts, init, imp),
        EntrySuggestions(prompts, traces[|traces| - 1].0, traces[|traces| - 1].1, imp));
    }
  }

  predicate AllFromTraces(prompts: Prompts, traces: seq<(string, AgentTrace)>, ss: seq<PromptSuggestion>)
  {
    forall i :: 0 <= i < |ss| ==> FromTraces(prompts, traces, ss[i])
  }

  /** A suggestion justified by some traces stays justified when a trace is added. */
  lemma FromTracesExtend(prompts: Prompts, traces: seq<(string, AgentTrace)>, ss: seq<PromptSuggestion>)
    requires traces != [] && AllFromTraces(prompts, traces[..|traces| - 1], ss)
    ensures AllFromTraces(prompts, traces, ss)
  {
    var init := traces[..|traces| - 1];
    forall i | 0 <= i < |ss| ensures Justified(traces, ss[i]) {
      var s := ss[i];
      var k :| 0 <= k < |init| && init[k].0 == s.agentId &&
        (s.confidence == 0.7 ==> HasError(init[k].1)) &&
        (s.confidence == 0.6 ==> ShortOutput(init[k].1));
      assert traces[k] == init[k];
    }
  }

  /** The suggestions of the last trace entry are justified by it. */
  lemma EntryFromTraces(prompts: Prompts, traces: seq<(string, AgentTrace)>, imp: Improvements)
    requires traces != []
    ensures AllFromTraces(prompts, traces, EntrySuggestions(prompts, traces[|traces| - 1].0, traces[|traces| - 1].1, imp))
  {
    var n := |traces| - 1;
    var e := EntrySuggestions(prompts, traces[n].0, traces[n].1, imp);
    forall i | 0 <= i < |e| ensures FromTraces(prompts, traces, e[i]) {
      assert e[i].agentId == traces[n].0;
      assert Justified(traces, e[i]) by {
        assert 0 <= n < |traces| && traces[n].0 == e[i].agentId;
      }
    }
  }

  lemma FromTracesHavePrompts(prompts: Prompts, traces: seq<(string, AgentTrace)>, ss: seq<PromptSuggestion>)
    requires AllFromTraces(prompts, traces, ss)
    ensures AllHavePrompts(prompts, ss)
  {
  }

  lemma FromTracesAppend(prompts: Prompts, traces: seq<(string, AgentTrace)>, a: seq<PromptSuggestion>, b: seq<PromptSuggestion>)
    requires AllFromTraces(prompts, traces, a) && AllFromTraces(prompts, traces, b)
    ensures AllFromTraces(prompts, traces, a + b)
  {
    forall i | 0 <= i < |a + b| ensures FromTraces(prompts, traces, (a + b)[i]) {
      if i >= |a| {
        assert (a + b)[i] == b[i - |a|];
      }
    }
  }

  lemma TraceSuggestionsStep(prompts: Prompts, traces: seq<(string, AgentTrace)>, i: nat, imp: Improvements,
                             before: seq<PromptSuggestion>, found: seq<PromptSuggestion>)
    requires i < |traces|
    requires before == TraceSuggestions(prompts, traces[..i], imp)
    requires found == EntrySuggestions(prompts, traces[i].0, traces[i].1, imp)
    ensures TraceSuggestions(prompts, traces[..i + 1], imp) == before + found
  {
    PrefixInit(traces, i);
  }

  /** The suggestions of one entry, once its agent's prompt is known: the error one, then the length one. */
  lemma EntryParts(prompts: Prompts, id: string, t: AgentTrace, imp: Improvements, current: string,
                   errors: seq<PromptSuggestion>, found: seq<PromptSuggestion>)
    requires Lookup(prompts, id) == Some(current)
    requires errors == if HasError(t) then [ErrorSuggestion(id, current, t.error.value, imp)] else []
    requires found == errors + if ShortOutput(t) then [LengthSuggestion(id, current, |t.outputData|, imp)] else []
    ensures found == EntrySuggestions(prompts, id, t, imp)
  {
  }

  lemma NoEntryWithoutPrompt(prompts: Prompts, id: string, t: AgentTrace, imp: Improvements)
    requires Lookup(prompts, id).None?
    ensures EntrySuggestions(prompts, id, t, imp) == []
  {
  }

  method GenerateTraceSuggestions(prompts: Prompts, trace: WorkflowTrace, imp: Improvements)
    returns (suggestions: seq<PromptSuggestion>)
    ensures suggestions == TraceSuggestions(prompts, trace.agentTraces, imp)
  {
    var traces := trace.agentTraces;
    suggestions := [];
    for i := 0 to |traces|
      invariant suggestions == TraceSuggestions(prompts, traces[..i], imp)
    {
      var (id, t) := traces[i];
      var current := Lookup(prompts, id);
      var found := [];
      if current.Some? {
        if HasError(t) {
          found := found + [ErrorSuggestion(id, current.value, t.error.value, imp)];
        }
        ghost var errors := found;
        if ShortOutput(t) {
          found := found + [LengthSuggestion(id, current.value, |t.outputData|, imp)];
        }
        EntryParts(prompts, id, t, imp, current.value, errors, found);
      } else {
        NoEntryWithoutPrompt(prompts, id, t, imp);
      }
      TraceSuggestionsStep(prompts, traces, i, imp, suggestions, found);
      suggestions := suggestions + found;
    }
    WholePrefix(traces);
  }

  // ---------------------------------------------------------------------
  // De-duplication and ranking
  // ---------------------------------------------------------------------

  function AgentIds(ss: seq<PromptSuggestion>): set<string>
  {
    set i | 0 <= i < |ss| :: ss[i].agentId
  }

  predicate DistinctAgents(ss: seq<PromptSuggestion>)
  {
    forall i, j :: 0 <= i < j < |ss| ==> ss[i].agentId != ss[j].agentId
  }

  /** `x` occurs in `ss` at some position before which every suggestion for its agent is strictly less confident. */
  predicate FirstBest(ss: seq<PromptSuggestion>, x: PromptSuggestion)
  {
    exists j :: 0 <= j < |ss| && ss[j] == x && EarlierLess(ss, j)
  }

  predicate EarlierLess(ss: seq<PromptSuggestion>, j: int)
    requires 0 <= j < |ss|
  {
    forall i :: 0 <= i < j && ss[i].agentId == ss[j].agentId ==> ss[i].confidence < ss[j].confidence
  }

  /** `x` is at least as confident as every suggestion in `ss` for its agent. */
  predicate MostConfident(ss: seq<PromptSuggestion>, x: PromptSuggestion)
  {
    forall j :: 0 <= j < |ss| && ss[j].agentId == x.agentId ==> ss[j].confidence <= x.confidence
  }

  /** Where `id`'s entry sits in the dictionary built so far, or -1. */
  function IndexOfAgent(kept: seq<PromptSuggestion>, id: string): (k: int)
    ensures -1 <= k < |kept|
    ensures k >= 0 ==> kept[k].agentId == id
    ensures k < 0 <==> id !in AgentIds(kept)
  {
    if kept == [] then -1
    else if kept[|kept| - 1].agentId == id then |kept| - 1
    else
      var k := IndexOfAgent(kept[..|kept| - 1], id);
      assert AgentIds(kept) == AgentIds(kept[..|kept| - 1]) + {kept[|kept| - 1].agentId} by {
        assert forall i :: 0 <= i < |kept| - 1 ==> kept[i] == kept[..|kept| - 1][i];
      }
      k
  }

  /** One step of the grouping loop: a new agent is added, a strictly more confident suggestion replaces its agent's. */
  function Keep(kept: seq<PromptSuggestion>, s: PromptSuggestion): seq<PromptSuggestion>
  {
    var k := IndexOfAgent(kept, s.agentId);
    if k < 0 then kept + [s]
    else if s.confidence > kept[k].confidence then kept[k := s]
    else kept
  }

  /** The values of the `agent_suggestions` dictionary, in insertion order. */
  function BestPerAgent(ss: seq<PromptSuggestion>): seq<PromptSuggestion>
  {
    if ss == [] then [] else Keep(BestPerAgent(ss[..|ss| - 1]), ss[|ss| - 1])
  }

  lemma AgentIdsAppend(ss: seq<PromptSuggestion>, s: PromptSuggestion)
    ensures AgentIds(ss + [s]) == AgentIds(ss) + {s.agentId}
  {
    assert forall i :: 0 <= i < |ss| ==> (ss + [s])[i] == ss[i];
    assert (ss + [s])[|ss|] == s;
  }

  lemma KeepAgents(kept: seq<PromptSuggestion>, s: PromptSuggestion)
    ensures AgentIds(Keep(kept, s)) == AgentIds(kept) + {s.agentId}
  {
    var k := IndexOfAgent(kept, s.agentId);
    if k < 0 {
      AgentIdsAppend(kept, s);
    } else if s.confidence > kept[k].confidence {
      var r := kept[k := s];
      assert forall i :: 0 <= i < |kept| ==> r[i].agentId == kept[i].agentId;
      assert AgentIds(r) == AgentIds(kept);
    }
  }

  /** The grouping keeps one entry per agent. */
  lemma {:induction false} BestDistinct(ss: seq<PromptSuggestion>)
    ensures DistinctAgents(BestPerAgent(ss))
  {
    if ss != [] {
      var w := BestPerAgent(ss[..|ss| - 1]);
      var s := ss[|ss| - 1];
      BestDistinct(ss[..|ss| - 1]);
      var k := IndexOfAgent(w, s.agentId);
      if k < 0 {
        assert forall i :: 0 <= i < |w| ==> w[i].agentId in AgentIds(w);
      }
    }
  }

  /** The grouping keeps exactly the input's agents. */
  lemma {:induction false} BestAgents(ss: seq<PromptSuggestion>)
    ensures AgentIds(BestPerAgent(ss)) == AgentIds(ss)
  {
    if ss != [] {
      var init := ss[..|ss| - 1];
      BestAgents(init);
      KeepAgents(BestPerAgent(init), ss[|ss| - 1]);
      assert ss == init + [ss[|ss| - 1]];
      AgentIdsAppend(init, ss[|ss| - 1]);
    }
  }

  /** The entry kept for an agent is at least as confident as every suggestion for that agent. */
  lemma {:induction false} BestMaximal(ss: seq<PromptSuggestion>)
    ensures forall i :: 0 <= i < |BestPerAgent(ss)| ==> MostConfident(ss, BestPerAgent(ss)[i])
  {
    if ss != [] {
      var init := ss[..|ss| - 1];
      var w0 := BestPerAgent(init);
      var s := ss[|ss| - 1];
      var w := BestPerAgent(ss);
      BestMaximal(init);
      BestDistinct(init);
      BestAgents(init);
      var k := IndexOfAgent(w0, s.agentId);
      forall i | 0 <= i < |w| ensures MostConfident(ss, w[i]) {
        forall j | 0 <= j < |ss| && ss[j].agentId == w[i].agentId ensures ss[j].confidence <= w[i].confidence {
          if j < |ss| - 1 {
            assert ss[j] == init[j];
            if k >= 0 && i == k && s.confidence > w0[k].confidence {
              assert MostConfident(init, w0[k]);
            } else if i < |w0| {
              assert MostConfident(init, w0[i]);
            }
          }
        }
      }
    }
  }

  lemma FirstBestExtend(ss: seq<PromptSuggestion>, s: PromptSuggestion, x: PromptSuggestion)
    requires FirstBest(ss, x)
    ensures FirstBest(ss + [s], x)
  {
    var j :| 0 <= j < |ss| && ss[j] == x && EarlierLess(ss, j);
    assert forall i :: 0 <= i <= j ==> (ss + [s])[i] == ss[i];
    assert EarlierLess(ss + [s], j);
  }

  /** Each kept entry is the first of its agent's most confident suggestions: ties keep the earliest. */
  lemma {:induction false} BestEarliest(ss: seq<PromptSuggestion>)
    ensures forall i :: 0 <= i < |BestPerAgent(ss)| ==> FirstBest(ss, BestPerAgent(ss)[i])
  {
    if ss != [] {
      var init := ss[..|ss| - 1];
      var w0 := BestPerAgent(init);
      var s := ss[|ss| - 1];
      var n := |ss| - 1;
      assert ss == init + [s];
      var w := BestPerAgent(ss);
      BestEarliest(init);
      var k := IndexOfAgent(w0, s.agentId);
      forall i | 0 <= i < |w| ensures FirstBest(ss, w[i]) {
        if (k < 0 && i == |w0|) || (k >= 0 && i == k && s.confidence > w0[k].confidence) {
          assert w[i] == s == ss[n];
          forall j | 0 <= j < n && ss[j].agentId == s.agentId ensures ss[j].confidence < s.confidence {
            assert ss[j] == init[j];
            BestAgents(init);
            assert s.agentId in AgentIds(init);
            assert k >= 0;
            BestMaximal(init);
            assert MostConfident(init, w0[k]);
          }
          assert EarlierLess(ss, n);
        } else {
          assert i < |w0| && w[i] == w0[i];
          assert FirstBest(init, w0[i]);
          FirstBestExtend(init, s, w0[i]);
        }
      }
    }
  }

  predicate SortedByConfidence(ss: seq<PromptSuggestion>)
  {
    forall i, j :: 0 <= i < j < |ss| ==> ss[i].confidence >= ss[j].confidence
  }

  /** `s` placed after every suggestion at least as confident, before the first less confident one. */
  function InsertByConfidence(s: PromptSuggestion, ranked: seq<PromptSuggestion>): (r: seq<PromptSuggestion>)
    requires SortedByConfidence(ranked)
    ensures SortedByConfidence(r) && multiset(r) == multiset(ranked) + multiset{s}
  {
    if ranked == [] then [s]
    else if ranked[0].confidence < s.confidence then [s] + ranked
    else
      var rest := InsertByConfidence(s, ranked[1..]);
      RankedBehindHead(s, ranked, rest);
      [ranked[0]] + rest
  }

  /** Putting the most confident entry back in front of the rest with `s` inserted keeps the order. */
  lemma RankedBehindHead(s: PromptSuggestion, ranked: seq<PromptSuggestion>, rest: seq<PromptSuggestion>)
    requires ranked != [] && SortedByConfidence(ranked) && ranked[0].confidence >= s.confidence
    requires SortedByConfidence(rest) && multiset(rest) == multiset(ranked[1..]) + multiset{s}
    ensures SortedByConfidence([ranked[0]] + rest) && multiset([ranked[0]] + rest) == multiset(ranked) + multiset{s}
  {
    assert ranked == [ranked[0]] + ranked[1..];
    forall i | 0 <= i < |rest| ensures ranked[0].confidence >= rest[i].confidence {
      assert rest[i] in multiset(rest);
    }
  }

  /** `sorted(..., key=confidence, reverse=True)`: later suggestions go after equally confident earlier ones. */
  function RankByConfidence(ss: seq<PromptSuggestion>): (r: seq<PromptSuggestion>)
    ensures SortedByConfidence(r) && multiset(r) == multiset(ss)
  {
    if ss == [] then []
    else
      assert ss == ss[..|ss| - 1] + [ss[|ss| - 1]];
      InsertByConfidence(ss[|ss| - 1], RankByConfidence(ss[..|ss| - 1]))
  }

  lemma SameElements(a: seq<PromptSuggestion>, b: seq<PromptSuggestion>)
    requires multiset(a) == multiset(b)
    ensures forall x :: x in a <==> x in b
    ensures AgentIds(a) == AgentIds(b)
  {
    assert forall x :: x in a <==> x in multiset(a);
    assert forall x :: x in b <==> x in multiset(b);
    forall id | id in AgentIds(a) ensures id in AgentIds(b) {
      var i :| 0 <= i < |a| && a[i].agentId == id;
      assert a[i] in b;
    }
    forall id | id in AgentIds(b) ensures id in AgentIds(a) {
      var i :| 0 <= i < |b| && b[i].agentId == id;
      assert b[i] in a;
    }
  }

  lemma {:induction false} InsertDistinct(s: PromptSuggestion, ranked: seq<PromptSuggestion>)
    requires SortedByConfidence(ranked) && DistinctAgents(ranked)
    requires s.agentId !in AgentIds(ranked)
    ensures DistinctAgents(InsertByConfidence(s, ranked))
  {
    if ranked != [] && ranked[0].confidence >= s.confidence {
      var rest := InsertByConfidence(s, ranked[1..]);
      TailDistinct(ranked);
      InsertDistinct(s, ranked[1..]);
      SameElements(rest, ranked[1..] + [s]);
      AgentIdsAppend(ranked[1..], s);
      ConsDistinct(ranked[0], rest);
    } else {
      ConsDistinct(s, ranked);
    }
  }

  /** The tail of a ranked list with one entry per agent is one too, without the head's agent. */
  lemma TailDistinct(ranked: seq<PromptSuggestion>)
    requires ranked != [] && SortedByConfidence(ranked) && DistinctAgents(ranked)
    ensures SortedByConfidence(ranked[1..]) && DistinctAgents(ranked[1..])
    ensures AgentIds(ranked[1..]) <= AgentIds(ranked)
    ensures ranked[0].agentId !in AgentIds(ranked[1..])
  {
    assert forall i :: 0 <= i < |ranked| - 1 ==> ranked[1..][i] == ranked[i + 1];
  }

  /** A suggestion for a new agent in front of a list with one entry per agent. */
  lemma ConsDistinct(x: PromptSuggestion, ss: seq<PromptSuggestion>)
    requires DistinctAgents(ss) && x.agentId !in AgentIds(ss)
    ensures DistinctAgents([x] + ss)
  {
    forall i, j | 0 <= i < j < |[x] + ss| ensures ([x] + ss)[i].agentId != ([x] + ss)[j].agentId {
      assert ([x] + ss)[j] == ss[j - 1];
      if i == 0 {
        assert ss[j - 1].agentId in AgentIds(ss);
      } else {
        assert ([x] + ss)[i] == ss[i - 1];
      }
    }
  }

  /** Ranking a list with one entry per agent keeps one entry per agent. */
  lemma {:induction false} RankDistinct(ss: seq<PromptSuggestion>)
    requires DistinctAgents(ss)
    ensures DistinctAgents(RankByConfidence(ss))
  {
    if ss != [] {
      var init := ss[..|ss| - 1];
      var s := ss[|ss| - 1];
      RankDistinct(init);
      SameElements(RankByConfidence(init), init);
      assert s.agentId !in AgentIds(init) by {
        forall i | 0 <= i < |init| ensures init[i].agentId != s.agentId {
          assert init[i] == ss[i];
        }
      }
      InsertDistinct(s, RankByConfidence(init));
    }
  }

  /** `_deduplicate_and_rank_suggestions`. */
  function DeduplicateAndRank(ss: seq<PromptSuggestion>): seq<PromptSuggestion>
  {
    RankByConfidence(BestPerAgent(ss))
  }

  /** One suggestion per agent of the input, for exactly the input's agents, in non-increasing confidence. */
  lemma DeduplicateAndRankShape(ss: seq<PromptSuggestion>)
    ensures var r := DeduplicateAndRank(ss);
      DistinctAgents(r) && AgentIds(r) == AgentIds(ss) && SortedByConfidence(r)
  {
    var w := BestPerAgent(ss);
    BestDistinct(ss);
    BestAgents(ss);
    RankDistinct(w);
    SameElements(DeduplicateAndRank(ss), w);
  }

  /**
   * Each output suggestion is drawn from the input, is at least as confident
   * as every input suggestion for its agent, and is the earliest such one.
   */
  lemma DeduplicateAndRankChoice(ss: seq<PromptSuggestion>)
    ensures forall i :: 0 <= i < |DeduplicateAndRank(ss)| ==>
      FirstBest(ss, DeduplicateAndRank(ss)[i]) && MostConfident(ss, DeduplicateAndRank(ss)[i])
  {
    var w := BestPerAgent(ss);
    var r := DeduplicateAndRank(ss);
    BestMaximal(ss);
    BestEarliest(ss);
    SameElements(r, w);
    forall i | 0 <= i < |r| ensures FirstBest(ss, r[i]) && MostConfident(ss, r[i]) {
      assert r[i] in w;
      var m :| 0 <= m < |w| && w[m] == r[i];
    }
  }

  method DeduplicateAndRankSuggestions(suggestions: seq<PromptSuggestion>) returns (ranked: seq<PromptSuggestion>)
    ensures ranked == DeduplicateAndRank(suggestions)
  {
    var kept := [];
    for i := 0 to |suggestions|
      invariant kept == BestPerAgent(suggestions[..i])
    {
      assert suggestions[..i + 1][..i] == suggestions[..i];
      var s := suggestions[i];
      var k := IndexOfAgent(kept, s.agentId);
      if k < 0 {
        kept := kept + [s];
      } else if s.confidence > kept[k].confidence {
        kept := kept[k := s];
      }
    }
    assert suggestions[..|suggestions|] == suggestions;
    ranked := RankByConfidence(kept);
  }

  // ---------------------------------------------------------------------
  // The model's suggestion list and the low-score fallback
  // ---------------------------------------------------------------------

  /** A list item `_parse_llm_response` keeps. */
  predicate Complete(v: Json)
  {
    v.JObject? && "agent_id" in v.fields && "new_prompt" in v.fields && "reason" in v.fields
  }

  /** The keys every suggestion dictionary handed on carries. */
  predicate SuggestionKeys(d: map<string, Json>)
  {
    "agent_id" in d && "new_prompt" in d && "reason" in d && "confidence" in d
  }

  /** `reason[:50]` in the log line succeeds only on strings and lists. */
  predicate Sliceable(v: Json)
  {
    v.JString? || v.JArray?
  }

  predicate ReasonsSliceable(items: seq<Json>)
  {
    forall i :: 0 <= i < |items| && Complete(items[i]) ==> Sliceable(items[i].fields["reason"])
  }

  /** `suggestion['confidence'] = 0.7` when the key is missing. */
  function WithConfidence(fields: map<string, Json>): (r: map<string, Json>)
    ensures r.Keys == fields.Keys + {"confidence"}
    ensures forall k :: k in fields ==> r[k] == fields[k]
    ensures "confidence" !in fields ==> r["confidence"] == JNumber(0.7)
  {
    if "confidence" in fields then fields else fields["confidence" := JNumber(0.7)]
  }

  /** The complete items, in order, each with a confidence. */
  function CompleteItems(items: seq<Json>): (r: seq<map<string, Json>>)
    ensures |r| <= |items|
    ensures forall i :: 0 <= i < |r| ==> SuggestionKeys(r[i])
    ensures (forall j :: 0 <= j < |items| ==> Complete(items[j])) ==> |r| == |items|
  {
    if items == [] then []
    else
      var v := items[|items| - 1];
      assert forall j :: 0 <= j < |items| - 1 ==> items[..|items| - 1][j] == items[j];
      CompleteItems(items[..|items| - 1]) + (if Complete(v) then [WithConfidence(v.fields)] else [])
  }

  /** `d` is a complete item of `items`, with the default confidence added if it had none. */
  predicate DrawnFrom(items: seq<Json>, d: map<string, Json>)
  {
    exists j :: 0 <= j < |items| && Complete(items[j]) && d == WithConfidence(items[j].fields)
  }

  /** The filter invents nothing: every dictionary it keeps is one of the reply's complete items. */
  lemma {:induction false} CompleteItemsDrawn(items: seq<Json>)
    ensures forall i :: 0 <= i < |CompleteItems(items)| ==> DrawnFrom(items, CompleteItems(items)[i])
  {
    if items != [] {
      var init := items[..|items| - 1];
      CompleteItemsDrawn(init);
      var r := CompleteItems(items);
      forall i | 0 <= i < |r| ensures DrawnFrom(items, r[i]) {
        if i < |CompleteItems(init)| {
          var j :| 0 <= j < |init| && Complete(init[j]) && r[i] == WithConfidence(init[j].fields);
          assert init[j] == items[j];
        } else {
          assert r[i] == WithConfidence(items[|items| - 1].fields);
        }
      }
    }
  }

  /** `_parse_llm_response` after `json.loads`. */
  function ParseLlmResponse(text: string, host: Host): (r: seq<map<string, Json>>)
    ensures !HasSpan(text, '[', ']') ==> r == []
    ensures forall i :: 0 <= i < |r| ==> SuggestionKeys(r[i])
  {
    match BracketSpan(text, '[', ']')
    case None => []
    case Some(span) =>
      match host.parse(span)
      case Some(JArray(items)) => if ReasonsSliceable(items) then CompleteItems(items) else []
      case _ => []
  }

  /** A reply whose bracketed list holds only complete items yields all of them, in order. */
  lemma ParseKeepsCompleteList(text: string, host: Host, items: seq<Json>)
    requires BracketSpan(text, '[', ']').Some?
    requires host.parse(BracketSpan(text, '[', ']').value) == Some(JArray(items))
    requires forall j :: 0 <= j < |items| ==> Complete(items[j]) && items[j].fields["reason"].JString?
    ensures |ParseLlmResponse(text, host)| == |items|
  {
  }

  /** The filter loop, which sets the default confidence on each kept dictionary. */
  method ParseSuggestionItems(items: seq<Json>) returns (valid: seq<map<string, Json>>)
    ensures valid == (if ReasonsSliceable(items) then CompleteItems(items) else [])
  {
    valid := [];
    for i := 0 to |items|
      invariant ReasonsSliceable(items[..i])
      invariant valid == CompleteItems(items[..i])
    {
      assert items[..i + 1][..i] == items[..i];
      var item := items[i];
      if item.JObject? && "agent_id" in item.fields && "new_prompt" in item.fields && "reason" in item.fields {
        var fields := item.fields;
        if "confidence" !in fields {
          fields := fields["confidence" := JNumber(0.7)];
        }
        if !Sliceable(fields["reason"]) {
          assert !ReasonsSliceable(items) by {
            assert Complete(items[i]);
          }
          return [];
        }
        valid := valid + [fields];
      }
      assert items[..i + 1] == items[..i] + [item];
    }
    assert items[..|items|] == items;
  }

  const MoreDetail: string := "\n\nPlease provide more detailed and accurate analysis."

  function MockItem(agentId: string, prompt: string, score: real, host: Host): map<string, Json>
  {
    map["agent_id" := JString(agentId),
        "new_prompt" := JString(prompt + MoreDetail),
        "reason" := JString("Low evaluation score (" + host.fixed2(score) + ")"),
        "confidence" := JNumber(0.6)]
  }

  /** `_mock_llm_suggestions`: one suggestion per current prompt, in order, exactly when the score is below 0.5. */
  function MockLlmSuggestions(prompts: Prompts, score: real, host: Host): (r: seq<map<string, Json>>)
    ensures |r| == (if score < 0.5 then |prompts| else 0)
    ensures forall i :: 0 <= i < |r| ==>
      (SuggestionKeys(r[i]) && r[i]["agent_id"] == JString(prompts[i].0) && r[i]["confidence"] == JNumber(0.6) &&
       r[i]["new_prompt"].JString? && StartsWith(r[i]["new_prompt"].s, prompts[i].1))
  {
    if score < 0.5 then seq(|prompts|, i requires 0 <= i < |prompts| => MockItem(prompts[i].0, prompts[i].1, score, host))
    else []
  }

  method MockSuggestions(prompts: Prompts, score: real, host: Host) returns (suggestions: seq<map<string, Json>>)
    ensures suggestions == MockLlmSuggestions(prompts, score, host)
  {
    suggestions := [];
    if score < 0.5 {
      for i := 0 to |prompts|
        invariant suggestions == seq(i, k requires 0 <= k < i => MockItem(prompts[k].0, prompts[k].1, score, host))
      {
        var (agentId, prompt) := prompts[i];
        suggestions := suggestions + [MockItem(agentId, prompt, score, host)];
      }
    }
  }

  /** `_real_llm_suggestions`: the parsed reply, or the fallback when it is missing or yields nothing. */
  function RealLlmSuggestions(reply: Option<string>, prompts: Prompts, score: real, host: Host): (r: seq<map<string, Json>>)
    ensures forall i :: 0 <= i < |r| ==> SuggestionKeys(r[i])
    ensures score < 0.5 && prompts != [] ==> r != []
  {
    match reply
    case None => MockLlmSuggestions(prompts, score, host)
    case Some(text) =>
      var parsed := ParseLlmResponse(text, host);
      if parsed == [] then MockLlmSuggestions(prompts, score, host) else parsed
  }

  /** A confidence Python compares with a float: an int, a float, or a boolean, which compares as 0 or 1. */
  predicate IsNumber(v: Json)
  {
    v.JInt? || v.JNumber? || v.JBool?
  }

  /**
   * `suggestion_data.get('confidence', 0.7)` as a number. Python keeps the
   * raw value; one that is not a number is read as 0.7 here, and when
   * ranking raises on it is stated by `RankingRaises`.
   */
  function ConfidenceOf(v: Json): real
  {
    match v
    case JInt(i) => i as real
    case JNumber(n) => n
    case JBool(b) => if b then 1.0 else 0.0
    case _ => 0.7
  }

  function SuggestionOf(d: map<string, Json>, host: Host): PromptSuggestion
    requires SuggestionKeys(d)
  {
    PromptSuggestion(TextOf(d["agent_id"], host), TextOf(d["new_prompt"], host), TextOf(d["reason"], host), ConfidenceOf(d["confidence"]))
  }

  /** The suggestions built from the dictionaries, one each, in order. */
  function SuggestionsFrom(data: seq<map<string, Json>>, host: Host): (r: seq<PromptSuggestion>)
    requires forall i :: 0 <= i < |data| ==> SuggestionKeys(data[i])
    ensures |r| == |data| && forall i :: 0 <= i < |data| ==> r[i] == SuggestionOf(data[i], host)
  {
    seq(|data|, i requires 0 <= i < |data| => SuggestionOf(data[i], host))
  }

  /** `_generate_global_suggestions`: one suggestion per dictionary the model or the fallback produced. */
  function GlobalSuggestions(prompts: Prompts, evaluation: EvaluationResult, reply: Option<string>, host: Host): (r: seq<PromptSuggestion>)
    ensures reply.None? ==> forall i :: 0 <= i < |r| ==> HasPrompt(prompts, r[i].agentId) && r[i].confidence == 0.6
    ensures evaluation.score < 0.5 && prompts != [] ==> r != []
  {
    var data := RealLlmSuggestions(reply, prompts, evaluation.score, host);
    var r := SuggestionsFrom(data, host);
    assert reply.None? ==> forall i :: 0 <= i < |r| ==> r[i].agentId == prompts[i].0;
    r
  }

  /** A number's value, booleans counting as 0 and 1. */
  function NumberValue(v: Json): real
    requires IsNumber(v)
  {
    match v
    case JInt(i) => i as real
    case JNumber(n) => n
    case JBool(b) => if b then 1.0 else 0.0
  }

  /**
   * Python's `==` on JSON values, which never raises: numbers (booleans
   * included) by value, strings by content, lists item by item and
   * dictionaries key by key.
   */
  predicate PyEqual(a: Json, b: Json)
    decreases a
  {
    match a
    case JArray(xs) => b.JArray? && |xs| == |b.items| && forall i :: 0 <= i < |xs| ==> PyEqual(xs[i], b.items[i])
    case JObject(m) => b.JObject? && m.Keys == b.fields.Keys && forall k :: k in m ==> PyEqual(m[k], b.fields[k])
    case _ => if IsNumber(a) then IsNumber(b) && NumberValue(a) == NumberValue(b) else a == b
  }

  /**
   * Python's `a < b` (and `a > b`) does not raise: two numbers (booleans
   * included), two strings, or two lists whose first pair of unequal items
   * compares; lists equal up to the shorter one's length compare by length.
   * None and dictionaries compare with nothing.
   */
  predicate Comparable(a: Json, b: Json)
    decreases a, 1
  {
    || (IsNumber(a) && IsNumber(b))
    || (a.JString? && b.JString?)
    || (a.JArray? && b.JArray? && ItemsComparable(a, a.items, b.items))
  }

  /** The list comparison from the first items on: equal items are passed over, the first unequal pair decides. */
  predicate ItemsComparable(a: Json, xs: seq<Json>, ys: seq<Json>)
    requires forall i :: 0 <= i < |xs| ==> xs[i] < a
    decreases a, 0, |xs|
  {
    xs == [] || ys == [] ||
    if PyEqual(xs[0], ys[0]) then ItemsComparable(a, xs[1..], ys[1..]) else Comparable(xs[0], ys[0])
  }

  /** The confidence a dictionary carries: `get('confidence', 0.7)`. */
  function ConfidenceValue(d: map<string, Json>): Json
  {
    if "confidence" in d then d["confidence"] else JNumber(0.7)
  }

  /** The dictionary's confidence is a number. */
  predicate NumberConfidence(d: map<string, Json>)
  {
    IsNumber(ConfidenceValue(d))
  }

  /** The candidates' confidences: the model's suggestions in order, then the other candidates, which carry numbers. */
  function Confidences(data: seq<map<string, Json>>, others: seq<PromptSuggestion>): (r: seq<Json>)
    ensures |r| == |data| + |others|
    ensures forall i :: 0 <= i < |data| ==> r[i] == ConfidenceValue(data[i])
    ensures forall i :: |data| <= i < |r| ==> IsNumber(r[i])
  {
    seq(|data|, i requires 0 <= i < |data| => ConfidenceValue(data[i]))
    + seq(|others|, i requires 0 <= i < |others| => JNumber(others[i].confidence))
  }

  /**
   * `_deduplicate_and_rank_suggestions` raises `TypeError`: there are at
   * least two candidates and two of their confidences (or one of them
   * twice) cannot be compared. With two or more candidates every one takes
   * part in a comparison, and the comparisons connect them all:
   * de-duplication compares each suggestion with the one kept for its
   * agent, and a sort compares every two neighbours of its result. So a
   * None or a dictionary, or a number, a string and a list side by side,
   * is met by some comparison, while numbers alone or strings alone never
   * raise; with two candidates their one comparison is made.
   */
  predicate RankingRaises(data: seq<map<string, Json>>, others: seq<PromptSuggestion>)
  {
    var cs := Confidences(data, others);
    |cs| >= 2 && exists i, j :: 0 <= i < |cs| && 0 <= j < |cs| && !Comparable(cs[i], cs[j])
  }

  /** Confidences that are all numbers never make ranking raise. */
  lemma NumbersNeverRaise(data: seq<map<string, Json>>, others: seq<PromptSuggestion>)
    requires forall i :: 0 <= i < |data| ==> NumberConfidence(data[i])
    ensures !RankingRaises(data, others)
  {
    var cs := Confidences(data, others);
    assert forall i :: 0 <= i < |cs| ==> IsNumber(cs[i]);
  }

  /**
   * Beside another candidate, which carries a number, ranking raises
   * exactly when some confidence from the model's reply is not a number.
   */
  lemma {:induction false} RankingRaisesWithOthers(data: seq<map<string, Json>>, others: seq<PromptSuggestion>)
    requires others != []
    ensures RankingRaises(data, others) <==> exists i :: 0 <= i < |data| && !NumberConfidence(data[i])
  {
    var cs := Confidences(data, others);
    if exists i :: 0 <= i < |data| && !NumberConfidence(data[i]) {
      var i :| 0 <= i < |data| && !NumberConfidence(data[i]);
      assert !IsNumber(cs[i]) && IsNumber(cs[|data|]);
      assert !Comparable(cs[i], cs[|data|]);
    } else {
      NumbersNeverRaise(data, others);
    }
  }

  /** A None or dictionary confidence among two or more candidates makes ranking raise. */
  lemma UnorderedConfidenceRaises(data: seq<map<string, Json>>, others: seq<PromptSuggestion>, k: nat)
    requires k < |data| && |data| + |others| >= 2
    requires "confidence" in data[k] && (data[k]["confidence"].JNull? || data[k]["confidence"].JObject?)
    ensures RankingRaises(data, others)
  {
    var cs := Confidences(data, others);
    assert !Comparable(cs[k], cs[k]);
  }

  /** Two or more candidates whose confidences are all strings compare among themselves without raising. */
  lemma StringsNeverRaise(data: seq<map<string, Json>>)
    requires forall i :: 0 <= i < |data| ==> ConfidenceValue(data[i]).JString?
    ensures !RankingRaises(data, [])
  {
    var cs := Confidences(data, []);
    assert forall i :: 0 <= i < |cs| ==> cs[i].JString?;
  }

  /** A list of numbers, a list of strings, or a mix where items of the same place share a kind. */
  predicate SameKindItems(xs: seq<Json>, ys: seq<Json>)
  {
    forall i :: 0 <= i < |xs| && i < |ys| ==>
      (IsNumber(xs[i]) && IsNumber(ys[i])) || (xs[i].JString? && ys[i].JString?)
  }

  /** Lists whose items, place by place, are both numbers or both strings always compare. */
  lemma {:induction false} SameKindItemsCompare(a: Json, xs: seq<Json>, ys: seq<Json>)
    requires forall i :: 0 <= i < |xs| ==> xs[i] < a
    requires SameKindItems(xs, ys)
    ensures ItemsComparable(a, xs, ys)
    decreases |xs|
  {
    if xs != [] && ys != [] && PyEqual(xs[0], ys[0]) {
      assert SameKindItems(xs[1..], ys[1..]) by {
        forall i | 0 <= i < |xs[1..]| && i < |ys[1..]|
          ensures (IsNumber(xs[1..][i]) && IsNumber(ys[1..][i])) || (xs[1..][i].JString? && ys[1..][i].JString?)
        {
          assert xs[1..][i] == xs[i + 1] && ys[1..][i] == ys[i + 1];
        }
      }
      SameKindItemsCompare(a, xs[1..], ys[1..]);
    }
  }

  /** Candidates whose confidences are lists with, place by place, numbers or strings alike never make ranking raise. */
  lemma ListsOfOneKindNeverRaise(data: seq<map<string, Json>>)
    requires forall i :: 0 <= i < |data| ==> ConfidenceValue(data[i]).JArray?
    requires forall i, j :: 0 <= i < |data| && 0 <= j < |data| ==>
      SameKindItems(ConfidenceValue(data[i]).items, ConfidenceValue(data[j]).items)
    ensures !RankingRaises(data, [])
  {
    var cs := Confidences(data, []);
    forall i, j | 0 <= i < |cs| && 0 <= j < |cs| ensures Comparable(cs[i], cs[j]) {
      SameKindItemsCompare(cs[i], cs[i].items, cs[j].items);
    }
  }

  /**
   * Lists compare item by item: confidences `[1]` and `["a"]` meet 1 and
   * "a" at their first place, which Python cannot order, so ranking the
   * two raises, while `[1]` and `[1, "a"]` compare by length.
   */
  lemma UnorderableListsRaise(d1: map<string, Json>, d2: map<string, Json>)
    requires ConfidenceValue(d1) == JArray([JInt(1)]) && ConfidenceValue(d2) == JArray([JString("a")])
    ensures RankingRaises([d1, d2], [])
    ensures Comparable(JArray([JInt(1)]), JArray([JInt(1), JString("a")]))
  {
    var cs := Confidences([d1, d2], []);
    assert !PyEqual(JInt(1), JString("a")) && !Comparable(JInt(1), JString("a"));
    assert !ItemsComparable(cs[0], cs[0].items, cs[1].items);
    assert !Comparable(cs[0], cs[1]);
    var long := JArray([JInt(1), JString("a")]);
    assert PyEqual(JInt(1), JInt(1));
    assert ItemsComparable(JArray([JInt(1)]), [JInt(1)], long.items) by {
      assert [JInt(1)][1..] == [];
    }
  }

  /** The mock suggestions all carry the number 0.6. */
  lemma MockNeverRaises(prompts: Prompts, score: real, host: Host, others: seq<PromptSuggestion>)
    ensures !RankingRaises(MockLlmSuggestions(prompts, score, host), others)
  {
    var data := MockLlmSuggestions(prompts, score, host);
    forall i | 0 <= i < |data| ensures NumberConfidence(data[i]) {
      assert data[i]["confidence"] == JNumber(0.6);
    }
    NumbersNeverRaise(data, others);
  }

  /** The suggestions `generate_suggestions` collects: global, then agent-specific, then from the trace. */
  function Candidates(prompts: Prompts, evaluation: EvaluationResult, trace: Option<WorkflowTrace>,
                      reply: Option<string>, imp: Improvements, host: Host): seq<PromptSuggestion>
  {
    GlobalSuggestions(prompts, evaluation, reply, host) +
    AgentSpecificSuggestions(prompts, evaluation.agentFeedback, imp, host) +
    (if trace.Some? then TraceSuggestions(prompts, trace.value.agentTraces, imp) else [])
  }

  /** The candidates that do not come from the model's reply: agent-specific, then from the trace. */
  function Others(prompts: Prompts, evaluation: EvaluationResult, trace: Option<WorkflowTrace>, imp: Improvements, host: Host)
    : seq<PromptSuggestion>
  {
    AgentSpecificSuggestions(prompts, evaluation.agentFeedback, imp, host) +
    (if trace.Some? then TraceSuggestions(prompts, trace.value.agentTraces, imp) else [])
  }

  /**
   * A step `generate_suggestions` takes outside any inner try raises: the
   * global step adds a string to a `global_feedback` that is not one, the
   * agent-specific loop hashes a list or dictionary agent id, or the
   * ranking compares confidences Python cannot order.
   */
  predicate GenerationRaises(prompts: Prompts, evaluation: EvaluationResult, trace: Option<WorkflowTrace>,
                             reply: Option<string>, imp: Improvements, host: Host)
  {
    || !evaluation.globalFeedback.JString?
    || UnhashableAgent(evaluation.agentFeedback)
    || RankingRaises(RealLlmSuggestions(reply, prompts, evaluation.score, host), Others(prompts, evaluation, trace, imp, host))
  }

  /**
   * `generate_suggestions`: the candidates, de-duplicated and ranked; empty
   * when a step raises and the handler returns an empty list.
   */
  function GenerateSuggestions(prompts: Prompts, evaluation: EvaluationResult, trace: Option<WorkflowTrace>,
                               reply: Option<string>, imp: Improvements, host: Host): seq<PromptSuggestion>
  {
    if GenerationRaises(prompts, evaluation, trace, reply, imp, host) then []
    else DeduplicateAndRank(Candidates(prompts, evaluation, trace, reply, imp, host))
  }

  lemma AllHavePromptsAppend(prompts: Prompts, a: seq<PromptSuggestion>, b: seq<PromptSuggestion>)
    requires AllHavePrompts(prompts, a) && AllHavePrompts(prompts, b)
    ensures AllHavePrompts(prompts, a + b)
  {
    forall i | 0 <= i < |a + b| ensures HasPrompt(prompts, (a + b)[i].agentId) {
      if i >= |a| {
        assert (a + b)[i] == b[i - |a|];
      }
    }
  }

  /** Without a reply from the model, every candidate is for an agent that has a prompt. */
  lemma CandidatesHavePrompts(prompts: Prompts, evaluation: EvaluationResult, trace: Option<WorkflowTrace>,
                              imp: Improvements, host: Host)
    ensures AllHavePrompts(prompts, Candidates(prompts, evaluation, trace, None, imp, host))
  {
    var g := GlobalSuggestions(prompts, evaluation, None, host);
    var a := AgentSpecificSuggestions(prompts, evaluation.agentFeedback, imp, host);
    var t := if trace.Some? then TraceSuggestions(prompts, trace.value.agentTraces, imp) else [];
    AgentSpecificSpec(prompts, evaluation.agentFeedback, imp, host);
    if trace.Some? {
      TraceSuggestionsSpec(prompts, trace.value.agentTraces, imp);
      FromTracesHavePrompts(prompts, trace.value.agentTraces, t);
    }
    AllHavePromptsAppend(prompts, g, a);
    AllHavePromptsAppend(prompts, g + a, t);
  }

  /**
   * The final list names each agent once, in non-increasing confidence; a
   * raising step leaves it empty; without a reply from the model only a
   * non-string `global_feedback` or an unhashable agent id raises;
   * otherwise a low score over some prompts always yields a suggestion;
   * and without a reply every suggestion is for an agent that has a
   * prompt.
   */
  lemma GenerateSuggestionsSpec(prompts: Prompts, evaluation: EvaluationResult, trace: Option<WorkflowTrace>,
                                reply: Option<string>, imp: Improvements, host: Host)
    ensures var r := GenerateSuggestions(prompts, evaluation, trace, reply, imp, host);
      var raises := GenerationRaises(prompts, evaluation, trace, reply, imp, host);
      DistinctAgents(r) && SortedByConfidence(r) &&
      (raises ==> r == []) &&
      (reply.None? ==> (raises <==> !evaluation.globalFeedback.JString? || UnhashableAgent(evaluation.agentFeedback))) &&
      (evaluation.score < 0.5 && prompts != [] && !raises ==> r != []) &&
      (reply.None? ==> AllHavePrompts(prompts, r))
  {
    if reply.None? {
      MockNeverRaises(prompts, evaluation.score, host, Others(prompts, evaluation, trace, imp, host));
    }
    RankedCandidatesSpec(prompts, evaluation, trace, reply, imp, host);
  }

  /** The ranked candidates, when ranking does not raise. */
  lemma RankedCandidatesSpec(prompts: Prompts, evaluation: EvaluationResult, trace: Option<WorkflowTrace>,
                             reply: Option<string>, imp: Improvements, host: Host)
    ensures var r := DeduplicateAndRank(Candidates(prompts, evaluation, trace, reply, imp, host));
      DistinctAgents(r) && SortedByConfidence(r) &&
      (evaluation.score < 0.5 && prompts != [] ==> r != []) &&
      (reply.None? ==> AllHavePrompts(prompts, r))
  {
    var all := Candidates(prompts, evaluation, trace, reply, imp, host);
    var r := DeduplicateAndRank(all);
    DeduplicateAndRankShape(all);
    if evaluation.score < 0.5 && prompts != [] {
      assert all[0].agentId in AgentIds(all);
    }
    if reply.None? {
      CandidatesHavePrompts(prompts, evaluation, trace, imp, host);
      AllHavePromptsIds(prompts, all);
      assert forall i :: 0 <= i < |r| ==> r[i].agentId in AgentIds(r);
    }
  }

  // ---------------------------------------------------------------------
  // Several input/output pairs
  // ---------------------------------------------------------------------

  /** The fallback summary when the aggregation call fails: a heading, then one line per pair. */
  function CombinedFeedbackText(evaluations: seq<EvaluationResult>, total: nat, host: Host): string
  {
    if evaluations == [] then "Combined feedback from " + NatToString(total) + " pairs:\n"
    else
      var n := |evaluations|;
      CombinedFeedbackText(evaluations[..n - 1], total, host) +
      "\nPair " + NatToString(n) + ": " + TextOf(evaluations[n - 1].globalFeedback, host) + "\n"
  }

  function AllFeedback(evaluations: seq<EvaluationResult>): (r: seq<AgentFeedback>)
    ensures forall f :: f in r <==> exists i :: 0 <= i < |evaluations| && f in evaluations[i].agentFeedback
  {
    if evaluations == [] then []
    else
      var n := |evaluations|;
      var init := AllFeedback(evaluations[..n - 1]);
      assert forall i :: 0 <= i < n - 1 ==> evaluations[..n - 1][i] == evaluations[i];
      init + evaluations[n - 1].agentFeedback
  }

  function Scores(evaluations: seq<EvaluationResult>): (r: seq<real>)
    ensures |r| == |evaluations| && forall i :: 0 <= i < |r| ==> r[i] == evaluations[i].score
  {
    seq(|evaluations|, i requires 0 <= i < |evaluations| => evaluations[i].score)
  }

  /**
   * `_parse_aggregated_feedback`: the dictionary between the first `{` and
   * the last `}`, or the plain-text fallback when there is none or it does
   * not parse. `None` when it parses to something else, on which `.get`
   * then raises.
   */
  function AggregatedFields(text: string, host: Host): (r: Option<map<string, Json>>)
    ensures !HasSpan(text, '{', '}') ==>
      r == Some(map["global_feedback" := JString(text), "agent_feedback" := JArray([])])
  {
    var fallback := map["global_feedback" := JString(text), "agent_feedback" := JArray([])];
    match BracketSpan(text, '{', '}')
    case None => Some(fallback)
    case Some(span) =>
      match host.parse(span)
      case None => Some(fallback)
      case Some(JObject(fields)) => Some(fields)
      case Some(_) => None
  }

  /** The combined evaluation: typed, from the fallback, or with the raw values the aggregation reply held. */
  datatype Combined =
    | Typed(evaluation: EvaluationResult)
    | Raw(score: real, globalFeedback: Json, agentFeedback: Json)

  function CombinedScore(c: Combined): real
  {
    match c
    case Typed(e) => e.score
    case Raw(score, _, _) => score
  }

  /**
   * `_aggregate_feedback_across_pairs`: the mean score with the values of
   * the aggregation reply's dictionary (`reply` is `None` when the call
   * raises), or, when the call or the reading of its reply raises, every
   * pair's feedback in order. `None` for no evaluations, where the mean
   * divides by zero.
   */
  function AggregateAcrossPairs(evaluations: seq<EvaluationResult>, reply: Option<string>, host: Host): (r: Option<Combined>)
    ensures r.Some? <==> evaluations != []
    ensures r.Some? ==> CombinedScore(r.value) == Mean(Scores(evaluations))
    ensures r.Some? && (reply.None? || AggregatedFields(reply.value, host).None?) ==>
      r.value == Typed(EvaluationResult(Mean(Scores(evaluations)), JString(CombinedFeedbackText(evaluations, |evaluations|, host)),
                                        AllFeedback(evaluations), map[]))
  {
    if evaluations == [] then None
    else
      var mean := Sum(Scores(evaluations)) / |evaluations| as real;
      var fields := if reply.Some? then AggregatedFields(reply.value, host) else None;
      match fields
      case Some(f) =>
        var global := if "global_feedback" in f then f["global_feedback"]
                      else JString("Aggregated feedback from multiple pairs");
        var feedback := if "agent_feedback" in f then f["agent_feedback"] else JArray([]);
        Some(Raw(mean, global, feedback))
      case None =>
        Some(Typed(EvaluationResult(mean, JString(CombinedFeedbackText(evaluations, |evaluations|, host)), AllFeedback(evaluations), map[])))
  }

  /**
   * A raw `agent_feedback` value both loops over it get through: falsy, so
   * the global step skips it, and iterable, so the agent-specific loop
   * finds nothing in it. Any other value raises in one of the two loops: a
   * truthy one yields an item without `agent_id` or is not iterable, a
   * falsy number, boolean or `null` is not iterable.
   */
  predicate EmptyIterable(v: Json)
  {
    v == JString([]) || v == JArray([]) || v == JObject(map[])
  }

  /** The suggestions from the combined evaluation, or empty where building them raises. */
  function CombinedSuggestions(prompts: Prompts, combined: Combined, reply: Option<string>,
                               imp: Improvements, host: Host): seq<PromptSuggestion>
  {
    match combined
    case Typed(e) =>
      var others := AgentSpecificSuggestions(prompts, e.agentFeedback, imp, host);
      if !e.globalFeedback.JString? || UnhashableAgent(e.agentFeedback) then []
      else if RankingRaises(RealLlmSuggestions(reply, prompts, e.score, host), others) then []
      else DeduplicateAndRank(GlobalSuggestions(prompts, e, reply, host) + others)
    case Raw(score, global, feedback) =>
      if !EmptyIterable(feedback) || !global.JString? then []
      else if RankingRaises(RealLlmSuggestions(reply, prompts, score, host), []) then []
      else DeduplicateAndRank(GlobalSuggestions(prompts, EvaluationResult(score, global, [], map[]), reply, host))
  }

  /**
   * `generate_suggestions_for_multiple_pairs`: a single pair is handled as
   * one evaluation with its trace; several are handled from the combined
   * feedback with no trace; none yields an empty list.
   */
  function SuggestionsForPairs(prompts: Prompts, evaluations: seq<EvaluationResult>, traces: seq<WorkflowTrace>,
                               aggregationReply: Option<string>, reply: Option<string>,
                               imp: Improvements, host: Host): (r: seq<PromptSuggestion>)
    ensures evaluations == [] ==> r == []
    ensures |evaluations| == 1 ==>
      r == GenerateSuggestions(prompts, evaluations[0], if traces == [] then None else Some(traces[0]), reply, imp, host)
  {
    if |evaluations| == 1 then
      GenerateSuggestions(prompts, evaluations[0], if traces == [] then None else Some(traces[0]), reply, imp, host)
    else
      match AggregateAcrossPairs(evaluations, aggregationReply, host)
      case None => []
      case Some(combined) => CombinedSuggestions(prompts, combined, reply, imp, host)
  }

  /** The suggestions from a combined evaluation name each agent once, in non-increasing confidence. */
  lemma CombinedRanked(prompts: Prompts, combined: Combined, reply: Option<string>, imp: Improvements, host: Host)
    ensures var r := CombinedSuggestions(prompts, combined, reply, imp, host);
      DistinctAgents(r) && SortedByConfidence(r)
  {
    match combined
    case Typed(e) =>
      DeduplicateAndRankShape(GlobalSuggestions(prompts, e, reply, host) +
        AgentSpecificSuggestions(prompts, e.agentFeedback, imp, host));
    case Raw(score, global, feedback) =>
      if global.JString? {
        DeduplicateAndRankShape(GlobalSuggestions(prompts, EvaluationResult(score, global, [], map[]), reply, host));
      }
  }

  /** With several pairs the result still names each agent once, in non-increasing confidence. */
  lemma SuggestionsForPairsRanked(prompts: Prompts, evaluations: seq<EvaluationResult>, traces: seq<WorkflowTrace>,
                                  aggregationReply: Option<string>, reply: Option<string>,
                                  imp: Improvements, host: Host)
    ensures var r := SuggestionsForPairs(prompts, evaluations, traces, aggregationReply, reply, imp, host);
      DistinctAgents(r) && SortedByConfidence(r)
  {
    if |evaluations| == 1 {
      GenerateSuggestionsSpec(prompts, evaluations[0], if traces == [] then None else Some(traces[0]), reply, imp, host);
    } else {
      var combined := AggregateAcrossPairs(evaluations, aggregationReply, host);
      if combined.Some? {
        CombinedRanked(prompts, combined.value, reply, imp, host);
      }
    }
  }

  /**
   * With several pairs and an aggregation reply holding a dictionary, the
   * raw `agent_feedback` items are never read as feedback: the result is
   * empty unless `agent_feedback` is an empty string, list or dictionary and
   * `global_feedback` a string, and then every suggestion comes from the
   * suggestion reply alone.
   */
  lemma RawFeedbackNeverRead(prompts: Prompts, evaluations: seq<EvaluationResult>, traces: seq<WorkflowTrace>,
                             aggregationReply: Option<string>, reply: Option<string>, imp: Improvements, host: Host)
    requires |evaluations| >= 2 && aggregationReply.Some?
    requires AggregatedFields(aggregationReply.value, host).Some?
    ensures var f := AggregatedFields(aggregationReply.value, host).value;
      var r := SuggestionsForPairs(prompts, evaluations, traces, aggregationReply, reply, imp, host);
      && ("agent_feedback" in f && !EmptyIterable(f["agent_feedback"]) ==> r == [])
      && ("global_feedback" in f && !f["global_feedback"].JString? ==> r == [])
      && (forall i :: 0 <= i < |r| ==>
            r[i] in SuggestionsFrom(RealLlmSuggestions(reply, prompts, Mean(Scores(evaluations)), host), host))
  {
    var f := AggregatedFields(aggregationReply.value, host).value;
    var mean := Mean(Scores(evaluations));
    var global := if "global_feedback" in f then f["global_feedback"] else JString("Aggregated feedback from multiple pairs");
    var feedback := if "agent_feedback" in f then f["agent_feedback"] else JArray([]);
    assert AggregateAcrossPairs(evaluations, aggregationReply, host) == Some(Raw(mean, global, feedback));
    RawCombinedSpec(prompts, mean, global, feedback, reply, imp, host);
  }

  /** The suggestions from a raw aggregated dictionary all come from the suggestion reply, and there are none unless its fields are as Python needs. */
  lemma RawCombinedSpec(prompts: Prompts, score: real, global: Json, feedback: Json, reply: Option<string>, imp: Improvements, host: Host)
    ensures var r := CombinedSuggestions(prompts, Raw(score, global, feedback), reply, imp, host);
      && (!EmptyIterable(feedback) ==> r == [])
      && (!global.JString? ==> r == [])
      && (forall i :: 0 <= i < |r| ==> r[i] in SuggestionsFrom(RealLlmSuggestions(reply, prompts, score, host), host))
  {
    var r := CombinedSuggestions(prompts, Raw(score, global, feedback), reply, imp, host);
    if r != [] {
      var g := GlobalSuggestions(prompts, EvaluationResult(score, global, [], map[]), reply, host);
      assert r == DeduplicateAndRank(g);
      RankedDrawnFrom(g);
    }
  }

  /** Every suggestion of the ranked list is one of the input's. */
  lemma RankedDrawnFrom(ss: seq<PromptSuggestion>)
    ensures forall i :: 0 <= i < |DeduplicateAndRank(ss)| ==> DeduplicateAndRank(ss)[i] in ss
  {
    DeduplicateAndRankChoice(ss);
  }
}
