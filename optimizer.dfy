/**
 * The optimization loop controller (agent_optimizer/optimizer.py): the
 * iteration state machine of `optimize_workflow` and the report helpers.
 *
 * The workflow runs, the critic LLM and the suggester LLM are an oracle: for
 * the configuration being evaluated, the iteration number and the retry
 * number it gives the evaluation with the suggestions, an `LLMServiceError`,
 * or any other exception.
 */
module Optimizer {
  import opened Wrappers
  import opened AgentConfig
  import opened OptimizerTypes
  import Updater
  import opened Stats

  /** The error the LLM helpers raise; `errorType` selects the counter it increments. */
  datatype LlmServiceError = LlmServiceError(errorType: string, message: string, originalResponse: Option<string>)

  /** What one attempt at the LLM-dependent part of an iteration produces. */
  datatype Attempt =
    | Answered(evaluation: EvaluationResult, suggestions: seq<PromptSuggestion>)
    | ServiceFailure(error: LlmServiceError)
    | Raised(message: string)

  /** The oracle: the attempt's outcome for the current configuration, iteration and retry number. */
  type Oracle = (Config, nat, nat) -> Attempt

  /** The LLM failure counters of a result. */
  datatype Counters = Counters(failures: nat, serviceErrors: nat, formatErrors: nat)

  function CountFailure(k: Counters, errorType: string): (r: Counters)
    ensures r.failures == k.failures + 1
    ensures r.serviceErrors + r.formatErrors <= k.serviceErrors + k.formatErrors + 1
  {
    Counters(
      k.failures + 1,
      if errorType == "service_error" then k.serviceErrors + 1 else k.serviceErrors,
      if errorType != "service_error" && (errorType == "format_error" || errorType == "parsing_error")
      then k.formatErrors + 1 else k.formatErrors)
  }

  /** How the retry loop of one iteration ends. */
  datatype RetryOutcome =
    | Evaluated(evaluation: EvaluationResult, suggestions: seq<PromptSuggestion>)
    | RetriesExhausted
    | Aborted(message: string)

  /** The retry loop from retry number `attempt` on: its outcome, the counters and the termination reason. */
  function Retry(oracle: Oracle, maxRetries: int, current: Config, iteration: nat, attempt: nat,
                 counters: Counters, reason: string): (RetryOutcome, Counters, string)
    decreases if attempt < maxRetries then maxRetries - attempt else 0
  {
    if attempt >= maxRetries then (RetriesExhausted, counters, reason)
    else
      match oracle(current, iteration, attempt)
      case Answered(e, s) => (Evaluated(e, s), counters, reason)
      case Raised(m) => (Aborted(m), counters, reason)
      case ServiceFailure(err) =>
        var k := CountFailure(counters, err.errorType);
        if attempt + 1 >= maxRetries then
          (RetriesExhausted, k, "LLM failures exceeded max retries (" + err.errorType + ")")
        else Retry(oracle, maxRetries, current, iteration, attempt + 1, k, reason)
  }

  /** Whether the loop goes on, stopped with a `break`, or left through the exception handler. */
  datatype Status = Running | Stopped | Failed(message: string)

  /**
   * The loop's variables. `result.finalAgentConfig` is the configuration in
   * use; `scores` and `configs` record every evaluated score with the
   * configuration it was obtained for, and `updates` the entries the prompt
   * updater has added to its history during the run.
   */
  datatype LoopState = LoopState(
    result: OptimizationResult,
    best: Config,
    bestScore: real,
    plateau: nat,
    iteration: nat,
    status: Status,
    scores: seq<real>,
    configs: seq<Config>,
    updates: seq<Updater.UpdateRecord>)

  function Initial(c: Config): LoopState
  {
    LoopState(OptimizationResult(0.0, 0, c, [], false, "", None, None, 0, 0, 0), c, 0.0, 0, 0, Running, [], [], [])
  }

  function CountersOf(r: OptimizationResult): Counters
  {
    Counters(r.llmFailureCount, r.llmServiceErrors, r.llmFormatErrors)
  }

  function WithCounters(r: OptimizationResult, k: Counters): OptimizationResult
  {
    r.(llmFailureCount := k.failures, llmServiceErrors := k.serviceErrors, llmFormatErrors := k.formatErrors)
  }

  /** Applying at most three suggestions and keeping the result only when it validates. */
  function SuggestionStep(record: OptimizationIteration, current: Config, suggestions: seq<PromptSuggestion>)
    : (OptimizationIteration, Config)
  {
    var record' := record.(generatedSuggestions := suggestions);
    if suggestions == [] then (record', current)
    else
      var out := Updater.ApplyAll(current, Updater.Considered(suggestions, Some(3)));
      if Updater.ValidateConfiguration(Updater.DictValue(out.config)).0 then
        (record'.(changedPrompts := out.applied), out.config)
      else (record', current)
  }

  /** The entry `apply_suggestions` adds to the updater's history for at most three suggestions. */
  function UpdateRecordOf(current: Config, suggestions: seq<PromptSuggestion>): Updater.UpdateRecord
  {
    var considered := Updater.Considered(suggestions, Some(3));
    var out := Updater.ApplyAll(current, considered);
    Updater.UpdateRecord(out.changes, |considered|, |out.applied|)
  }

  /** The updater history entries the suggestion step of an iteration adds: one when it applies suggestions. */
  function ProceedUpdates(inp: OptimizationInput, iteration: nat, current: Config, generated: seq<PromptSuggestion>)
    : seq<Updater.UpdateRecord>
  {
    if iteration < inp.config.maxIterations - 1 && generated != [] then [UpdateRecordOf(current, generated)] else []
  }

  /** The updater history entries an evaluated iteration adds: none when it stops on convergence or plateau. */
  function EvaluationUpdates(inp: OptimizationInput, s: LoopState, e: EvaluationResult, current: Config,
                             generated: seq<PromptSuggestion>): seq<Updater.UpdateRecord>
  {
    var plateau := if e.score > s.bestScore then 0 else s.plateau + 1;
    if e.score >= inp.config.convergenceThreshold || plateau >= inp.config.plateauPatience then []
    else ProceedUpdates(inp, s.iteration, current, generated)
  }

  /** The history row of an iteration before any suggestion is applied. */
  function BaseRow(iteration: nat, e: EvaluationResult, current: Config): OptimizationIteration
  {
    OptimizationIteration(iteration + 1, e.score, [], Some(e), None, None, None, [], ExtractAgentPrompts(current))
  }

  /** The row and the configuration after the suggestion step, which only iterations before the last take. */
  function Proceed(inp: OptimizationInput, iteration: nat, e: EvaluationResult, current: Config,
                   generated: seq<PromptSuggestion>): (OptimizationIteration, Config)
  {
    if iteration < inp.config.maxIterations - 1 then SuggestionStep(BaseRow(iteration, e, current), current, generated)
    else (BaseRow(iteration, e, current), current)
  }

  /** The loop's variables once an evaluation is recorded, before the stopping checks. */
  function Recorded(inp: OptimizationInput, s: LoopState, r: OptimizationResult,
                    e: EvaluationResult, generated: seq<PromptSuggestion>): LoopState
  {
    var current := r.finalAgentConfig;
    var r2 := if s.iteration == 0 then r.(baselineScore := Some(e.score), baselineEvaluation := Some(e)) else r;
    var improved := e.score > s.bestScore;
    s.(
      result := r2,
      best := if improved then current else s.best,
      bestScore := if improved then e.score else s.bestScore,
      plateau := if improved then 0 else s.plateau + 1,
      iteration := s.iteration + 1,
      scores := s.scores + [e.score],
      configs := s.configs + [current],
      updates := s.updates + EvaluationUpdates(inp, s, e, current, generated))
  }

  /** The part of an iteration after a successful evaluation. */
  function AfterEvaluation(inp: OptimizationInput, s: LoopState, r: OptimizationResult,
                           e: EvaluationResult, generated: seq<PromptSuggestion>): LoopState
  {
    var cfg := inp.config;
    var current := r.finalAgentConfig;
    var s2 := Recorded(inp, s, r, e, generated);
    var r2 := s2.result;
    if e.score >= cfg.convergenceThreshold then
      s2.(result := r2.(convergenceAchieved := true, terminationReason := "Convergence threshold reached"),
          status := Stopped)
    else if s2.plateau >= cfg.plateauPatience then
      s2.(result := r2.(terminationReason := "Plateau detected - no improvement"), status := Stopped)
    else
      var (row, next) := Proceed(inp, s.iteration, e, current, generated);
      s2.(result := r2.(history := r2.history + [row], iterationsRun := r2.iterationsRun + 1,
                         finalAgentConfig := next))
  }

  /** One iteration of the loop. */
  function Iterate(inp: OptimizationInput, oracle: Oracle, s: LoopState): LoopState
  {
    var r := s.result;
    var (outcome, k, reason) :=
      Retry(oracle, inp.config.maxLlmRetriesPerIteration, r.finalAgentConfig, s.iteration, 0,
            CountersOf(r), r.terminationReason);
    var r1 := WithCounters(r, k).(terminationReason := reason);
    match outcome
    case RetriesExhausted => s.(result := r1, iteration := s.iteration + 1, status := Stopped)
    case Aborted(m) => s.(result := r1, iteration := s.iteration + 1, status := Failed(m))
    case Evaluated(e, generated) => AfterEvaluation(inp, s, r1, e, generated)
  }

  /** The loop from the state's iteration to its end. */
  function RunFrom(inp: OptimizationInput, oracle: Oracle, s: LoopState): LoopState
    decreases if s.iteration < inp.config.maxIterations then inp.config.maxIterations - s.iteration else 0
  {
    if s.iteration >= inp.config.maxIterations || !s.status.Running? then s
    else RunFrom(inp, oracle, Iterate(inp, oracle, s))
  }

  lemma RunFromStep(inp: OptimizationInput, oracle: Oracle, s: LoopState)
    requires s.iteration < inp.config.maxIterations && s.status.Running?
    ensures RunFrom(inp, oracle, s) == RunFrom(inp, oracle, Iterate(inp, oracle, s))
  {
  }

  /** The statements after the loop, or the exception handler. */
  function Finish(s: LoopState): OptimizationResult
  {
    match s.status
    case Failed(m) => s.result.(terminationReason := "Error: " + m)
    case _ =>
      var r := s.result.(finalScore := s.bestScore, finalAgentConfig := s.best);
      if r.terminationReason == "" then r.(terminationReason := "Maximum iterations reached") else r
  }

  /** The final loop state of `optimize_workflow`. */
  function FinalState(inp: OptimizationInput, oracle: Oracle): LoopState
  {
    RunFrom(inp, oracle, Initial(inp.agentConfig))
  }

  /** `AgentOptimizer.optimize_workflow`. */
  function Optimize(inp: OptimizationInput, oracle: Oracle): OptimizationResult
  {
    Finish(FinalState(inp, oracle))
  }

  // ---------------------------------------------------------------------
  // Reference definitions for the loop's promises
  // ---------------------------------------------------------------------

  /** The largest of 0.0 and the scores. */
  function Max0(xs: seq<real>): real
  {
    if xs == [] then 0.0
    else
      var m := Max0(xs[..|xs| - 1]);
      if xs[|xs| - 1] > m then xs[|xs| - 1] else m
  }

  lemma {:induction false} Max0Bounds(xs: seq<real>)
    ensures Max0(xs) >= 0.0
    ensures forall i :: 0 <= i < |xs| ==> xs[i] <= Max0(xs)
    ensures Max0(xs) > 0.0 ==> exists i :: 0 <= i < |xs| && xs[i] == Max0(xs)
  {
    if xs != [] {
      var init := xs[..|xs| - 1];
      Max0Bounds(init);
      assert forall i :: 0 <= i < |init| ==> xs[i] == init[i];
      if Max0(xs) > 0.0 && xs[|xs| - 1] <= Max0(init) {
        var i :| 0 <= i < |init| && init[i] == Max0(init);
        assert xs[i] == Max0(xs);
      }
    }
  }

  /** The first index holding `v`, or the length when there is none. */
  function FirstIndexOf(xs: seq<real>, v: real): (k: nat)
    ensures k <= |xs|
    ensures k < |xs| ==> xs[k] == v
    ensures forall j :: 0 <= j < k ==> xs[j] != v
  {
    if xs == [] then 0 else if xs[0] == v then 0 else 1 + FirstIndexOf(xs[1..], v)
  }

  lemma FirstIndexOfAppend(xs: seq<real>, x: real, v: real)
    requires exists i :: 0 <= i < |xs| && xs[i] == v
    ensures FirstIndexOf(xs + [x], v) == FirstIndexOf(xs, v)
  {
    var k := FirstIndexOf(xs + [x], v);
    var k' := FirstIndexOf(xs, v);
    assert (xs + [x])[k'] == v;
  }

  /** The configuration that first reached the best score, or the original one when no score exceeds 0. */
  function BestConfig(original: Config, scores: seq<real>, configs: seq<Config>): Config
    requires |scores| == |configs|
  {
    var m := Max0(scores);
    var k := FirstIndexOf(scores, m);
    if m > 0.0 && k < |configs| then configs[k] else original
  }

  /** Whether the score at `i` strictly exceeds every earlier score and 0.0. */
  predicate Improves(xs: seq<real>, i: nat)
    requires i < |xs|
  {
    xs[i] > Max0(xs[..i])
  }

  /** The number of scores since the last strict improvement. */
  function SinceImprovement(xs: seq<real>): nat
  {
    if xs == [] then 0
    else if Improves(xs, |xs| - 1) then 0
    else 1 + SinceImprovement(xs[..|xs| - 1])
  }

  /** The termination reason a retry loop sets when it gives up. */
  ghost predicate RetryReason(reason: string)
  {
    exists t: string :: reason == "LLM failures exceeded max retries (" + t + ")"
  }

  /** A history row keeps the suggestion bound and the last-iteration rule. */
  predicate RowSound(inp: OptimizationInput, row: OptimizationIteration)
  {
    && |row.changedPrompts| <= 3
    && Updater.Subsequence(row.changedPrompts, row.generatedSuggestions)
    && (row.iteration >= inp.config.maxIterations ==> row.generatedSuggestions == [] && row.changedPrompts == [])
  }

  /** The retry bound as a count. */
  function RetryBound(inp: OptimizationInput): nat
  {
    if inp.config.maxLlmRetriesPerIteration > 0 then inp.config.maxLlmRetriesPerIteration else 0
  }

  /** History length, iteration number and the evaluated scores move together. */
  predicate InvCount(inp: OptimizationInput, s: LoopState)
  {
    var r := s.result;
    && |r.history| == r.iterationsRun
    && |s.scores| == |s.configs|
    && (s.status.Running? ==> r.iterationsRun == s.iteration && |s.scores| == s.iteration)
    && r.iterationsRun <= |s.scores| <= r.iterationsRun + 1
    && (!s.status.Running? ==> r.iterationsRun + 1 == s.iteration)
    && (s.iteration > 0 ==> s.iteration <= inp.config.maxIterations)
  }

  /** Each history row records its iteration number, score and prompts, and keeps the suggestion rules. */
  predicate InvRows(inp: OptimizationInput, s: LoopState)
    requires InvCount(inp, s)
  {
    forall j :: 0 <= j < |s.result.history| ==>
      && s.result.history[j].iteration == j + 1
      && s.result.history[j].score == s.scores[j]
      && s.result.history[j].currentPrompts == ExtractAgentPrompts(s.configs[j])
      && RowSound(inp, s.result.history[j])
  }

  /** The best score, best configuration and plateau counter follow the evaluated scores. */
  predicate InvBest(inp: OptimizationInput, s: LoopState)
  {
    && |s.scores| == |s.configs|
    && s.bestScore == Max0(s.scores)
    && s.best == BestConfig(inp.agentConfig, s.scores, s.configs)
    && s.plateau == SinceImprovement(s.scores)
  }

  /** The LLM counters stay within the retry bound. */
  predicate InvLlm(inp: OptimizationInput, s: LoopState)
  {
    && s.result.llmFailureCount <= s.iteration * RetryBound(inp)
    && s.result.llmServiceErrors + s.result.llmFormatErrors <= s.result.llmFailureCount
  }

  /** The termination reason set so far, and what each one implies. */
  ghost predicate InvReason(inp: OptimizationInput, s: LoopState)
  {
    var r := s.result;
    && r.finalScore == 0.0
    && (r.convergenceAchieved <==> r.terminationReason == "Convergence threshold reached")
    && (s.status.Running? ==> r.terminationReason == "")
    && (r.terminationReason == "Convergence threshold reached" ==>
          |s.scores| > 0 && s.scores[|s.scores| - 1] >= inp.config.convergenceThreshold)
    && (r.terminationReason == "Plateau detected - no improvement" ==>
          |s.scores| > 0 && s.scores[|s.scores| - 1] < inp.config.convergenceThreshold &&
          s.plateau >= inp.config.plateauPatience)
    && (r.terminationReason == "" || r.terminationReason == "Convergence threshold reached" ||
        r.terminationReason == "Plateau detected - no improvement" || RetryReason(r.terminationReason))
  }

  /** An updater history entry: between one and three suggestions considered, one change per applied one. */
  predicate RecordSound(u: Updater.UpdateRecord)
  {
    1 <= u.totalSuggestions <= 3 && u.appliedSuggestions <= u.totalSuggestions && |u.changes| == u.appliedSuggestions
  }

  /** At most one updater history entry per completed iteration, each of them sound. */
  predicate InvUpdates(s: LoopState)
  {
    |s.updates| <= s.result.iterationsRun && forall i :: 0 <= i < |s.updates| ==> RecordSound(s.updates[i])
  }

  /** A configuration the run may evaluate or return: the input one, or one `validate_configuration` accepts. */
  predicate Admitted(inp: OptimizationInput, c: Config)
  {
    c == inp.agentConfig || Updater.ValidateConfiguration(Updater.DictValue(c)).0
  }

  /** The configuration in use, the best one and every evaluated one are admitted. */
  predicate InvAdmitted(inp: OptimizationInput, s: LoopState)
  {
    && Admitted(inp, s.result.finalAgentConfig)
    && Admitted(inp, s.best)
    && forall j :: 0 <= j < |s.configs| ==> Admitted(inp, s.configs[j])
  }

  /** What holds of the loop's variables before and after every iteration. */
  ghost predicate Inv(inp: OptimizationInput, s: LoopState)
  {
    InvCount(inp, s) && InvRows(inp, s) && InvBest(inp, s) && InvLlm(inp, s) && InvReason(inp, s) && InvUpdates(s)
  }

  /** Applying a non-empty list of suggestions records a sound history entry. */
  lemma UpdateRecordSound(current: Config, suggestions: seq<PromptSuggestion>)
    requires suggestions != []
    ensures RecordSound(UpdateRecordOf(current, suggestions))
  {
    Updater.ApplyAllSpec(current, Updater.Considered(suggestions, Some(3)));
  }

  /** An iteration adds an updater history entry only when it also adds a history row. */
  lemma IterateUpdates(inp: OptimizationInput, oracle: Oracle, s: LoopState)
    requires InvUpdates(s)
    ensures InvUpdates(Iterate(inp, oracle, s))
  {
    var r := s.result;
    var (outcome, k, reason) :=
      Retry(oracle, inp.config.maxLlmRetriesPerIteration, r.finalAgentConfig, s.iteration, 0,
            CountersOf(r), r.terminationReason);
    var r1 := WithCounters(r, k).(terminationReason := reason);
    if outcome.Evaluated? {
      AfterEvaluationUpdates(inp, s, r1, outcome.evaluation, outcome.suggestions);
    }
  }

  /** An evaluated iteration keeps the updater history sound and at most one entry per row. */
  lemma AfterEvaluationUpdates(inp: OptimizationInput, s: LoopState, r: OptimizationResult,
                               e: EvaluationResult, generated: seq<PromptSuggestion>)
    requires InvUpdates(s) && r.iterationsRun == s.result.iterationsRun
    ensures InvUpdates(AfterEvaluation(inp, s, r, e, generated))
  {
    var added := EvaluationUpdates(inp, s, e, r.finalAgentConfig, generated);
    AfterEvaluationCounts(inp, s, r, e, generated);
    AfterEvaluationRuns(inp, s, r, e, generated);
    if added != [] {
      UpdateRecordSound(r.finalAgentConfig, generated);
    }
    RecordsSoundAppend(s.updates, added);
  }

  /** An evaluated iteration adds at most one entry, and a row whenever it adds an entry. */
  lemma AfterEvaluationRuns(inp: OptimizationInput, s: LoopState, r: OptimizationResult,
                            e: EvaluationResult, generated: seq<PromptSuggestion>)
    ensures var added := EvaluationUpdates(inp, s, e, r.finalAgentConfig, generated);
      && |added| <= 1
      && (added != [] ==> added == [UpdateRecordOf(r.finalAgentConfig, generated)])
      && AfterEvaluation(inp, s, r, e, generated).result.iterationsRun >= r.iterationsRun
      && (added != [] ==> AfterEvaluation(inp, s, r, e, generated).result.iterationsRun == r.iterationsRun + 1)
  {
  }

  /** Sound entries followed by sound entries are sound. */
  lemma RecordsSoundAppend(a: seq<Updater.UpdateRecord>, b: seq<Updater.UpdateRecord>)
    requires forall i :: 0 <= i < |a| ==> RecordSound(a[i])
    requires forall i :: 0 <= i < |b| ==> RecordSound(b[i])
    ensures forall i :: 0 <= i < |a + b| ==> RecordSound((a + b)[i])
  {
    forall i | 0 <= i < |a + b| ensures RecordSound((a + b)[i]) {
      if i >= |a| {
        assert (a + b)[i] == b[i - |a|];
      }
    }
  }

  lemma InitialInv(inp: OptimizationInput)
    ensures Inv(inp, Initial(inp.agentConfig))
  {
  }

  /** The retry loop adds at most one failure per allowed retry and sets only a retry reason. */
  lemma {:induction false} RetrySpec(oracle: Oracle, maxRetries: int, current: Config, iteration: nat,
                                     attempt: nat, counters: Counters, reason: string)
    requires attempt <= (if maxRetries > 0 then maxRetries else 0)
    ensures var (outcome, k, reason') := Retry(oracle, maxRetries, current, iteration, attempt, counters, reason);
      && k.failures <= counters.failures + (if maxRetries > 0 then maxRetries else 0) - attempt
      && k.serviceErrors + k.formatErrors <= counters.serviceErrors + counters.formatErrors + k.failures - counters.failures
      && k.failures >= counters.failures
      && (reason' == reason || RetryReason(reason'))
      && (!outcome.RetriesExhausted? ==> reason' == reason)
    decreases if attempt < maxRetries then maxRetries - attempt else 0
  {
    if attempt < maxRetries {
      match oracle(current, iteration, attempt)
      case Answered(e, s) =>
      case Raised(m) =>
      case ServiceFailure(err) =>
        var k := CountFailure(counters, err.errorType);
        if attempt + 1 < maxRetries {
          RetrySpec(oracle, maxRetries, current, iteration, attempt + 1, k, reason);
        }
    }
  }

  lemma SinceImprovementAppend(xs: seq<real>, x: real)
    ensures SinceImprovement(xs + [x]) == if x > Max0(xs) then 0 else 1 + SinceImprovement(xs)
  {
    assert (xs + [x])[..|xs|] == xs;
  }

  lemma Max0Append(xs: seq<real>, x: real)
    ensures Max0(xs + [x]) == if x > Max0(xs) then x else Max0(xs)
  {
    assert (xs + [x])[..|xs|] == xs;
  }

  lemma BestConfigAppend(original: Config, scores: seq<real>, configs: seq<Config>, x: real, c: Config)
    requires |scores| == |configs|
    ensures BestConfig(original, scores + [x], configs + [c]) ==
      if x > Max0(scores) then c else BestConfig(original, scores, configs)
  {
    Max0Append(scores, x);
    Max0Bounds(scores);
    var m := Max0(scores);
    if x > m {
      assert forall j :: 0 <= j < |scores| ==> (scores + [x])[j] != x;
      assert FirstIndexOf(scores + [x], x) == |scores|;
    } else if m > 0.0 {
      FirstIndexOfAppend(scores, x, m);
      assert (configs + [c])[FirstIndexOf(scores, m)] == configs[FirstIndexOf(scores, m)];
    }
  }

  /**
   * The suggestion step records the suggestions and at most three applied
   * ones; the updated configuration replaces the current one exactly when
   * `validate_configuration` accepts it, and otherwise the current one and
   * no applied suggestions are kept.
   */
  lemma SuggestionStepSpec(record: OptimizationIteration, current: Config, suggestions: seq<PromptSuggestion>)
    requires record.changedPrompts == [] && record.generatedSuggestions == []
    ensures var row := SuggestionStep(record, current, suggestions).0;
      && |row.changedPrompts| <= 3
      && Updater.Subsequence(row.changedPrompts, row.generatedSuggestions)
      && row.generatedSuggestions == suggestions
      && row.(changedPrompts := [], generatedSuggestions := []) == record
    ensures var (row, next) := SuggestionStep(record, current, suggestions);
      var out := Updater.ApplyAll(current, Updater.Considered(suggestions, Some(3)));
      var valid := Updater.ValidateConfiguration(Updater.DictValue(out.config)).0;
      && (next == current || (suggestions != [] && valid && next == out.config))
      && (suggestions != [] && valid ==> next == out.config && row.changedPrompts == out.applied)
      && (suggestions == [] || !valid ==> next == current && row.changedPrompts == [])
  {
    var record' := record.(generatedSuggestions := suggestions);
    assert Updater.Subsequence([], suggestions) by { EmptySubsequence(suggestions); }
    if suggestions != [] {
      var considered := Updater.Considered(suggestions, Some(3));
      var out := Updater.ApplyAll(current, considered);
      Updater.ApplyAllSpec(current, considered);
      assert |considered| <= 3 && considered == suggestions[..|considered|];
      SubsequencePrefix(out.applied, suggestions, |considered|);
      var valid := Updater.ValidateConfiguration(Updater.DictValue(out.config)).0;
      assert SuggestionStep(record, current, suggestions).0 ==
        if valid then record'.(changedPrompts := out.applied) else record';
    }
  }

  lemma {:induction false} EmptySubsequence<T>(ys: seq<T>)
    ensures Updater.Subsequence([], ys)
    decreases |ys|
  {
    if ys != [] {
      EmptySubsequence(ys[..|ys| - 1]);
    }
  }

  /** A subsequence of a prefix is a subsequence of the whole sequence. */
  lemma {:induction false} SubsequencePrefix<T>(xs: seq<T>, ys: seq<T>, n: nat)
    requires n <= |ys| && Updater.Subsequence(xs, ys[..n])
    ensures Updater.Subsequence(xs, ys)
    decreases |ys| - n
  {
    if n < |ys| {
      assert ys[..n + 1][..n] == ys[..n];
      SubsequencePrefix(xs, ys, n + 1);
    } else {
      assert ys[..n] == ys;
    }
  }

  /** An evaluated iteration records its score and configuration, and at most the row it proceeds with. */
  lemma AfterEvaluationHistory(inp: OptimizationInput, s: LoopState, r: OptimizationResult,
                               e: EvaluationResult, generated: seq<PromptSuggestion>)
    ensures AfterEvaluation(inp, s, r, e, generated).scores == s.scores + [e.score]
    ensures AfterEvaluation(inp, s, r, e, generated).configs == s.configs + [r.finalAgentConfig]
    ensures AfterEvaluation(inp, s, r, e, generated).result.history == r.history ||
      AfterEvaluation(inp, s, r, e, generated).result.history ==
        r.history + [Proceed(inp, s.iteration, e, r.finalAgentConfig, generated).0]
  {
  }

  /** An evaluated iteration counts itself and records the updates it made. */
  lemma AfterEvaluationCounts(inp: OptimizationInput, s: LoopState, r: OptimizationResult,
                              e: EvaluationResult, generated: seq<PromptSuggestion>)
    ensures AfterEvaluation(inp, s, r, e, generated).iteration == s.iteration + 1
    ensures AfterEvaluation(inp, s, r, e, generated).updates ==
      s.updates + EvaluationUpdates(inp, s, e, r.finalAgentConfig, generated)
  {
  }

  /** What an evaluated iteration does to each part of the loop state. */
  lemma AfterEvaluationShape(inp: OptimizationInput, s: LoopState, r: OptimizationResult,
                             e: EvaluationResult, generated: seq<PromptSuggestion>)
    ensures var s' := AfterEvaluation(inp, s, r, e, generated);
      var improved := e.score > s.bestScore;
      && s'.scores == s.scores + [e.score]
      && s'.configs == s.configs + [r.finalAgentConfig]
      && s'.iteration == s.iteration + 1
      && s'.bestScore == (if improved then e.score else s.bestScore)
      && s'.best == (if improved then r.finalAgentConfig else s.best)
      && s'.plateau == (if improved then 0 else s.plateau + 1)
      && CountersOf(s'.result) == CountersOf(r)
      && s'.result.finalScore == r.finalScore
      && (e.score >= inp.config.convergenceThreshold ==>
            s'.status == Stopped && s'.result.history == r.history && s'.result.iterationsRun == r.iterationsRun &&
            s'.result.convergenceAchieved && s'.result.terminationReason == "Convergence threshold reached")
      && (e.score < inp.config.convergenceThreshold && s'.plateau >= inp.config.plateauPatience ==>
            s'.status == Stopped && s'.result.history == r.history && s'.result.iterationsRun == r.iterationsRun &&
            s'.result.convergenceAchieved == r.convergenceAchieved &&
            s'.result.terminationReason == "Plateau detected - no improvement")
      && (e.score < inp.config.convergenceThreshold && s'.plateau < inp.config.plateauPatience ==>
            s'.status == s.status &&
            s'.result.history == r.history + [Proceed(inp, s.iteration, e, r.finalAgentConfig, generated).0] &&
            s'.result.iterationsRun == r.iterationsRun + 1 &&
            s'.result.convergenceAchieved == r.convergenceAchieved &&
            s'.result.terminationReason == r.terminationReason)
  {
  }

  /** The configuration an evaluated iteration goes on with is the one it evaluated or an admitted update. */
  lemma ProceedAdmitted(inp: OptimizationInput, iteration: nat, e: EvaluationResult, current: Config,
                        generated: seq<PromptSuggestion>)
    requires Admitted(inp, current)
    ensures Admitted(inp, Proceed(inp, iteration, e, current, generated).1)
  {
    if iteration < inp.config.maxIterations - 1 {
      SuggestionStepSpec(BaseRow(iteration, e, current), current, generated);
    }
  }

  /** The configurations an evaluated iteration records, keeps as best and goes on with. */
  lemma AfterEvaluationConfigs(inp: OptimizationInput, s: LoopState, r: OptimizationResult,
                               e: EvaluationResult, generated: seq<PromptSuggestion>)
    ensures var s' := AfterEvaluation(inp, s, r, e, generated);
      && s'.configs == s.configs + [r.finalAgentConfig]
      && (s'.best == s.best || s'.best == r.finalAgentConfig)
      && (s'.result.finalAgentConfig == r.finalAgentConfig ||
          s'.result.finalAgentConfig == Proceed(inp, s.iteration, e, r.finalAgentConfig, generated).1)
  {
  }

  /** One iteration keeps every configuration admitted. */
  lemma IterateAdmitted(inp: OptimizationInput, oracle: Oracle, s: LoopState)
    requires InvAdmitted(inp, s)
    ensures InvAdmitted(inp, Iterate(inp, oracle, s))
  {
    var r := s.result;
    var (outcome, k, reason) :=
      Retry(oracle, inp.config.maxLlmRetriesPerIteration, r.finalAgentConfig, s.iteration, 0,
            CountersOf(r), r.terminationReason);
    var r1 := WithCounters(r, k).(terminationReason := reason);
    if outcome.Evaluated? {
      var e := outcome.evaluation;
      AfterEvaluationConfigs(inp, s, r1, e, outcome.suggestions);
      ProceedAdmitted(inp, s.iteration, e, r.finalAgentConfig, outcome.suggestions);
      var s' := AfterEvaluation(inp, s, r1, e, outcome.suggestions);
      forall j | 0 <= j < |s'.configs| ensures Admitted(inp, s'.configs[j]) {
        if j < |s.configs| {
          assert s'.configs[j] == s.configs[j];
        }
      }
    }
  }

  lemma {:induction false} RunFromAdmitted(inp: OptimizationInput, oracle: Oracle, s: LoopState)
    requires InvAdmitted(inp, s)
    ensures InvAdmitted(inp, RunFrom(inp, oracle, s))
    decreases if s.iteration < inp.config.maxIterations then inp.config.maxIterations - s.iteration else 0
  {
    if s.iteration < inp.config.maxIterations && s.status.Running? {
      IterateAdvances(inp, oracle, s);
      IterateAdmitted(inp, oracle, s);
      RunFromAdmitted(inp, oracle, Iterate(inp, oracle, s));
    }
  }

  /** The row an evaluated iteration appends. */
  lemma ProceedSpec(inp: OptimizationInput, iteration: nat, e: EvaluationResult, current: Config,
                    generated: seq<PromptSuggestion>)
    requires iteration < inp.config.maxIterations
    ensures var row := Proceed(inp, iteration, e, current, generated).0;
      && row.iteration == iteration + 1
      && row.score == e.score
      && row.currentPrompts == ExtractAgentPrompts(current)
      && RowSound(inp, row)
  {
    if iteration < inp.config.maxIterations - 1 {
      SuggestionStepSpec(BaseRow(iteration, e, current), current, generated);
    }
  }

  lemma IterateCount(inp: OptimizationInput, oracle: Oracle, s: LoopState)
    requires InvCount(inp, s) && s.status.Running? && s.iteration < inp.config.maxIterations
    ensures InvCount(inp, Iterate(inp, oracle, s))
  {
    var r := s.result;
    var (outcome, k, reason) :=
      Retry(oracle, inp.config.maxLlmRetriesPerIteration, r.finalAgentConfig, s.iteration, 0,
            CountersOf(r), r.terminationReason);
    var r1 := WithCounters(r, k).(terminationReason := reason);
    if outcome.Evaluated? {
      AfterEvaluationShape(inp, s, r1, outcome.evaluation, outcome.suggestions);
    }
  }

  lemma IterateRows(inp: OptimizationInput, oracle: Oracle, s: LoopState)
    requires InvCount(inp, s) && InvRows(inp, s) && s.status.Running? && s.iteration < inp.config.maxIterations
    ensures InvCount(inp, Iterate(inp, oracle, s)) && InvRows(inp, Iterate(inp, oracle, s))
  {
    IterateCount(inp, oracle, s);
    var r := s.result;
    var (outcome, k, reason) :=
      Retry(oracle, inp.config.maxLlmRetriesPerIteration, r.finalAgentConfig, s.iteration, 0,
            CountersOf(r), r.terminationReason);
    var r1 := WithCounters(r, k).(terminationReason := reason);
    if outcome.Evaluated? {
      AfterEvaluationRows(inp, s, r1, outcome.evaluation, outcome.suggestions);
    }
  }

  /** An evaluated iteration keeps every earlier row and appends, at most, the row it records. */
  lemma AfterEvaluationRows(inp: OptimizationInput, s: LoopState, r: OptimizationResult,
                            e: EvaluationResult, generated: seq<PromptSuggestion>)
    requires InvCount(inp, s) && InvRows(inp, s) && s.status.Running? && s.iteration < inp.config.maxIterations
    requires r.history == s.result.history && r.iterationsRun == s.result.iterationsRun
    requires InvCount(inp, AfterEvaluation(inp, s, r, e, generated))
    ensures InvRows(inp, AfterEvaluation(inp, s, r, e, generated))
  {
    var current := r.finalAgentConfig;
    AfterEvaluationHistory(inp, s, r, e, generated);
    ProceedSpec(inp, s.iteration, e, current, generated);
    var s' := AfterEvaluation(inp, s, r, e, generated);
    forall j | 0 <= j < |s'.result.history|
      ensures s'.result.history[j].iteration == j + 1 && s'.result.history[j].score == s'.scores[j]
      ensures s'.result.history[j].currentPrompts == ExtractAgentPrompts(s'.configs[j])
      ensures RowSound(inp, s'.result.history[j])
    {
      if j < |r.history| {
        assert s'.result.history[j] == r.history[j];
        assert s'.scores[j] == s.scores[j] && s'.configs[j] == s.configs[j];
      }
    }
  }

  lemma IterateBest(inp: OptimizationInput, oracle: Oracle, s: LoopState)
    requires InvBest(inp, s)
    ensures InvBest(inp, Iterate(inp, oracle, s))
  {
    var r := s.result;
    var (outcome, k, reason) :=
      Retry(oracle, inp.config.maxLlmRetriesPerIteration, r.finalAgentConfig, s.iteration, 0,
            CountersOf(r), r.terminationReason);
    var r1 := WithCounters(r, k).(terminationReason := reason);
    if outcome.Evaluated? {
      var e := outcome.evaluation;
      AfterEvaluationShape(inp, s, r1, e, outcome.suggestions);
      SinceImprovementAppend(s.scores, e.score);
      Max0Append(s.scores, e.score);
      BestConfigAppend(inp.agentConfig, s.scores, s.configs, e.score, r.finalAgentConfig);
    }
  }

  lemma IterateLlm(inp: OptimizationInput, oracle: Oracle, s: LoopState)
    requires InvLlm(inp, s)
    ensures InvLlm(inp, Iterate(inp, oracle, s))
  {
    var r := s.result;
    RetrySpec(oracle, inp.config.maxLlmRetriesPerIteration, r.finalAgentConfig, s.iteration, 0,
              CountersOf(r), r.terminationReason);
    var k := Retry(oracle, inp.config.maxLlmRetriesPerIteration, r.finalAgentConfig, s.iteration, 0,
                   CountersOf(r), r.terminationReason).1;
    IterateCounters(inp, oracle, s, k);
    FailureBoundStep(r.llmFailureCount, k.failures, s.iteration, RetryBound(inp));
  }

  /** An iteration counts one more iteration and takes the failure counters from the retry loop. */
  lemma IterateCounters(inp: OptimizationInput, oracle: Oracle, s: LoopState, k: Counters)
    requires k == Retry(oracle, inp.config.maxLlmRetriesPerIteration, s.result.finalAgentConfig, s.iteration, 0,
                        CountersOf(s.result), s.result.terminationReason).1
    ensures Iterate(inp, oracle, s).iteration == s.iteration + 1
    ensures CountersOf(Iterate(inp, oracle, s).result) == k
  {
    var r := s.result;
    var (outcome, k', reason) :=
      Retry(oracle, inp.config.maxLlmRetriesPerIteration, r.finalAgentConfig, s.iteration, 0,
            CountersOf(r), r.terminationReason);
    var r1 := WithCounters(r, k).(terminationReason := reason);
    if outcome.Evaluated? {
      AfterEvaluationCounters(inp, s, r1, outcome.evaluation, outcome.suggestions);
    }
  }

  /** At most `m` more failures in one more iteration keep the bound of `m` per iteration. */
  lemma FailureBoundStep(before: nat, after: nat, iteration: nat, m: nat)
    requires before <= iteration * m && after <= before + m
    ensures after <= (iteration + 1) * m
  {
    assert (iteration + 1) * m == iteration * m + m;
  }

  /** A successful evaluation counts one iteration and leaves the failure counters alone. */
  lemma AfterEvaluationCounters(inp: OptimizationInput, s: LoopState, r: OptimizationResult,
                                e: EvaluationResult, generated: seq<PromptSuggestion>)
    ensures AfterEvaluation(inp, s, r, e, generated).iteration == s.iteration + 1
    ensures CountersOf(AfterEvaluation(inp, s, r, e, generated).result) == CountersOf(r)
  {
  }

  lemma IterateReason(inp: OptimizationInput, oracle: Oracle, s: LoopState)
    requires InvReason(inp, s) && InvBest(inp, s) && s.status.Running?
    ensures InvReason(inp, Iterate(inp, oracle, s))
  {
    var r := s.result;
    RetrySpec(oracle, inp.config.maxLlmRetriesPerIteration, r.finalAgentConfig, s.iteration, 0,
              CountersOf(r), r.terminationReason);
    var (outcome, k, reason) :=
      Retry(oracle, inp.config.maxLlmRetriesPerIteration, r.finalAgentConfig, s.iteration, 0,
            CountersOf(r), r.terminationReason);
    var r1 := WithCounters(r, k).(terminationReason := reason);
    if outcome.Evaluated? {
      var e := outcome.evaluation;
      AfterEvaluationShape(inp, s, r1, e, outcome.suggestions);
      SinceImprovementAppend(s.scores, e.score);
      assert reason == "";
    } else if outcome.RetriesExhausted? {
      assert reason == "" || RetryReason(reason);
      assert reason != "Convergence threshold reached" by {
        if reason != "" {
          var t :| reason == "LLM failures exceeded max retries (" + t + ")";
          assert reason[0] == 'L';
        }
      }
      assert reason != "Plateau detected - no improvement" by {
        if reason != "" {
          var t :| reason == "LLM failures exceeded max retries (" + t + ")";
          assert reason[0] == 'L';
        }
      }
    }
  }

  /** An iteration moves the iteration number on by one. */
  lemma IterateAdvances(inp: OptimizationInput, oracle: Oracle, s: LoopState)
    ensures Iterate(inp, oracle, s).iteration == s.iteration + 1
  {
    var r := s.result;
    var (outcome, k, reason) :=
      Retry(oracle, inp.config.maxLlmRetriesPerIteration, r.finalAgentConfig, s.iteration, 0,
            CountersOf(r), r.terminationReason);
    var r1 := WithCounters(r, k).(terminationReason := reason);
    if outcome.Evaluated? {
      AfterEvaluationShape(inp, s, r1, outcome.evaluation, outcome.suggestions);
    }
  }

  /** One iteration keeps the invariant. */
  lemma IterateInv(inp: OptimizationInput, oracle: Oracle, s: LoopState)
    requires Inv(inp, s) && s.status.Running? && s.iteration < inp.config.maxIterations
    ensures Inv(inp, Iterate(inp, oracle, s))
  {
    IterateRows(inp, oracle, s);
    IterateBest(inp, oracle, s);
    IterateLlm(inp, oracle, s);
    IterateReason(inp, oracle, s);
    IterateUpdates(inp, oracle, s);
  }

  /** The whole loop keeps the invariant. */
  lemma {:induction false} RunFromInv(inp: OptimizationInput, oracle: Oracle, s: LoopState)
    requires Inv(inp, s)
    ensures Inv(inp, RunFrom(inp, oracle, s))
    ensures !RunFrom(inp, oracle, s).status.Running? || RunFrom(inp, oracle, s).iteration >= inp.config.maxIterations
    decreases if s.iteration < inp.config.maxIterations then inp.config.maxIterations - s.iteration else 0
  {
    if s.iteration < inp.config.maxIterations && s.status.Running? {
      var next := Iterate(inp, oracle, s);
      IterateAdvances(inp, oracle, s);
      IterateInv(inp, oracle, s);
      RunFromInv(inp, oracle, next);
      assert RunFrom(inp, oracle, s) == RunFrom(inp, oracle, next);
    }
  }

  // ---------------------------------------------------------------------
  // The promises of optimize_workflow
  // ---------------------------------------------------------------------

  /** The final loop state satisfies the invariant and the loop has ended. */
  lemma FinalStateInv(inp: OptimizationInput, oracle: Oracle)
    ensures Inv(inp, FinalState(inp, oracle))
    ensures var s := FinalState(inp, oracle);
      !s.status.Running? || s.iteration >= inp.config.maxIterations
  {
    InitialInv(inp);
    RunFromInv(inp, oracle, Initial(inp.agentConfig));
  }

  lemma MulMonotone(a: nat, b: nat, m: nat)
    requires a <= b
    ensures a * m <= b * m
  {
  }

  /** What the statements after the loop change. */
  lemma FinishShape(s: LoopState)
    ensures var r := Finish(s);
      && r.history == s.result.history
      && r.iterationsRun == s.result.iterationsRun
      && CountersOf(r) == CountersOf(s.result)
      && r.convergenceAchieved == s.result.convergenceAchieved
      && (s.status.Failed? ==>
            r.finalScore == s.result.finalScore && r.terminationReason == "Error: " + s.status.message)
      && (!s.status.Failed? ==>
            && r.finalScore == s.bestScore && r.finalAgentConfig == s.best
            && r.terminationReason ==
                 (if s.result.terminationReason == "" then "Maximum iterations reached" else s.result.terminationReason))
  {
  }

  /**
   * The history has one row per completed iteration, numbered from 1, never
   * more than `max_iterations`; each row records the prompts of the
   * configuration it evaluated.
   */
  lemma OptimizeHistory(inp: OptimizationInput, oracle: Oracle)
    ensures var r := Optimize(inp, oracle);
      var s := FinalState(inp, oracle);
      && |r.history| == r.iterationsRun
      && r.iterationsRun <= (if inp.config.maxIterations > 0 then inp.config.maxIterations else 0)
      && |r.history| <= |s.configs|
      && forall j :: 0 <= j < |r.history| ==>
           r.history[j].iteration == j + 1 &&
           r.history[j].currentPrompts == ExtractAgentPrompts(s.configs[j])
  {
    FinalStateInv(inp, oracle);
    var s := FinalState(inp, oracle);
    assert InvCount(inp, s) && InvRows(inp, s);
    FinishShape(s);
  }

  /**
   * Unless an exception ends the run, the final score is the largest of 0.0
   * and every evaluated score, so no history score exceeds it, and the final
   * configuration is the one evaluated when that score was first reached
   * (the original one when no score exceeds 0.0). After an exception the
   * final score stays 0.0.
   */
  lemma OptimizeBest(inp: OptimizationInput, oracle: Oracle)
    ensures var s := FinalState(inp, oracle);
      var r := Optimize(inp, oracle);
      && |s.scores| == |s.configs|
      && |r.history| <= |s.scores|
      && (!s.status.Failed? ==>
            && r.finalScore == Max0(s.scores)
            && r.finalAgentConfig == BestConfig(inp.agentConfig, s.scores, s.configs)
            && (forall j :: 0 <= j < |r.history| ==> r.history[j].score == s.scores[j] <= r.finalScore))
      && (s.status.Failed? ==> r.finalScore == 0.0)
  {
    FinalStateInv(inp, oracle);
    var s := FinalState(inp, oracle);
    FinishShape(s);
    Max0Bounds(s.scores);
  }

  /**
   * The termination reason is convergence (exactly when `convergence_achieved`,
   * after a score at or above the threshold), a plateau (a score below the
   * threshold after `plateau_patience` scores without strict improvement),
   * exhausted LLM retries, an exception, or the iteration limit.
   */
  lemma OptimizeTermination(inp: OptimizationInput, oracle: Oracle)
    ensures var s := FinalState(inp, oracle);
      var r := Optimize(inp, oracle);
      && (s.status.Failed? ==> r.terminationReason == "Error: " + s.status.message)
      && (!s.status.Failed? ==>
            && (r.convergenceAchieved <==> r.terminationReason == "Convergence threshold reached")
            && (r.convergenceAchieved ==>
                  |s.scores| > 0 && s.scores[|s.scores| - 1] >= inp.config.convergenceThreshold)
            && (r.terminationReason == "Plateau detected - no improvement" ==>
                  |s.scores| > 0 && s.scores[|s.scores| - 1] < inp.config.convergenceThreshold &&
                  SinceImprovement(s.scores) >= inp.config.plateauPatience)
            && (r.terminationReason == "Convergence threshold reached" ||
                r.terminationReason == "Plateau detected - no improvement" ||
                RetryReason(r.terminationReason) ||
                r.terminationReason == "Maximum iterations reached"))
  {
    FinalStateInv(inp, oracle);
    var s := FinalState(inp, oracle);
    FinishShape(s);
    assert "Maximum iterations reached" != "Convergence threshold reached";
    assert "Maximum iterations reached"[0] != "Plateau detected - no improvement"[0];
  }

  /**
   * Each iteration adds at most `max_llm_retries_per_iteration` failures,
   * and the service and format counters together never exceed the failure
   * count.
   */
  lemma OptimizeRetries(inp: OptimizationInput, oracle: Oracle)
    ensures var r := Optimize(inp, oracle);
      && r.llmFailureCount <= (r.iterationsRun + 1) * RetryBound(inp)
      && r.llmServiceErrors + r.llmFormatErrors <= r.llmFailureCount
  {
    FinalStateInv(inp, oracle);
    var s := FinalState(inp, oracle);
    FinishShape(s);
    FailureBoundFinal(s.result.llmFailureCount, s.iteration, s.result.iterationsRun, RetryBound(inp));
  }

  /** The failure bound per started iteration, stated per completed iteration plus the one that stopped. */
  lemma FailureBoundFinal(failures: nat, iteration: nat, iterationsRun: nat, m: nat)
    requires failures <= iteration * m && iteration <= iterationsRun + 1
    ensures failures <= (iterationsRun + 1) * m
  {
    MulMonotone(iteration, iterationsRun + 1, m);
  }

  /**
   * At most three suggestions are applied per iteration, in their generated
   * order, and the last allowed iteration neither generates nor applies any.
   */
  lemma OptimizeSuggestions(inp: OptimizationInput, oracle: Oracle)
    ensures var r := Optimize(inp, oracle);
      forall j :: 0 <= j < |r.history| ==>
        && |r.history[j].changedPrompts| <= 3
        && Updater.Subsequence(r.history[j].changedPrompts, r.history[j].generatedSuggestions)
        && (j + 1 >= inp.config.maxIterations ==>
              r.history[j].generatedSuggestions == [] && r.history[j].changedPrompts == [])
  {
    FinalStateInv(inp, oracle);
    var s := FinalState(inp, oracle);
    FinishShape(s);
    var r := Optimize(inp, oracle);
    forall j | 0 <= j < |r.history| ensures RowSound(inp, r.history[j]) { }
  }

  /**
   * Suggestions replace the configuration only when `validate_configuration`
   * accepts the updated one: every configuration the run evaluates, and the
   * one it returns, is the input configuration or passes validation.
   */
  lemma OptimizeValidated(inp: OptimizationInput, oracle: Oracle)
    ensures var s := FinalState(inp, oracle);
      && Admitted(inp, Optimize(inp, oracle).finalAgentConfig)
      && forall j :: 0 <= j < |s.configs| ==> Admitted(inp, s.configs[j])
  {
    RunFromAdmitted(inp, oracle, Initial(inp.agentConfig));
    FinishShape(FinalState(inp, oracle));
  }

  /**
   * The run adds at most one entry to the updater's history per completed
   * iteration; each considers between one and three suggestions and records
   * one change per applied suggestion.
   */
  lemma OptimizeUpdates(inp: OptimizationInput, oracle: Oracle)
    ensures var s := FinalState(inp, oracle);
      && |s.updates| <= Optimize(inp, oracle).iterationsRun
      && forall i :: 0 <= i < |s.updates| ==> RecordSound(s.updates[i])
  {
    FinalStateInv(inp, oracle);
    FinishShape(FinalState(inp, oracle));
  }

  // ---------------------------------------------------------------------
  // The loop as a method
  // ---------------------------------------------------------------------

  /** The optimizer with its suggestion updater, whose history grows with every application. */
  class AgentOptimizer {
    var promptUpdater: Updater.PromptUpdater

    constructor ()
      ensures fresh(promptUpdater) && promptUpdater.updateHistory == []
    {
      promptUpdater := new Updater.PromptUpdater();
    }

    /** The retry loop of one iteration. */
    static method RetryLoop(oracle: Oracle, maxRetries: int, current: Config, iteration: nat, counters: Counters,
                            reason: string)
      returns (outcome: RetryOutcome, k: Counters, reason': string)
      ensures (outcome, k, reason') == Retry(oracle, maxRetries, current, iteration, 0, counters, reason)
    {
      var retries: nat := 0;
      k, reason' := counters, reason;
      outcome := RetriesExhausted;
      var done := false;
      while !done && retries < maxRetries
        invariant !done ==> Retry(oracle, maxRetries, current, iteration, 0, counters, reason)
                            == Retry(oracle, maxRetries, current, iteration, retries, k, reason')
        invariant !done ==> outcome == RetriesExhausted
        invariant done ==> (outcome, k, reason') == Retry(oracle, maxRetries, current, iteration, 0, counters, reason)
        decreases maxRetries - retries, !done
      {
        match oracle(current, iteration, retries) {
          case Answered(e, s) =>
            outcome := Evaluated(e, s);
            done := true;
          case Raised(m) =>
            outcome := Aborted(m);
            done := true;
          case ServiceFailure(err) =>
            retries := retries + 1;
            k := CountFailure(k, err.errorType);
            if retries >= maxRetries {
              reason' := "LLM failures exceeded max retries (" + err.errorType + ")";
              done := true;
            }
        }
      }
    }

    /**
     * `AgentOptimizer.optimize_workflow`: runs the iterations, stopping on
     * convergence, plateau, exhausted retries or an exception.
     */
    method OptimizeWorkflow(inp: OptimizationInput, oracle: Oracle) returns (result: OptimizationResult)
      modifies promptUpdater
      ensures result == Optimize(inp, oracle)
      ensures promptUpdater.updateHistory == old(promptUpdater.updateHistory) + FinalState(inp, oracle).updates
    {
      var cfg := inp.config;
      var s := Initial(inp.agentConfig);
      while s.iteration < cfg.maxIterations && s.status.Running?
        invariant RunFrom(inp, oracle, Initial(inp.agentConfig)) == RunFrom(inp, oracle, s)
        invariant promptUpdater.updateHistory == old(promptUpdater.updateHistory) + s.updates
        decreases cfg.maxIterations - s.iteration
      {
        RunFromStep(inp, oracle, s);
        s := RunIteration(inp, oracle, s, old(promptUpdater.updateHistory));
      }
      result := Finish(s);
    }

    /** One pass of the loop of `optimize_workflow`: the retries, then the iteration's outcome. */
    method RunIteration(inp: OptimizationInput, oracle: Oracle, s: LoopState, ghost base: seq<Updater.UpdateRecord>)
      returns (s': LoopState)
      requires promptUpdater.updateHistory == base + s.updates
      modifies promptUpdater
      ensures s' == Iterate(inp, oracle, s) && s'.iteration == s.iteration + 1
      ensures promptUpdater.updateHistory == base + s'.updates
    {
      var r := s.result;
      var outcome, k, reason := RetryLoop(oracle, inp.config.maxLlmRetriesPerIteration, r.finalAgentConfig,
                                          s.iteration, CountersOf(r), r.terminationReason);
      r := WithCounters(r, k).(terminationReason := reason);
      match outcome {
        case RetriesExhausted =>
          s' := s.(result := r, iteration := s.iteration + 1, status := Stopped);
        case Aborted(m) =>
          s' := s.(result := r, iteration := s.iteration + 1, status := Failed(m));
        case Evaluated(e, generated) =>
          s' := EvaluatedStep(inp, s, r, e, generated);
          AfterEvaluationCounts(inp, s, r, e, generated);
      }
    }

    /** The history row of an iteration, with the suggestions applied when it is not the last. */
    method ProceedStep(inp: OptimizationInput, iteration: nat, e: EvaluationResult, current: Config,
                       generated: seq<PromptSuggestion>) returns (record: OptimizationIteration, next: Config)
      modifies promptUpdater
      ensures (record, next) == Proceed(inp, iteration, e, current, generated)
      ensures promptUpdater.updateHistory ==
        old(promptUpdater.updateHistory) + ProceedUpdates(inp, iteration, current, generated)
    {
      record := OptimizationIteration(iteration + 1, e.score, [], Some(e), None, None, None, [],
                                      ExtractAgentPrompts(current));
      next := current;
      if iteration < inp.config.maxIterations - 1 {
        record := record.(generatedSuggestions := generated);
        if generated != [] {
          var updated, applied := promptUpdater.ApplySuggestions(current, generated, Some(3));
          if Updater.ValidateConfiguration(Updater.DictValue(updated)).0 {
            next := updated;
            record := record.(changedPrompts := applied);
          }
        }
      }
    }

    /** The statements of an iteration after a successful evaluation. */
    method EvaluatedStep(inp: OptimizationInput, s: LoopState, r: OptimizationResult, e: EvaluationResult,
                         generated: seq<PromptSuggestion>) returns (s': LoopState)
      modifies promptUpdater
      ensures s' == AfterEvaluation(inp, s, r, e, generated)
      ensures promptUpdater.updateHistory ==
        old(promptUpdater.updateHistory) + EvaluationUpdates(inp, s, e, r.finalAgentConfig, generated)
    {
      var current := r.finalAgentConfig;
      var result := r;
      if s.iteration == 0 {
        result := result.(baselineScore := Some(e.score), baselineEvaluation := Some(e));
      }
      s' := s.(result := result, scores := s.scores + [e.score], configs := s.configs + [current],
               iteration := s.iteration + 1, updates := s.updates + EvaluationUpdates(inp, s, e, current, generated));
      if e.score > s.bestScore {
        s' := s'.(best := current, bestScore := e.score, plateau := 0);
      } else {
        s' := s'.(plateau := s.plateau + 1);
      }
      s' := StopOrProceed(inp, s, r, e, generated, s');
    }

    /** The stopping checks of an evaluated iteration, then the suggestion step when neither stops it. */
    method StopOrProceed(inp: OptimizationInput, s: LoopState, r: OptimizationResult, e: EvaluationResult,
                         generated: seq<PromptSuggestion>, recorded: LoopState) returns (s': LoopState)
      requires recorded == Recorded(inp, s, r, e, generated)
      modifies promptUpdater
      ensures s' == AfterEvaluation(inp, s, r, e, generated)
      ensures promptUpdater.updateHistory ==
        old(promptUpdater.updateHistory) + EvaluationUpdates(inp, s, e, r.finalAgentConfig, generated)
    {
      var cfg := inp.config;
      var result := recorded.result;
      if e.score >= cfg.convergenceThreshold {
        result := result.(convergenceAchieved := true, terminationReason := "Convergence threshold reached");
        s' := recorded.(result := result, status := Stopped);
        return;
      }
      if recorded.plateau >= cfg.plateauPatience {
        result := result.(terminationReason := "Plateau detected - no improvement");
        s' := recorded.(result := result, status := Stopped);
        return;
      }
      var record, next := ProceedStep(inp, s.iteration, e, r.finalAgentConfig, generated);
      result := result.(history := result.history + [record], iterationsRun := result.iterationsRun + 1,
                        finalAgentConfig := next);
      s' := recorded.(result := result);
    }
  }

  // ---------------------------------------------------------------------
  // Report helpers
  // ---------------------------------------------------------------------

  function ScoresOf(history: seq<OptimizationIteration>): (r: seq<real>)
    ensures |r| == |history| && forall i :: 0 <= i < |history| ==> r[i] == history[i].score
  {
    seq(|history|, i requires 0 <= i < |history| => history[i].score)
  }

  /** The differences of consecutive values. */
  function Differences(xs: seq<real>): (r: seq<real>)
    ensures |xs| < 2 ==> r == []
    ensures |xs| >= 2 ==> |r| == |xs| - 1
    ensures forall i :: 0 <= i < |r| ==> r[i] == xs[i + 1] - xs[i]
  {
    if |xs| < 2 then [] else seq(|xs| - 1, i requires 0 <= i < |xs| - 1 => xs[i + 1] - xs[i])
  }

  /** `_calculate_improvements`: the differences of consecutive history scores. */
  function Improvements(history: seq<OptimizationIteration>): seq<real>
  {
    Differences(ScoresOf(history))
  }

  /** The differences add up to the last value minus the first. */
  lemma {:induction false} DifferencesTelescope(xs: seq<real>)
    requires |xs| >= 1
    ensures Sum(Differences(xs)) == xs[|xs| - 1] - xs[0]
  {
    if |xs| >= 2 {
      var init := xs[..|xs| - 1];
      DifferencesTelescope(init);
      var a := Differences(xs);
      var b := Differences(init);
      assert |a| == |b| + 1;
      assert forall i :: 0 <= i < |b| ==> a[i] == b[i];
      assert a[..|a| - 1] == b;
      assert a[|a| - 1] == xs[|xs| - 1] - xs[|xs| - 2];
      assert Sum(a) == Sum(b) + a[|a| - 1];
    }
  }

  /** The improvements add up to the last history score minus the first. */
  lemma ImprovementsTelescope(history: seq<OptimizationIteration>)
    requires |history| >= 1
    ensures Sum(Improvements(history)) == history[|history| - 1].score - history[0].score
  {
    DifferencesTelescope(ScoresOf(history));
  }

  /** `_find_best_iteration`: the 1-based position of the first maximal score. */
  function FindBestIteration(history: seq<OptimizationIteration>): (r: Option<nat>)
    ensures r.None? <==> history == []
    ensures r.Some? ==> 1 <= r.value <= |history|
    ensures r.Some? ==> forall j :: 0 <= j < |history| ==> history[j].score <= history[r.value - 1].score
    ensures r.Some? ==> forall j :: 0 <= j < r.value - 1 ==> history[j].score < history[r.value - 1].score
  {
    if history == [] then None
    else
      var rest := FindBestIteration(history[1..]);
      if rest.None? || history[0].score >= history[rest.value].score then Some(1)
      else Some(rest.value + 1)
  }

  /** `_get_modified_agents`: every agent named by an applied suggestion. */
  function ModifiedAgents(history: seq<OptimizationIteration>): (r: set<string>)
    ensures forall id :: id in r <==>
      exists j, k :: 0 <= j < |history| && 0 <= k < |history[j].changedPrompts| &&
        history[j].changedPrompts[k].agentId == id
  {
    set j, k | 0 <= j < |history| && 0 <= k < |history[j].changedPrompts| :: history[j].changedPrompts[k].agentId
  }

  /** `_calculate_average_score`: the mean of the history scores and the final score. */
  function AverageScore(history: seq<OptimizationIteration>, finalScore: real): real
  {
    if history == [] then finalScore
    else (Sum(ScoresOf(history)) + finalScore) / (|history| as real + 1.0)
  }

  /** The average lies between the smallest and the largest of the scores it averages. */
  lemma AverageScoreBounds(history: seq<OptimizationIteration>, finalScore: real, lo: real, hi: real)
    requires lo <= finalScore <= hi
    requires forall j :: 0 <= j < |history| ==> lo <= history[j].score <= hi
    ensures lo <= AverageScore(history, finalScore) <= hi
  {
    if history != [] {
      var ys := ScoresOf(history) + [finalScore];
      assert ys[..|ys| - 1] == ScoresOf(history);
      MeanBounds(ys, lo, hi);
    }
  }

  function SumSquaredDeviations(xs: seq<real>, mean: real): real
  {
    if xs == [] then 0.0
    else SumSquaredDeviations(xs[..|xs| - 1], mean) + (xs[|xs| - 1] - mean) * (xs[|xs| - 1] - mean)
  }

  /** `_calculate_score_variance`: the population variance of the history scores and the final score. */
  function ScoreVariance(history: seq<OptimizationIteration>, finalScore: Option<real>): real
  {
    if history == [] then 0.0
    else
      var xs := ScoresOf(history) + (if finalScore.Some? then [finalScore.value] else []);
      if |xs| < 2 then 0.0
      else
        var mean := Sum(xs) / (|xs| as real);
        SumSquaredDeviations(xs, mean) / (|xs| as real)
  }

  lemma {:induction false} SumSquaredDeviationsNonNegative(xs: seq<real>, mean: real)
    ensures SumSquaredDeviations(xs, mean) >= 0.0
  {
    if xs != [] {
      SumSquaredDeviationsNonNegative(xs[..|xs| - 1], mean);
      var d := xs[|xs| - 1] - mean;
      assert d * d >= 0.0;
    }
  }

  /** The variance is never negative. */
  lemma ScoreVarianceNonNegative(history: seq<OptimizationIteration>, finalScore: Option<real>)
    ensures ScoreVariance(history, finalScore) >= 0.0
  {
    if history != [] {
      var xs := ScoresOf(history) + (if finalScore.Some? then [finalScore.value] else []);
      if |xs| >= 2 {
        SumSquaredDeviationsNonNegative(xs, Sum(xs) / (|xs| as real));
      }
    }
  }

  /** `_calculate_convergence_rate`: the change from the first to the last score per iteration. */
  function ConvergenceRate(history: seq<OptimizationIteration>): real
  {
    if |history| < 2 then 0.0
    else (history[|history| - 1].score - history[0].score) / (|history| as real)
  }

  /** The convergence rate is the sum of the improvements spread over the iterations. */
  lemma ConvergenceRateFromImprovements(history: seq<OptimizationIteration>)
    requires |history| >= 2
    ensures ConvergenceRate(history) == Sum(Improvements(history)) / (|history| as real)
  {
    ImprovementsTelescope(history);
  }

  /** `_calculate_llm_success_rate`: two successful calls per completed iteration over all attempts. */
  function LlmSuccessRate(iterationsRun: nat, failures: nat): (rate: real)
    ensures 0.0 <= rate <= 1.0
    ensures rate == 1.0 <==> failures == 0
    ensures iterationsRun == 0 && failures > 0 ==> rate == 0.0
  {
    var total := iterationsRun * 2 + failures;
    if total == 0 then 1.0
    else (iterationsRun * 2) as real / total as real
  }
}
