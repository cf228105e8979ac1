# Agent-workflow prompt optimizer and its framework utilities, in Dafny

This project models the core of the agentic_exps repository in Dafny and proves properties of that model. It has one module per source file.

**The prompt optimizer.** The optimizer takes a multi-agent workflow configuration, runs it, lets a critic score the output against the expected output, and lets a suggester rewrite the agents' instructions until the score converges or stops improving. It is modelled in these modules:
- `OptimizerTypes`: the records, the prompt update and extraction over the configuration tree, and the scoring metrics.
- `Updater`: applying suggestions with a history, structural validation with circular-reference detection, and the prompt difference.
- `Optimizer`: the optimization loop and its report helpers.
- `Critic`: backup metrics, aggregation, reply normalisation and the mock evaluation.
- `Suggester`: keyword rewrites, reply filtering, the mock suggestions, and de-duplication with ranking.
- `Trace` and `Runner`: trace extraction and the runner's result handling.

**The framework utilities.** These modules model:
- template variables (`TemplateProcessor`);
- agent metadata (`AgentMetadataCollector`);
- attaching files to instructions (`PromptUtils`);
- agent statistics and the depth-first step walk (`AgentUtils`);
- input-file grouping (`WorkflowConfiguration`);
- the text-to-markdown shaping of the document reader (`DocumentReader`);
- the markdown-table detection and cell wrapping (`MarkdownTableConverter`);
- the pydantic configuration models and the hierarchy check (`AgentConfigModels`);
- the function-tool registry (`Registry`);
- the deterministic parts of the financial tools (`FinancialTools`);
- the two ADK model wrappers, over LangChain (`LangChainWrapper`) and over an OpenAI client (`OpenAiWrapper`).

**Shared modules.**
- `Wrappers`: `Option` and `Result`.
- `Text`: the Python string operations used.
- `Json`: JSON values and the bracket span cut from a model reply.
- `Stats`: sums, extremes and sorting of scores.
- `Dicts`: insertion-ordered dictionaries.
- `Paths`: `pathlib` joins and suffixes.
- `AgentConfig`: the agent configuration dictionary as a tree whose keys may be absent.
- `AdkTypes`: the ADK content and declaration types.

**How the code's behaviour is represented.**
- Objects whose fields the source updates in place are classes with `modifies` clauses: the prompt updater, the optimizer, the workflow configuration and the tool registry.
- Loops are methods proved against a function that specifies them.
- Language models, workflow execution, HTTP, the clock, the file system, `json.loads`/`json.dumps`, `str()` and regular-expression scans are parameters. An oracle function or a `Host` record supplies them.
- Python floats are modelled as reals.
- Exceptions the source raises and catches are modelled by the result the catching code produces.

Where the code and its own documentation or tests disagree, the model follows the code:
- `collect_agent_execution_steps` returns a list, although some tests index the steps by name.
- optimizer.py reads names that agent_optimizer/types.py does not define: `LLMServiceError`, `max_llm_retries_per_iteration`, the `llm_*` counters and `current_prompts`. The model declares them with the meaning their use in optimizer.py gives them.
- The nested-hierarchy test in tests/test_data_models.py:214-264 expects a deep-nesting warning that the code as written cannot produce (see Findings).

## Model

| member | source | states |
|---|---|---|
| OptimizerTypes.PostInit | agent_optimizer/types.py:134-148 | the input is accepted exactly when it has pairs or both a single input and an expected output; accepted input always has pairs, existing pairs are kept as given, otherwise one pair of the single input and output with weight 1.0 is made |
| OptimizerTypes.UpdateNodeSpec | agent_optimizer/types.py:155-174 | the update reports success exactly when some agent has the name; only the first such agent in pre-order gets the new instruction, every other agent is unchanged, and a missing name leaves the configuration as it was |
| OptimizerTypes.ExtractAgentPromptsSpec | agent_optimizer/types.py:175-191 | a name is a key exactly when some agent of that name has an instruction, and its value is the instruction of the last such agent in pre-order |
| OptimizerTypes.UpdateThenExtract | agent_optimizer/types.py:155-191 | updating an agent that is named once makes its extracted prompt the new one, and every other agent's prompt keeps its presence and value |
| OptimizerTypes.ExtractRaisesSpec | agent_optimizer/types.py:175-188 | reading the prompts raises exactly when some node's sub_agents value raises when looped over; a tree that reads is traversable, and a traversable tree without a raising dictionary key reads |
| OptimizerTypes.UpdateKeepsExtractRaises | agent_optimizer/types.py:155-188 | updating a prompt never changes whether reading the prompts raises, nor its text |
| OptimizerTypes.CharacterNeverRaises | agent_optimizer/types.py:179-185 | a one-character string, as a loop over a string sub_agents yields, never makes the prompt walk raise |
| OptimizerTypes.WeightedAverageOf | agent_optimizer/types.py:200-218 | the loop returns the weighted sum of the named metrics over their total weight (default weights when none are given), or 0.0 when the total weight is not positive |
| OptimizerTypes.WeightedAverageInUnitRange | agent_optimizer/types.py:200-218 | with non-negative weights and metrics in [0, 1], the weighted average lies in [0, 1] |
| Updater.ApplyAllSpec | agent_optimizer/updater.py:39-84 | the applied suggestions are a subsequence of the considered ones, in order, and each recorded change pairs an applied suggestion with its old and new prompt |
| Updater.ApplyOneNamedOnce | agent_optimizer/updater.py:52-76 | for an agent named once in a traversable tree, after one suggestion its extracted prompt is the new one, and the suggestion counts as applied exactly when that prompt differed before |
| Updater.ApplyOneMissing | agent_optimizer/updater.py:52-80 | a suggestion for a name no agent carries changes nothing and is not applied |
| Updater.ApplyAllUnreadable | agent_optimizer/updater.py:49-84 | when reading the prompts raises (a sub_agents value that is None, a boolean or a number, or a dictionary with a key the walk indexes), every suggestion is skipped and the configuration comes back unchanged with nothing applied |
| Updater.ApplyOneReads | agent_optimizer/updater.py:52-76 | on a tree that reads and updates without raising (a string or a dictionary sub_agents included), a suggestion gives the updated configuration, and a change with the old and new prompt exactly when they differ |
| Updater.PromptUpdater.ApplySuggestions | agent_optimizer/updater.py:22-93 | returns the configuration and the applied suggestions of the first max_suggestions (when that is truthy) suggestions, and appends one history record holding the changes and both counts |
| Updater.RequiredFieldErrors | agent_optimizer/updater.py:144-147 | no error exactly when the agent has name, class and module |
| Updater.StructureErrorsSpec | agent_optimizer/updater.py:136-161 | the structure check reports nothing exactly when every agent of the tree has its required fields |
| Updater.PromptKeyOrder | agent_optimizer/updater.py:117-121 | the keys checked are exactly the names that carry a prompt |
| Updater.EmptyPromptErrors | agent_optimizer/updater.py:117-121 | no error exactly when every extracted prompt is non-blank after stripping |
| Updater.CircularCheckSpec | agent_optimizer/updater.py:163-182 | when the check does not raise, it reports nothing exactly when no root-to-agent path of names repeats a name |
| Updater.CircularCheckSound | agent_optimizer/updater.py:163-182 | on a tree whose every sub_agents value is a list or missing, the circular-reference check never raises |
| Updater.ValidateConfiguration | agent_optimizer/updater.py:95-134 | the configuration is valid exactly when no error is reported; a value that is not a dictionary gives the single error "Configuration must be a dictionary"; when reading the prompts raises, the errors are the required-field and structure errors followed by "Configuration validation error: " and Python's text for that exception |
| Updater.ValidateConfigurationSpec | agent_optimizer/updater.py:95-182 | a dictionary configuration is valid exactly when the root has name, class and module, every named agent has class and module, every sub_agents value is a list or missing, every prompt is non-blank and no name repeats along a path |
| Updater.PromptDiffSelf | agent_optimizer/updater.py:184-215 | a configuration compared with itself has no differences |
| Updater.PromptDiffAfterUpdate | agent_optimizer/updater.py:184-215 | after changing the prompt of an agent named once, the diff holds exactly that agent with its old and new prompt |
| Optimizer.CountFailure | agent_optimizer/optimizer.py:139-146 | a failed LLM attempt adds one failure and at most one service or format error |
| Optimizer.RetrySpec | agent_optimizer/optimizer.py:102-169 | the retry loop adds at most the remaining retries to the failure count, classified errors never exceed the added failures, and the termination reason changes only when the retries run out |
| Optimizer.OptimizeHistory | agent_optimizer/optimizer.py:34-309 | one history entry per iteration run, numbered from 1, at most max_iterations of them, each recording the prompts of the configuration evaluated in that iteration |
| Optimizer.OptimizeBest | agent_optimizer/optimizer.py:196-241 | unless the run failed, the final score is the maximum evaluated score and the final configuration is the best one, every history score being at most the final score; a failed run has score 0.0 |
| Optimizer.OptimizeTermination | agent_optimizer/optimizer.py:221-307 | the run ends with an error message, convergence (exactly when the last score reached the threshold), a plateau after enough iterations without improvement, exhausted LLM retries or the iteration limit |
| Optimizer.OptimizeRetries | agent_optimizer/optimizer.py:102-169 | the LLM failure count is bounded by the retries allowed per iteration, and service plus format errors never exceed it |
| Optimizer.OptimizeSuggestions | agent_optimizer/optimizer.py:244-290 | each iteration applies at most three suggestions, drawn in order from those generated, and the last iteration generates and applies none |
| Optimizer.SuggestionStepSpec | agent_optimizer/optimizer.py:270-287 | the step records the generated suggestions and at most three applied ones, in order; the updated configuration replaces the current one exactly when `validate_configuration` accepts it, with its applied suggestions recorded, and otherwise the current configuration stays and nothing is recorded as applied |
| Optimizer.OptimizeValidated | agent_optimizer/optimizer.py:279-287 | every configuration the run evaluates, and the one it returns, is the input configuration or one `validate_configuration` accepts |
| Optimizer.OptimizeUpdates | agent_optimizer/optimizer.py:244-290 | every batch of suggestions applied leaves a sound update record, one per iteration at most |
| Optimizer.UpdateRecordSound | agent_optimizer/optimizer.py:262-270 | applying a non-empty batch records as many considered suggestions as given and never more applied than considered |
| Optimizer.AgentOptimizer.OptimizeWorkflow | agent_optimizer/optimizer.py:34-309 | the loop returns the result of the iteration-by-iteration specification and appends to the prompt updater's history exactly the records of the batches it applied |
| Optimizer.DifferencesTelescope | agent_optimizer/optimizer.py:494-504 | the successive score differences add up to the last score minus the first |
| Optimizer.ImprovementsTelescope | agent_optimizer/optimizer.py:494-504 | the improvements of a non-empty history add up to the last score minus the first |
| Optimizer.FindBestIteration | agent_optimizer/optimizer.py:506-516 | none exactly for an empty history; otherwise the 1-based number of the first iteration with the highest score |
| Optimizer.ModifiedAgents | agent_optimizer/optimizer.py:518-526 | exactly the agents named by some applied suggestion of some iteration |
| Optimizer.AverageScoreBounds | agent_optimizer/optimizer.py:528-534 | the average score lies between any bounds that hold for every history score and the final score |
| Optimizer.ScoreVarianceNonNegative | agent_optimizer/optimizer.py:536-551 | the score variance is never negative |
| Optimizer.ConvergenceRateFromImprovements | agent_optimizer/optimizer.py:553-563 | with two or more iterations the convergence rate is the sum of the improvements over the number of iterations |
| Optimizer.LlmSuccessRate | agent_optimizer/optimizer.py:565-573 | the success rate lies in [0, 1], is 1 exactly when there were no failures, and is 0 when failures occurred with no iteration run |
| Critic.WordOverlap | agent_optimizer/critic.py:194-203 | the overlap lies in [0, 1]; it is 1 exactly when the expected words are non-empty and all occur in the output, and 0 exactly when the two word sets share nothing |
| Critic.OverlapRatio | agent_optimizer/critic.py:194-203 | the shared-word ratio over a non-empty expected word set is in [0, 1], 1 exactly for containment and 0 exactly for disjoint sets |
| Critic.BleuLike | agent_optimizer/critic.py:205-224 | the score lies in [0, 1] and is 1 exactly when the expected text has words, the output is at least as long, and every output word occurs in the expected words |
| Critic.BleuLikeScore | agent_optimizer/critic.py:205-224 | the counting loop computes the BLEU-like score |
| Critic.RougeLike | agent_optimizer/critic.py:226-235 | the ROUGE-like score is the word overlap of the same texts |
| Critic.MetricsOfIdenticalText | agent_optimizer/critic.py:194-235 | a text with words compared with itself scores 1 on word overlap, ROUGE and BLEU |
| Critic.CalculateMetrics | agent_optimizer/critic.py:176-192 | exact match is 1 exactly when the stripped texts agree and 0 otherwise; similarity, BLEU and ROUGE lie in [0, 1]; ROUGE equals the similarity and the custom score is 0 |
| Critic.CombineScores | agent_optimizer/critic.py:237-253 | the combined score is clamped into [0, 1] |
| Critic.CombineUnclamped | agent_optimizer/critic.py:237-253 | with every input in [0, 1] the clamp never applies and the result is the 0.3/0.2/0.2/0.3 weighted sum |
| Critic.CombineMonotone | agent_optimizer/critic.py:237-253 | a higher LLM score never gives a lower combined score |
| Critic.AggregateScores | agent_optimizer/critic.py:425-463 | no scores aggregate to 0.0 |
| Critic.AggregateWithinExtremes | agent_optimizer/critic.py:425-463 | every strategy (weighted average with non-negative weights, average, median, minimum, maximum) yields a value between the smallest and the largest score |
| Critic.AggregateOrdering | agent_optimizer/critic.py:425-463 | minimum ≤ average ≤ maximum and minimum ≤ median ≤ maximum |
| Critic.WeightedFallsBackToAverage | agent_optimizer/critic.py:435-441 | with total weight 0 the weighted average is the plain average |
| Critic.UniformWeightsGiveAverage | agent_optimizer/critic.py:435-441 | equal positive weights give the plain average |
| Critic.AggregateMetricsKeys | agent_optimizer/critic.py:465-483 | no maps give the zero metrics; otherwise the keys are the union of the maps' keys |
| Critic.AggregateMetricsBounds | agent_optimizer/critic.py:465-483 | averaging metrics that lie in [0, 1] keeps every value in [0, 1] |
| Critic.AggregateSingleMap | agent_optimizer/critic.py:465-483 | a single metrics map aggregates to itself |
| Critic.NormaliseEvaluation | agent_optimizer/critic.py:339-363 | the reply gets the clamped score; its feedback is kept, or taken from "feedback", or "No feedback provided" with no agent feedback; every other key is kept and nothing else is added |
| Critic.ParseEvaluationResponse | agent_optimizer/critic.py:317-373 | a reply is accepted exactly when the text from its first '{' to its last '}' parses to an object whose score reads as a float in [0, 1]; without braces it is rejected; an accepted reply is normalised around that score |
| Critic.MockLlmEvaluation | agent_optimizer/critic.py:375-404 | the mock reply scores the word overlap and carries one feedback item for a low overlap and one for a too-brief output, each for agent "unknown" |
| Critic.MockOfExactReply | agent_optimizer/critic.py:375-404 | an output equal to the expected text scores 1.0 with no agent feedback |
| Critic.LlmEvaluate | agent_optimizer/critic.py:255-315 | the evaluation always has a score in [0, 1], global and agent feedback; without an LLM reply it is the mock evaluation |
| Critic.ExtractAgentFeedback | agent_optimizer/critic.py:406-423 | one feedback per dictionary item, in order, built as `FeedbackOf` builds it; non-dictionary items are skipped, so a list of them gives none |
| Critic.FeedbackOf | agent_optimizer/critic.py:416-421 | each of agent_id, issue, evidence and suggested_fix keeps its value as it is, of whatever type; a missing one gets "unknown", "", "" and None |
| Critic.ExtractAgentFeedbackOf | agent_optimizer/critic.py:406-423 | the loop collects exactly that feedback |
| Critic.EvaluateOutput | agent_optimizer/critic.py:30-86 | the score lies in [0, 1]; agent feedback that cannot be iterated (None, a boolean or a number) gives the failed evaluation with Python's "'<type>' object is not iterable" text; otherwise the metrics are those of the two texts; without an LLM the score is the word overlap |
| Critic.PairFeedbackSpec | agent_optimizer/critic.py:136-149 | the combined agent feedback has one entry per feedback of each pair, each traceable to its pair |
| Critic.ForPair | agent_optimizer/critic.py:143-148 | a pair's copy of a feedback has an agent id ending in "_pair" and the pair number, and keeps issue, evidence and suggested fix unchanged |
| Critic.EvaluateMultiple | agent_optimizer/critic.py:88-174 | an error exactly when outputs and pairs differ in number, with the source's "Mismatch" message |
| Critic.CombineResultsSpec | agent_optimizer/critic.py:127-174 | combining per-pair results with non-negative weights gives a score in [0, 1] and every pair's feedback |
| Critic.EvaluateMultipleSpec | agent_optimizer/critic.py:88-174 | for matching non-empty inputs the evaluation succeeds, its score lies in [0, 1], and it carries every pair's agent feedback |
| Critic.EvaluateMultipleOutputs | agent_optimizer/critic.py:88-174 | the per-pair loop computes that evaluation |
| Suggester.ClassifyFirstMatch | agent_optimizer/suggester.py:345-384 | the rewrite chosen for an issue is the first keyword group, in the source's order, that the lower-cased issue mentions, and the generic note only when none matches |
| Suggester.ClassifyIgnoresCase | agent_optimizer/suggester.py:357-384 | lower-casing the issue first does not change the rewrite chosen |
| Suggester.ImprovePrompt | agent_optimizer/suggester.py:417-465 | the improved prompt starts with the right-stripped current prompt and the rewrite's header, and ends with the rewrite's addition |
| Suggester.ImproveIgnoresTrailingSpace | agent_optimizer/suggester.py:417-465 | trailing whitespace on the current prompt does not change the improved prompt |
| Suggester.ImproveKeepsPrompt | agent_optimizer/suggester.py:417-465 | the improved prompt is longer than the stripped prompt and keeps it as its prefix; only whitespace was removed |
| Suggester.SpecificSuggestion | agent_optimizer/suggester.py:345-384 | a feedback-driven suggestion targets the given agent with confidence 0.8 |
| Suggester.AgentSpecificSpec | agent_optimizer/suggester.py:317-343 | every suggestion names an agent that has a prompt and has confidence 0.8; there is exactly one per actionable feedback (a string agent id with a prompt and a string issue), so one per feedback when all are actionable and none when no issue is a string, as `.lower()` raises on the others |
| Suggester.FeedbackSuggestionShape | agent_optimizer/suggester.py:327-341 | one feedback gives one suggestion, for an agent with a prompt and with confidence 0.8, exactly when it is actionable, and none otherwise |
| Suggester.GenerateAgentSpecificSuggestions | agent_optimizer/suggester.py:317-343 | the call raises exactly when some agent id is a list or a dictionary, with the text for the first one; otherwise the loop computes those suggestions |
| Suggester.ErrorSuggestionShape | agent_optimizer/suggester.py:467-483 | the error-handling suggestion targets the agent with confidence 0.7 and appends the error-handling text after the stripped prompt and a newline |
| Suggester.LengthSuggestionShape | agent_optimizer/suggester.py:485-501 | the output-length suggestion targets the agent with confidence 0.6 and appends the length text after the stripped prompt and a newline |
| Suggester.TraceSuggestionsSpec | agent_optimizer/suggester.py:386-415 | every trace-based suggestion comes from a trace of an agent with a prompt, because of an error or an output shorter than 100 characters (suggester.py:408) |
| Suggester.GenerateTraceSuggestions | agent_optimizer/suggester.py:386-415 | the loop over the agent traces computes those suggestions |
| Suggester.DeduplicateAndRankShape | agent_optimizer/suggester.py:503-525 | the result names each agent of the input exactly once and is sorted by descending confidence |
| Suggester.DeduplicateAndRankChoice | agent_optimizer/suggester.py:503-525 | each kept suggestion is the earliest of its agent's most confident suggestions |
| Suggester.DeduplicateAndRankSuggestions | agent_optimizer/suggester.py:503-525 | the dictionary loop and the sort compute that ranking |
| Suggester.NumbersNeverRaise | agent_optimizer/suggester.py:503-525 | ranking never raises when every LLM confidence is a number |
| Suggester.RankingRaisesWithOthers | agent_optimizer/suggester.py:503-525 | next to the numeric feedback and trace candidates, ranking raises exactly when some LLM confidence is not a number |
| Suggester.UnorderedConfidenceRaises | agent_optimizer/suggester.py:503-525 | with two or more candidates, a None or dictionary confidence makes ranking raise |
| Suggester.StringsNeverRaise | agent_optimizer/suggester.py:503-525 | LLM candidates alone whose confidences are all strings are ordered without raising |
| Suggester.ListsOfOneKindNeverRaise | agent_optimizer/suggester.py:503-525 | LLM candidates alone whose confidences are all lists holding, place by place, numbers alike or strings alike are ordered without raising, as Python compares lists item by item |
| Suggester.UnorderableListsRaise | agent_optimizer/suggester.py:503-525 | two candidates with confidences `[1]` and `["a"]` make ranking raise, since Python meets 1 and "a" at the first place; `[1]` and `[1, "a"]` compare, by length |
| Suggester.MockNeverRaises | agent_optimizer/suggester.py:527-553 | the mock suggestions never make ranking raise |
| Suggester.CompleteItemsDrawn | agent_optimizer/suggester.py:613-627 | every suggestion kept from a reply is one of its dictionary items that has agent_id, new_prompt and reason, with confidence 0.7 added when missing |
| Suggester.ParseLlmResponse | agent_optimizer/suggester.py:597-641 | a reply without a '[' … ']' span gives no suggestions, and every suggestion kept has agent_id, new_prompt, reason and a confidence |
| Suggester.ParseKeepsCompleteList | agent_optimizer/suggester.py:597-641 | a reply whose list items all have the three required fields and a string reason keeps every item |
| Suggester.ParseSuggestionItems | agent_optimizer/suggester.py:613-627 | the loop keeps the complete items, or none when logging a reason raises |
| Suggester.MockLlmSuggestions | agent_optimizer/suggester.py:527-553 | below score 0.5 one suggestion per agent prompt, in order, with confidence 0.6 and a new prompt extending the old; none otherwise |
| Suggester.MockSuggestions | agent_optimizer/suggester.py:527-553 | the loop computes those mock suggestions |
| Suggester.RealLlmSuggestions | agent_optimizer/suggester.py:555-595 | every suggestion has the required fields and a confidence, and a low score with prompts always yields some (the mock ones when there is no reply) |
| Suggester.GlobalSuggestions | agent_optimizer/suggester.py:265-315 | without an LLM every suggestion names an agent with a prompt and has confidence 0.6; a low score with prompts always yields suggestions |
| Suggester.GenerateSuggestionsSpec | agent_optimizer/suggester.py:31-83 | the suggestions name distinct agents in descending confidence; the call raises and gives none when the global feedback is not a string, an agent id cannot be hashed, or two confidences cannot be compared as Python compares them, numbers, strings and lists item by item (`Suggester.RankingRaises`); without an LLM it raises exactly in the first two cases, and every suggestion names an agent with a prompt; a low score with prompts yields some unless it raises |
| Suggester.AggregatedFields | agent_optimizer/suggester.py:244-263 | a reply without braces becomes its own global feedback with no agent feedback |
| Suggester.AggregateAcrossPairs | agent_optimizer/suggester.py:159-242 | an aggregate exists exactly when there are evaluations; its score is their mean, and without a usable reply it holds the combined feedback text and all agent feedback |
| Suggester.SuggestionsForPairs | agent_optimizer/suggester.py:85-157 | no evaluations give no suggestions, and a single evaluation is handled exactly as generate_suggestions with its trace |
| Suggester.SuggestionsForPairsRanked | agent_optimizer/suggester.py:85-157 | the suggestions for several pairs name distinct agents in descending confidence |
| Suggester.RawFeedbackNeverRead | agent_optimizer/suggester.py:120-157 | when the aggregate holds raw dictionaries from the LLM, reading their attributes raises unless the feedback is empty, giving no suggestions, and otherwise only LLM suggestions survive |
| Suggester.RawCombinedSpec | agent_optimizer/suggester.py:120-157 | suggestions built from the raw fields of an aggregate are none unless the agent feedback is an empty string, list or dictionary and the global feedback is a string, and every suggestion kept is one of the LLM suggestions for the aggregate's score |
| Trace.SplitResponse | agent_optimizer/trace.py:85-93 | the content found is a suffix of the response, at least eight characters shorter, and nothing is found when the response lacks " %% (" |
| Trace.OutputData | agent_optimizer/trace.py:80-93 | the output is always a suffix of the response, and the whole response when it lacks " %% (" |
| Trace.OutputDataOfFormatted | agent_optimizer/trace.py:85-93 | for a response "name %% (timestamp): content" with no '%' in the name and no ')' in the timestamp, the output is exactly the content |
| Trace.ErrorNeedsKeyword | agent_optimizer/trace.py:95-97 | a response that mentions neither "error" nor "failed" in any case gets no error |
| Trace.CreateAgentTrace | agent_optimizer/trace.py:72-111 | the trace carries the agent's name and prompt, no input or timing, the extracted output, and an error only when the response mentions an error or a failure |
| Trace.RecordResponses | agent_optimizer/trace.py:50-54 | the loop stores one trace per leading string response and stops exactly when it meets a response that is not a string |
| Trace.FinalOutput | agent_optimizer/trace.py:139-151 | results without execution_results give the empty join |
| Trace.StringResponsesOfStrings | agent_optimizer/trace.py:143-149 | when every response is a string, all of them are joined, whole and in order |
| Trace.RecordAllSpec | agent_optimizer/trace.py:50-54 | with distinct agent names and string responses, one trace per entry in entry order, each built from that entry |
| Trace.OneTracePerEntry | agent_optimizer/trace.py:28-70 | for a traversable configuration and string responses, the trace has one entry per agent result with that agent's prompt and output, the run's execution time, and the responses joined by blank lines as final output |
| Trace.NotTraversableTrace | agent_optimizer/trace.py:43-70 | when some sub_agents value cannot be iterated (None, a boolean or a number), reading the prompts raises and the empty trace is returned |
| Trace.NonStringStopsTrace | agent_optimizer/trace.py:43-70 | a response that is not a string raises inside the loop: only the traces before it are kept, with no time or final output |
| Trace.ExtractTraceFromResults | agent_optimizer/trace.py:28-70 | the method never raises and builds exactly that trace |
| Runner.UpdateJobConfigWithInput | agent_optimizer/runner.py:154-171 | succeeds exactly when analysis_config is missing or a dictionary, and otherwise fails with Python's item-assignment text for that value's type; on success analysis_config is added if needed, its template_config_content is the input template holding the input text as user query, and every other key is kept |
| Runner.PrepareJobConfig | agent_optimizer/runner.py:55-57 | a job that already has template_config_content is run as it is, and a job without analysis_config gets the input |
| Runner.LacksTemplate | agent_optimizer/runner.py:56 | the template test fails exactly for an analysis_config that cannot be searched (None, a boolean or a number), with Python's "argument of type '<type>' is not iterable" text |
| Runner.PrepareJobConfigIdempotent | agent_optimizer/runner.py:55-57 | preparing a prepared job again changes nothing, so the input goes in at most once |
| Runner.DefaultJobIgnoresInput | agent_optimizer/runner.py:98-141 | the default job already has an empty template_config_content, so its input is never placed into it |
| Runner.ExtractOutput | agent_optimizer/runner.py:173-190 | without execution_results the output is the str() of the results, and a non-dictionary gives its own str() |
| Runner.OutputBlocksInOrder | agent_optimizer/runner.py:173-190 | each agent's "[name]" block appears whole in the output, in key order, two characters (a blank line) after the previous one |
| Runner.RecordParsedSpec | agent_optimizer/runner.py:192-215 | after recording, an agent's trace comes from the last of its string responses of the " %% (" … "): " shape, holding exactly the content after it; agents without one keep their trace |
| Runner.RecordParsedDistinct | agent_optimizer/runner.py:192-215 | recording keeps the agent names of the trace distinct |
| Runner.VisitAllFromEmpty | agent_optimizer/runner.py:217-230 | the recursive visit collects the same prompts as the configuration helper |
| Runner.VisitItems | agent_optimizer/runner.py:225-227 | the loop over a sub_agents value that is not a list raises exactly when the value is None, a boolean or a number, or a dictionary with a key the walk indexes, with Python's text; a string never raises |
| Runner.ExtractRecursive | agent_optimizer/runner.py:220-227 | visiting an agent raises the first exception of its pre-order walk and otherwise adds the prompts the configuration helper collects |
| Runner.ExtractAll | agent_optimizer/runner.py:225-227 | the loop over a sub_agents list stops at the first sub-tree that raises, and otherwise collects the prompts of every sub-tree in order |
| Runner.WorkflowRunner.GetAgentPrompts | agent_optimizer/runner.py:217-230 | the prompts equal extract_agent_prompts (a later name overwriting an earlier one) whenever the walk does not raise, a string or dictionary sub_agents included; otherwise the call fails with the walk's exception text |
| Runner.WorkflowRunner.ExtractAgentTracesFromResults | agent_optimizer/runner.py:192-215 | without a current trace nothing changes; a non-dictionary execution_results raises; otherwise each parsed response updates its agent's trace and nothing else changes |
| TemplateProcessor.Contribution | utils/template_processor.py:87-104 | a variable that is visible in the scope contributes its default ('' when unset, the value itself for a plain value) |
| TemplateProcessor.PrepareVariables | utils/template_processor.py:66-112 | every additional variable appears with its own value; any other name appears exactly when the scope holds it |
| TemplateProcessor.PrepareTemplateVariables | utils/template_processor.py:66-112 | the loop over the template variables builds exactly those variables |
| TemplateProcessor.ScopedSpec | utils/template_processor.py:87-104 | with distinct names, a variable is in a scope exactly when its configuration is visible there, with its default as value, and only configured names appear |
| TemplateProcessor.GlobalScopeKeys | utils/template_processor.py:115-125 | the global scope holds exactly the dictionary variables whose apply_to_instructions is truthy |
| TemplateProcessor.ScopesPartition | utils/template_processor.py:115-138 | the global and local scopes are disjoint and together make up scope all, with the same values |
| TemplateProcessor.VariableInfoSpec | utils/template_processor.py:337-369 | the report covers exactly the configured names and describes each by its own configuration |
| TemplateProcessor.GetTemplateVariableInfo | utils/template_processor.py:337-369 | the loop builds exactly that report |
| TemplateProcessor.VariableInfoMatchesScopes | utils/template_processor.py:337-369 | the report agrees with the scopes: same names, scope "global" exactly for the global-scope variables, and the same defaults; the scopes are those `get_global_template_variables` and `get_local_template_variables` compute through `prepare_template_variables` (lines 66-138) |
| TemplateProcessor.RenderField | utils/template_processor.py:170-198 | an absent field stays absent, and a field without a template marker is left as it was |
| TemplateProcessor.ApplyTemplatesLabels | utils/template_processor.py:141-212 | rendering keeps the shape of the tree and visits every agent: in pre-order, each node of the result is the corresponding node with its three text fields rendered |
| TemplateProcessor.NoTemplatesNoChange | utils/template_processor.py:141-212 | an agent none of whose text fields holds a template marker comes back unchanged |
| TemplateProcessor.VariablesUsedSpec | utils/template_processor.py:269-307 | a name is reported used exactly when some agent of the tree mentions it in its instruction, description or global instruction |
| AgentMetadataCollector.TruncateTextToWordsSpec | utils/agent_metadata_collector.py:33-52 | empty text stays empty, text within the limit is returned as it is, and longer text keeps its first words with "..." on the last kept word ("..." alone for a zero limit), never more words than the limit |
| AgentMetadataCollector.TruncateTextToWordsIdempotent | utils/agent_metadata_collector.py:33-52 | truncating a truncated text changes nothing |
| AgentMetadataCollector.TruncatedIffOverLimit | utils/agent_metadata_collector.py:33-52 | with a positive limit the text changes exactly when it has more words than the limit |
| AgentMetadataCollector.AttachedFileSpec | utils/agent_metadata_collector.py:55-95 | a matched block gives an entry exactly when its stripped start and end names agree; the entry's length is that of the decoded content, and it is flagged truncated exactly when the preview differs, that is when the content has more than the preview's words |
| AgentMetadataCollector.AttachedFilesSpec | utils/agent_metadata_collector.py:55-95 | every entry comes from a block whose names agree, every such block gives its entry, and there are never more entries than blocks |
| AgentMetadataCollector.ExtractAttachedFilesFromInstruction | utils/agent_metadata_collector.py:55-95 | the loop over the matched blocks collects exactly those entries |
| AgentMetadataCollector.CollectAgentMetadata | utils/agent_metadata_collector.py:138-203 | the record takes name, class and instruction with the source's defaults, one tool entry per tool and one sub-record per sub-agent, in order |
| AgentMetadataCollector.AgentMetadataToDict | utils/agent_metadata_collector.py:206-231 | the dictionary keeps name and type, replaces the instruction by its word-truncated preview, and keeps one entry per sub-agent |
| AgentMetadataCollector.MaxDepthOfMetadata | utils/agent_metadata_collector.py:288-294 | the maximum depth of the collected metadata is the depth of the configuration tree |
| AgentMetadataCollector.FlattenFollowsConfig | utils/agent_metadata_collector.py:250-261 | the flattened metadata lists the configuration's agents in pre-order, one entry per agent, with its name, type and sub-agent count |
| AgentMetadataCollector.FlattenSubAgentCounts | utils/agent_metadata_collector.py:250-261 | every entry but the first is counted once among its parent's sub-agents |
| AgentMetadataCollector.FlattenParents | utils/agent_metadata_collector.py:250-261 | the first entry has the given parent, and every later entry names as parent an earlier entry that has sub-agents |
| AgentMetadataCollector.TypesOfViews | utils/agent_metadata_collector.py:268-271 | entries that read as the configuration's agents have their class names, one per agent |
| AgentMetadataCollector.CollectAllAgentsMetadata | utils/agent_metadata_collector.py:234-285 | the root record, the pre-order list of all agents, and a summary whose agent total is the number of agents, whose type counts tally the agents' classes and add up to that total, and whose depth is the tree's depth |
| PromptUtils.EscapeRemovesBrackets | utils/prompt_utils.py:34-37 | escaped file content holds no '{', '}', '[' or ']' |
| PromptUtils.EscapeIsEscapedWith | utils/prompt_utils.py:34-37 | the four chained replacements equal a single left-to-right pass replacing each bracket by its entity |
| PromptUtils.DecodeEscapeRoundTrip | utils/prompt_utils.py:34-37 | for content that contains none of the four entity strings, decoding the entities as the metadata collector does gives the original content back |
| PromptUtils.BuildAdditionalContent | utils/prompt_utils.py:28-40 | the loop over the files builds exactly the block to append |
| PromptUtils.SectionMarkers | utils/prompt_utils.py:32-40 | each file's section starts with its "--- Content from" marker and ends with its "--- End of" marker |
| PromptUtils.AppendedBlockLayout | utils/prompt_utils.py:28-40 | the block starts with the "Focus on the content from the following files" header, then every file's section appears whole, in file order, each right after the previous |
| PromptUtils.AppendNodeIsUpdate | utils/prompt_utils.py:24-54 | appending to the first agent of that name is the prompt update with the instruction extended by the block |
| PromptUtils.AppendNodeSpec | utils/prompt_utils.py:24-54 | reports found exactly when some agent has the target name; only the first such agent in pre-order changes, its instruction ('' when absent or empty) extended by the block; otherwise the configuration is unchanged |
| PromptUtils.AppendContentToAgentConfig | utils/prompt_utils.py:12-54 | the method appends the files' block to the target agent as specified |
| AgentUtils.Preorder | utils/agent_utils.py:88-101 | the walk starts at the agent itself |
| AgentUtils.CountRecursive | utils/agent_utils.py:88-101 | the recursive count adds the statistics of the agent and each sub-agent's tree, in pre-order |
| AgentUtils.GetAgentStatistics | utils/agent_utils.py:70-106 | the statistics are those of every agent of the tree, counted from zero |
| AgentUtils.StatisticsSpec | utils/agent_utils.py:70-106 | the total is the number of agents, the per-type counts tally the class names and add up to the total, composite agents are the Sequential, Parallel and Loop agents, and the instruction and tool counts never exceed the total |
| AgentUtils.VisitFromNew | utils/agent_utils.py:166-196 | every object is visited at most once, and the visits are exactly the objects the walk newly marks |
| AgentUtils.VisitFromClosed | utils/agent_utils.py:166-196 | the walk marks the agent it starts from, and every sub-agent of a newly marked agent ends up marked |
| AgentUtils.VisitFromSound | utils/agent_utils.py:166-196 | every newly marked agent is reachable from the starting agent |
| AgentUtils.VisitsAreReachable | utils/agent_utils.py:133-202 | from the root, the steps name distinct objects, and an object gets a step exactly when it is reachable through sub_agents, cycles and shared sub-agents included |
| AgentUtils.DfsCollectAgents | utils/agent_utils.py:166-196 | the recursive walk appends the numbered steps of its visits and marks exactly the objects the walk reaches |
| AgentUtils.CollectAgentExecutionSteps | utils/agent_utils.py:133-202 | the steps are those of the depth-first visits from the root, numbered from 1 |
| AgentUtils.ExecutionStepsSpec | utils/agent_utils.py:148-190 | one step per visit, the i-th with id prefix_00i, the agent's name and class, status "pending", no events and no times |
| AgentUtils.StepIdsDistinct | utils/agent_utils.py:178 | step ids are pairwise distinct |
| AgentUtils.RootStepIsMain | utils/agent_utils.py:178-190 | the first step is the root agent's, described as "Execute name (type) - Main Agent" |
| WorkflowConfiguration.FileTypeSpec | utils/workflow_configuration.py:92-95 | an explicit non-empty input type wins; otherwise the type is the file's suffix without its dot, empty exactly when there is no suffix |
| WorkflowConfiguration.InputFileOf | utils/workflow_configuration.py:97-106 | the record holds the base name, the full path and the content, with the size equal to the content's length |
| WorkflowConfiguration.ReadInputFile | utils/workflow_configuration.py:69-106 | reading succeeds exactly when the file exists and is readable; a missing file gives "Input file not found: <path>" and an undecodable one its decode error |
| WorkflowConfiguration.ReadInputFolder | utils/workflow_configuration.py:108-136 | a missing folder gives "Input folder not found: <path>"; otherwise the folder's readable files |
| WorkflowConfiguration.FolderFilesSpec | utils/workflow_configuration.py:123-134 | every file read comes from a first-level, non-hidden, readable file of the folder, records the folder as its source, and every such file is read |
| WorkflowConfiguration.AddToGroupsSpec | utils/workflow_configuration.py:172-177 | an agent's group gains the file once per time the agent is targeted, after the files it already had; the folder loop at lines 201-206 does the same |
| WorkflowConfiguration.NonListLoopError | utils/workflow_configuration.py:154-189 | a loop over an input_files or input_folders value that is not a list raises for every value except an empty string or dictionary, and a value that cannot be iterated gives Python's "'<type>' object is not iterable" text |
| WorkflowConfiguration.FileStepsAfterError | utils/workflow_configuration.py:155-177 | once a file step has raised, no further file is processed |
| WorkflowConfiguration.FileStepsSpec | utils/workflow_configuration.py:155-177 | without an error, one input entry per file configuration in order, and each agent's group gains exactly the targeted files' records, in order |
| WorkflowConfiguration.FileStepsFails | utils/workflow_configuration.py:155-177 | the file steps fail exactly when some targeted file cannot be read, with the error of the first such file |
| WorkflowConfiguration.FolderStepsFails | utils/workflow_configuration.py:180-206 | the folder steps fail exactly when some folder is missing, with "Input folder not found" for the first one |
| WorkflowConfiguration.AddFolderFilesError | utils/workflow_configuration.py:194-206 | adding a folder's files never raises |
| WorkflowConfiguration.AddFolderFilesSpec | utils/workflow_configuration.py:194-206 | one input entry per folder file, and each targeted agent's group gains every file of the folder, once per time the agent is targeted |
| WorkflowConfiguration.ForPrompt | utils/workflow_configuration.py:228 | one prompt file per input file |
| WorkflowConfiguration.FoundCountSpec | utils/workflow_configuration.py:218-233 | the modified count equals the number of groups exactly when every target agent exists, and is 0 exactly when none does |
| WorkflowConfiguration.WorkflowConfiguration.ProcessInputFilesAndFolders | utils/workflow_configuration.py:138-216 | with neither input_files nor input_folders the call raises and changes nothing; otherwise the object's input files and groups become those the steps produce, and the call raises with the first error when there is one |
| WorkflowConfiguration.WorkflowConfiguration.ApplyTargetedFilesToAgentConfig | utils/workflow_configuration.py:218-233 | each group is appended to its agent in turn, and the count is the number of groups whose agent was found |
| DocumentReader.GetSupportedFormats | utils/document_reader.py:141-148 | seven distinct lower-case extensions, each a dot followed by a non-empty dot-free name, as registered in the constructor at lines 48-56 |
| DocumentReader.IsSupportedSpec | utils/document_reader.py:150-161 | a path whose last component is a non-empty stem followed by a supported extension, in any case, is supported |
| DocumentReader.SupportedBySuffix | utils/document_reader.py:150-161 | a path whose base-name suffix lower-cases to a supported format is supported |
| DocumentReader.NoSuffixUnsupported | utils/document_reader.py:150-161 | a path whose base name has no suffix is not supported |
| DocumentReader.ItemMarker | utils/document_reader.py:205-229 | a recognised marker ends inside the stripped line, after at least one character |
| DocumentReader.DetectListItemShape | utils/document_reader.py:163-250 | a blank line is no list item, and the item text never holds a character the line does not |
| DocumentReader.DetectIgnoresIndentation | utils/document_reader.py:181-183 | leading and trailing whitespace do not change the detection, because the line is stripped first |
| DocumentReader.NumberedItem | utils/document_reader.py:209-213 | digits, a delimiter from . ) - : / \ and whitespace make a numbered item "1. " with the stripped rest |
| DocumentReader.LetteredItem | utils/document_reader.py:215-219 | one ASCII letter, a delimiter from . ) - : and whitespace make a numbered item |
| DocumentReader.RomanItem | utils/document_reader.py:221-227 | two or more roman letters, a delimiter and whitespace make a numbered item |
| DocumentReader.BulletItem | utils/document_reader.py:203-207 | an ASCII or special bullet followed by a space makes a bullet item "- " with the stripped rest; the special bullets are those of lines 239-244 |
| DocumentReader.SymbolItem | utils/document_reader.py:186-201 | a symbol character in one of the bullet ranges, followed by more text, makes a bullet item |
| DocumentReader.PlainTextLine | utils/document_reader.py:163-250 | a stripped line starting with no digit, letter, bullet or bullet-range symbol is no list item |
| DocumentReader.FormatTextAsMarkdown | utils/document_reader.py:512-530 | the loop formats each line of the text and joins them with newlines |
| DocumentReader.FormatTextLinesSpec | utils/document_reader.py:512-530 | the i-th output line is the i-th input line formatted: blank lines kept, list items converted, other lines right-stripped |
| DocumentReader.FormatTextKeepsLineCount | utils/document_reader.py:512-530 | the formatted text splits back into exactly the formatted lines, one per input line |
| DocumentReader.TitleFromIdempotent | utils/document_reader.py:292-293 | title-casing a title-cased text changes nothing |
| DocumentReader.TitleSpec | utils/document_reader.py:292-293 | title case keeps the length and the letters up to case, and is idempotent |
| DocumentReader.FormatPdfTextAsMarkdown | utils/document_reader.py:279-302 | the loop builds the page header and one line per non-blank input line, joined by newlines |
| DocumentReader.PdfLinesSpec | utils/document_reader.py:279-302 | the output starts with "## Page n" and has one more line than the text has non-blank lines; short upper-case lines longer than three characters become "### " headings in title case |
| DocumentReader.CellTextsSpec | utils/document_reader.py:354 | each cell's text is stripped with its newlines replaced by spaces |
| DocumentReader.DashesSpec | utils/document_reader.py:358-359 | the separator holds "---" once per column |
| DocumentReader.RowLinesSpec | utils/document_reader.py:353-355 | one "| … |" line per row, in order |
| DocumentReader.TableLinesSpec | utils/document_reader.py:347-362 | the table has one line per row plus the separator, which follows the header row |
| DocumentReader.TableLineCount | utils/document_reader.py:347-362 | the table text splits back into exactly its lines |
| DocumentReader.TableLineNoBreak | utils/document_reader.py:347-362 | no table line holds a newline |
| DocumentReader.FormatTableAsMarkdown | utils/document_reader.py:347-362 | the loop over the rows builds exactly those lines, joined by newlines |
| MarkdownTableConverter.DataRowsSpec | misc/markdown_table_converter.py:61-66 | the kept rows are exactly the rows that are not separator rows (only '\|', '-', ':' and whitespace), and none are kept exactly when every row is a separator |
| MarkdownTableConverter.FilterSeparators | misc/markdown_table_converter.py:61-66 | the filtering loop keeps exactly those rows |
| MarkdownTableConverter.DetectMarkdownTables | misc/markdown_table_converter.py:36-83 | the line loop returns exactly the tables of the text's lines |
| MarkdownTableConverter.DetectSound | misc/markdown_table_converter.py:36-83 | every table reported starts (1-based) at the first line of a maximal run of lines whose stripped form begins and ends with '\|', and holds the run's non-separator rows, at least one |
| MarkdownTableConverter.DetectComplete | misc/markdown_table_converter.py:36-83 | every maximal run of table lines with at least one data row is reported, with its 1-based start line |
| MarkdownTableConverter.DetectOrdered | misc/markdown_table_converter.py:36-83 | tables are reported in strictly increasing order of start line |
| MarkdownTableConverter.TablesBelow | misc/markdown_table_converter.py:36-83 | runs that start before a line give tables that start before it |
| MarkdownTableConverter.ParseTableRow | misc/markdown_table_converter.py:85-104 | a row always gives at least one cell, and every cell is stripped and free of '\|' |
| MarkdownTableConverter.ParseTableRowRoundTrip | misc/markdown_table_converter.py:85-104 | joining stripped, bar-free cells between bars and parsing the row gives the cells back |
| MarkdownTableConverter.WrapText | misc/markdown_table_converter.py:106-144 | the word loop computes the wrapped text as written |
| MarkdownTableConverter.PlaceAllSpec | misc/markdown_table_converter.py:123-142 | placing the words loses and adds no letters, and leaves a non-empty current line when there were words |
| MarkdownTableConverter.PlaceAllFits | misc/markdown_table_converter.py:123-142 | every line fits the width when over-long words are cut wherever they occur, or when only the first word may be over-long |
| MarkdownTableConverter.WrappedLines | misc/markdown_table_converter.py:106-144 | a text longer than the width splits into exactly the wrapped lines, each a non-empty line with no newline, and together they hold the text's words' letters in order |
| MarkdownTableConverter.WrappedFits | misc/markdown_table_converter.py:106-144 | every output line fits the width, as written when no word after the first is longer than the width, and always with the corrected cut |
| MarkdownTableConverter.SplitOnShort | misc/markdown_table_converter.py:113-114 | a text returned as it is has lines no longer than itself |
| MarkdownTableConverter.LongWordAfterLine | misc/markdown_table_converter.py:123-136 | as written, an over-long word that follows a line is put on a line of its own uncut, wider than the width |
| MarkdownTableConverter.LongWordExample | misc/markdown_table_converter.py:106-144 | wrapping "a bbbbb" at width 3 gives the lines "a" and "bbbbb" |
| MarkdownTableConverter.LongWordAfterLineCut | misc/markdown_table_converter.py:123-142 | with the cut applied after flushing a line as well, the over-long word is split into width-sized pieces and every line fits |
| AgentConfigModels.ParseTool | data_model/agent_config_models.py:15-33 | a string tool stays a string and a tool object is rejected; a tool dictionary validates exactly when it has class and module, a function tool has a non-empty function name and module, an agent tool has an agent, and any agent given validates |
| AgentConfigModels.ParseTools | data_model/agent_config_models.py:60 | the tool list validates exactly when every tool does, one model per tool in order |
| AgentConfigModels.ParseAgent | data_model/agent_config_models.py:36-80 | an agent dictionary validates exactly when it has name, class and module, the class is one of the four agent classes and every tool validates; the model keeps name, class, module, description, model and instruction, and holds the validated model of each tool in order |
| AgentConfigModels.ParseAgents | data_model/agent_config_models.py:86 | the sub-agent list validates exactly when every sub-agent validates as an AgentConfig, one model each, in order |
| AgentConfigModels.LaxInt | data_model/agent_config_models.py:87 | max_iterations coerces as pydantic's lax int: an int is kept, a bool becomes 0 or 1, a float only when whole, and anything but a string is rejected otherwise |
| AgentConfigModels.LaxIntReadsDecimal | data_model/agent_config_models.py:87 | a decimal text, its negation and the text followed by ".0" coerce to the number they write |
| AgentConfigModels.NatTextIsDecimal | data_model/agent_config_models.py:87 | every natural number's decimal text is a digit string that reads back as that number |
| AgentConfigModels.ParseComposite | data_model/agent_config_models.py:83-115 | a composite dictionary validates exactly when it has name, class and module, the class is an agent class, max_iterations coerces and is positive for a loop agent and absent for the others, and sub_agents is missing, None or a list of valid AgentConfigs; the model keeps name, class, module and description, holds the coerced max_iterations when one is given, and its sub-agents are the AgentConfig models of the list items in order, none when the key is missing or None |
| AgentConfigModels.NullSubAgentsAccepted | data_model/agent_config_models.py:86 | `"sub_agents": null` validates, with or without the nesting kept, exactly as a dictionary without the key, and gives no sub-agents |
| AgentConfigModels.ValidateDict | data_model/agent_config_models.py:148-180 | the unknown-class error exactly when the class (default "Agent") is not an agent class; for a known class the dictionary validates exactly when its copy with the default class and module validates as the model the class picks (AgentConfig for "Agent", CompositeAgentConfig otherwise), the result being that model, and otherwise gives the validation error; a nameless dictionary never validates; a valid model keeps the name, the class and module with their defaults, is a plain agent exactly for class "Agent", and a composite's max_iterations is present only for a loop agent, positive and the coerced value |
| AgentConfigModels.ValidateAgentHierarchy | data_model/agent_config_models.py:181-221 | the recursive check returns exactly the warnings of the hierarchy, in the order it appends them |
| AgentConfigModels.LeafSiblingWarnings | data_model/agent_config_models.py:199-205 | for siblings without sub-agents at depth at most 5, a warning arises exactly from a sibling's own issue or from a name repeated among them |
| AgentConfigModels.RepeatedFromStart | data_model/agent_config_models.py:200-203 | a name is flagged as repeated exactly when two siblings share it |
| AgentConfigModels.ValidatedWarnings | data_model/agent_config_models.py:181-221 | for a validated dictionary the warnings are exactly the root's own issues, each sub-agent's own issues and a duplicate-name warning for each name two sub-agents share |
| AgentConfigModels.ValidatedNeverDeep | data_model/agent_config_models.py:195-197 | as written, no dictionary that validates ever gets a deep-nesting warning, because `sub_agents` is typed at line 86 |
| AgentConfigModels.WarningsDeep | data_model/agent_config_models.py:192-205 | the hierarchy check of a model warns of deep nesting exactly when some agent lies deeper than depth 5 |
| AgentConfigModels.ParseNestedAll | data_model/agent_config_models.py:86 | with the nesting kept, a sub-agent list validates exactly when every sub-agent does, one model each, in order |
| AgentConfigModels.ValidateDictNested | data_model/agent_config_models.py:148-180 | the nesting-keeping validation reports an unknown class exactly as validate_dict does and agrees with it on plain agents |
| AgentConfigModels.NestedDeepWarned | data_model/agent_config_models.py:181-221 | with the nesting kept, a validated model gets a deep-nesting warning exactly when it has more than six levels |
| AgentConfigModels.ChainNested | data_model/agent_config_models.py:83-115 | a chain of n sequential agents above an LLM agent validates with its nesting kept, n + 1 levels deep |
| AgentConfigModels.DeepChainWarned | data_model/agent_config_models.py:195-197 | a seven-level chain validates as written with no deep-nesting warning, and with the nesting kept gets one; the typing of `sub_agents` at line 86 is what drops the nesting |
| Registry.WrapperName | tools/gadk/registry.py:148 | the wrapper name always ends in `_tool` and is the name itself when it already does |
| Registry.CategoryOf | tools/gadk/registry.py:112-123 | the category is financial exactly when the lower-cased module name contains "financial", debug exactly when it does not but contains "debug" or "test", and general only when it contains none of the five words |
| Registry.CategoryIgnoresCase | tools/gadk/registry.py:114 | the category depends on the module name only up to letter case |
| Registry.WithTool | tools/gadk/registry.py:125-139 | registering a tool keeps the registry consistent and adds exactly that name, bound to the tool |
| Registry.WithRawFunction | tools/gadk/registry.py:141-167 | registering a raw function changes nothing when the name is already a tool; otherwise it adds exactly the wrapper name, bound to a tool wrapping the function, records the function under its name and keeps the registry consistent |
| Registry.Lookup | tools/gadk/registry.py:169-185 | attribute access succeeds exactly when the name, the name plus `_tool`, or the name less a trailing `_tool` is registered, gives a registered tool, and gives the exact match first |
| Registry.ToolsByCategory | tools/gadk/registry.py:201-206 | an unknown category gives no tools; a known one gives exactly its listed names, each bound to its tool |
| Registry.ToolInfoOf | tools/gadk/registry.py:212-222 | the metadata of the exact name first, else of the name plus `_tool`, else nothing, and nothing only when neither has metadata |
| Registry.InfoMeansFound | tools/gadk/registry.py:212-222 | in a consistent registry, a name that has metadata is also found by `in` and attribute access, as `__contains__` at lines 191-195 checks |
| Registry.RawFunctionFound | tools/gadk/registry.py:141-185 | after registering a raw function its own name is found, and when the name was new it resolves to the wrapper of that function |
| Registry.WithMembersGrows | tools/gadk/registry.py:98-105 | discovering a module's members never removes a registered tool |
| Registry.WithMembersConsistent | tools/gadk/registry.py:98-105 | discovering a module's members keeps the registry consistent |
| Registry.MembersFound | tools/gadk/registry.py:98-105 | every tool member and every public function defined in the module is found by its name after discovery, by the lookup of lines 169-185 |
| Registry.HasKept | tools/gadk/registry.py:125-167 | a name that was found stays found after one more member is registered |
| Registry.DiscoverConsistent | tools/gadk/registry.py:71-84 | discovering any list of module files keeps the registry consistent |
| Registry.FunctionToolRegistry.constructor | tools/gadk/registry.py:58-69 | a new registry is the consistent result of discovering the module files from empty dictionaries |
| Registry.FunctionToolRegistry.RegisterTool | tools/gadk/registry.py:125-139 | the four dictionaries become those of registering the tool |
| Registry.FunctionToolRegistry.RegisterRawFunction | tools/gadk/registry.py:141-167 | the four dictionaries become those of registering the raw function |
| Registry.FunctionToolRegistry.RegisterMember | tools/gadk/registry.py:98-105 | one member of the discovery loop registers as a tool, as a raw function, or not at all |
| Registry.FunctionToolRegistry.DiscoverToolsFromModule | tools/gadk/registry.py:86-110 | the dictionaries become those of registering the module's members, or stay as they were when the import fails |
| Registry.FunctionToolRegistry.DiscoverAll | tools/gadk/registry.py:71-84 | every module file except `__init__.py`, `registry.py` and `test_*` files is discovered, in order |
| Registry.FunctionToolRegistry.GetAttr | tools/gadk/registry.py:169-189 | attribute and item access return exactly what the three-step lookup finds |
| Registry.FunctionToolRegistry.ContainsTool | tools/gadk/registry.py:191-195 | `in` holds exactly when attribute access succeeds |
| Registry.FunctionToolRegistry.GetAllTools | tools/gadk/registry.py:197-199 | all registered tools, by name |
| Registry.FunctionToolRegistry.GetToolsByCategory | tools/gadk/registry.py:201-206 | exactly the tools listed under the category, or none |
| Registry.FunctionToolRegistry.GetToolInfo | tools/gadk/registry.py:212-222 | exactly the metadata the name-then-suffix lookup finds |
| Registry.FunctionToolRegistry.ReloadTools | tools/gadk/registry.py:244-265 | the dictionaries are cleared and rediscovered: the result is the consistent registry of discovering the files from empty |
| FinancialTools.MarketConfigOf | tools/gadk/financial_tools.py:325-350 | a configuration exists exactly for the four supported markets, and the US one has no suffix |
| FinancialTools.GetMarketInfo | tools/gadk/financial_tools.py:323-370 | an error exactly for an unsupported market; otherwise the symbol ends in the market's suffix, is the given symbol or that symbol plus the suffix, is unchanged when it already ends in the suffix, and is always unchanged for the US; the market name, currency and examples are those of the market's table entry |
| FinancialTools.MarketInfoIdempotent | tools/gadk/financial_tools.py:358-360 | applying the market suffix to an already-suffixed symbol changes nothing |
| FinancialTools.ConvertToYahooSymbol | tools/gadk/financial_tools.py:516-528 | the Yahoo symbol always ends in the market's Yahoo suffix, none for the US and for other markets |
| FinancialTools.YahooSuffixRemoved | tools/gadk/financial_tools.py:518 | removing the exchange suffixes erases every market's own suffix completely |
| FinancialTools.YahooRelisting | tools/gadk/financial_tools.py:516-528 | a dot-free ticker listed on one market converts to the same ticker with the other market's suffix |
| FinancialTools.YahooAgreesWithMarketInfo | tools/gadk/financial_tools.py:516-528 | for a dot-free ticker on a non-US market, the Yahoo symbol is the symbol the market table gives, the table read at lines 358-360 |
| FinancialTools.ParseNumber | tools/gadk/financial_tools.py:435-443 | `"N/A"`, None and `""` give no number, a number gives itself, and a list or dictionary gives nothing |
| FinancialTools.Quarters | tools/gadk/financial_tools.py:377-389 | one quarter per record, in order, numbered 1 to n, each read from its record |
| FinancialTools.EpsGrowth | tools/gadk/financial_tools.py:394-409 | growth exists exactly when both EPS values are known and positive, is positive exactly when the later EPS is larger, and zero exactly when they are equal |
| FinancialTools.EarningsReportOf | tools/gadk/financial_tools.py:373-432 | the report counts and lists one quarter per record; quarter-over-quarter growth needs at least two quarters, year-over-year growth exactly four, and the latter compares the first and fourth quarter |
| FinancialTools.FormatEarningsJson | tools/gadk/financial_tools.py:373-432 | the report built with the quarter loop is the report of the records |
| FinancialTools.FormatQuarters | tools/gadk/financial_tools.py:377-389 | the loop builds exactly the numbered quarters |
| FinancialTools.FlushKept | tools/gadk/financial_tools.py:240-251 | saving the current article keeps every saved article with a title and a URL |
| FinancialTools.ScanResultLineKept | tools/gadk/financial_tools.py:236-267 | each report line keeps every saved article with a title and a URL |
| FinancialTools.ScanResultLines | tools/gadk/financial_tools.py:233-271 | the line scan saves only articles with a title and a URL, and at most one per line |
| FinancialTools.Truncated | tools/gadk/financial_tools.py:280-282 | a description of at most 200 characters is kept; a longer one becomes its first 200 characters followed by "..." |
| FinancialTools.FinishAll | tools/gadk/financial_tools.py:273-282 | each saved article, in order, gets its missing fields filled in |
| FinancialTools.SearchArticlesShape | tools/gadk/financial_tools.py:227-287 | every parsed article has a non-empty title, a URL starting with http, a description of at most 203 characters, and the default date, source and author |
| FinancialTools.NoUrlNoArticle | tools/gadk/financial_tools.py:256-271 | a report with no line starting with http gives no article |
| FinancialTools.ScanLineInto | tools/gadk/financial_tools.py:236-267 | one iteration of the line loop updates the articles and the current article as the scan prescribes |
| FinancialTools.FillDefaults | tools/gadk/financial_tools.py:274-282 | the defaults and the truncation are applied to one article |
| FinancialTools.ParseGoogleSearchResults | tools/gadk/financial_tools.py:227-287 | the loop returns exactly the parsed articles of the report |
| FinancialTools.ScanReportLines | tools/gadk/financial_tools.py:233-271 | the loop over the lines ends in the state of the line scan |
| FinancialTools.FinishArticles | tools/gadk/financial_tools.py:273-282 | the defaulting loop returns every article finished, in order |
| FinancialTools.Ranked | tools/gadk/financial_tools.py:306-316 | one entry per article, in order, ranked 1 to n |
| FinancialTools.NewsReportOf | tools/gadk/financial_tools.py:290-318 | the article count is the number of articles, and the i-th entry has rank i + 1 and that article's title |
| FinancialTools.FormatNewsJson | tools/gadk/financial_tools.py:290-318 | the report built by the loop is the news report of the articles |
| FinancialTools.ClampArticles | tools/gadk/financial_tools.py:162 | the article count is clamped into 1 to 10, left unchanged inside that range |
| FinancialTools.Take | tools/gadk/financial_tools.py:173 | a slice `[:n]` is a prefix of at most n elements, exactly n when there are that many; line 213 slices the same way |
| FinancialTools.GetCompanyNews | tools/gadk/financial_tools.py:141-224 | success exactly when the "<identifier> news" search succeeds and finds an article; then the report is the news report, for the stripped identifier and the market, of the first clamped-count articles parsed from the search result, between 1 and that many; otherwise the "Unable to retrieve news" message |
| LangChainWrapper.ArgsValue | wrapper/langchain_litellm_wrapper.py:88-97 | call arguments given as text are parsed as JSON, and unparsable text gives `{}`; no arguments give `{}`; a dictionary is kept |
| LangChainWrapper.ConvertContent | wrapper/langchain_litellm_wrapper.py:70-132 | the part loop builds exactly the message the content converts to, and raises exactly when LangChain refuses that message (a tool message without an id, a tool call without a name or with arguments that are not a dictionary) |
| LangChainWrapper.ResponsesNonEmpty | wrapper/langchain_litellm_wrapper.py:103-108 | the loop meets a function response exactly when some part counts as one |
| LangChainWrapper.MessageKind | wrapper/langchain_litellm_wrapper.py:103-132 | a tool message exactly when some part is a function response; otherwise a system message exactly for role system, an AI message exactly for role assistant, and a human message for every other role |
| LangChainWrapper.ResponseShortCircuits | wrapper/langchain_litellm_wrapper.py:103-108 | the first function-response part yields a tool message carrying its response and id, the other parts are dropped, and LangChain refuses the message exactly when the id is None |
| LangChainWrapper.TextsKept | wrapper/langchain_litellm_wrapper.py:85-86 | without a function response, every text part occurs in the message's joined text; the texts are joined at line 111 |
| LangChainWrapper.ToolCallsFromParts | wrapper/langchain_litellm_wrapper.py:87-102 | the message's tool calls are exactly those of the function-call parts |
| LangChainWrapper.ResponseContent | wrapper/langchain_litellm_wrapper.py:147-182 | the reply becomes an assistant content with at least one part: one per text and tool call, or a single empty text |
| LangChainWrapper.CreateContentResponse | wrapper/langchain_litellm_wrapper.py:147-182 | the loop over the tool calls builds exactly that content |
| LangChainWrapper.CallPartsBack | wrapper/langchain_litellm_wrapper.py:87-102 | function-call parts made from tool calls carry no text and no response, and convert back to the same tool calls; the conversion back is at lines 164-173 |
| LangChainWrapper.ResponseRoundTrip | wrapper/langchain_litellm_wrapper.py:70-182 | a reply turned into a content and back gives an AI message with the reply's text and tool calls |
| LangChainWrapper.TextHeadBack | wrapper/langchain_litellm_wrapper.py:160-161 | the text part of a reply converts back to exactly that text, with no response and no call |
| LangChainWrapper.EmptyReplyBack | wrapper/langchain_litellm_wrapper.py:176-178 | the placeholder content of an empty reply converts back to an empty AI message |
| LangChainWrapper.ContentMessages | wrapper/langchain_litellm_wrapper.py:276-279 | one message per content |
| LangChainWrapper.ContentMessagesAt | wrapper/langchain_litellm_wrapper.py:276-279 | the i-th message is the conversion of the i-th content |
| LangChainWrapper.AssembleMessages | wrapper/langchain_litellm_wrapper.py:266-279 | the loop builds exactly the request's messages, and raises exactly when LangChain refuses one of them |
| LangChainWrapper.SystemFirst | wrapper/langchain_litellm_wrapper.py:269-279 | with a system instruction the first message is that system message and the contents follow in order; without one the messages are the converted contents |
| LangChainWrapper.StreamReplies | wrapper/langchain_litellm_wrapper.py:300-321 | streaming yields one assistant text per chunk with text, then the error reply when the stream raises, otherwise the last chunk's full content when it has tool calls |
| LangChainWrapper.GenerateContent | wrapper/langchain_litellm_wrapper.py:248-343 | generation yields exactly what the model's reply or stream gives for the assembled messages and tools, or the error reply, and raises when building a message or a tool raises before the try |
| LangChainWrapper.GeneratedShape | wrapper/langchain_litellm_wrapper.py:262-343 | generation raises exactly when LangChain refuses a message or a declaration's parameters have no properties; otherwise every response is an assistant content with at least one part, and without streaming there is exactly one |
| OpenAiWrapper.ArgumentsText | wrapper/openai_litellm_wrapper.py:86-90 | call arguments as a dictionary are serialised to JSON text, no arguments give `"{}"`, and text is passed on as it is |
| OpenAiWrapper.ConvertContent | wrapper/openai_litellm_wrapper.py:66-127 | the part loop builds exactly the message the content converts to, or none |
| OpenAiWrapper.KindsPresent | wrapper/openai_litellm_wrapper.py:81-102 | the loop collects a function call, a function response or a text exactly when some part counts as one |
| OpenAiWrapper.MessagePriority | wrapper/openai_litellm_wrapper.py:104-127 | an assistant message with tool calls exactly when some part is a function call; otherwise a tool message exactly when some part is a function response; otherwise a message under the content's role exactly when some part has text; otherwise none |
| OpenAiWrapper.ChatCallsFromParts | wrapper/openai_litellm_wrapper.py:84-99 | the message's tool calls are exactly those of the function-call parts |
| OpenAiWrapper.ReplyArgs | wrapper/openai_litellm_wrapper.py:411-416 | empty or invalid JSON arguments give `{}`, a JSON object gives its fields as the call's dictionary, JSON `null` leaves the call's arguments unset (`FunctionCall.args` is optional), and only the other JSON values (lists, strings, numbers, booleans) are refused; lines 372-376 read the streamed arguments the same way |
| OpenAiWrapper.NullArgumentsUnset | wrapper/openai_litellm_wrapper.py:411-424 | a completion whose only tool call is a function with arguments `null` becomes an assistant content holding that call with its arguments unset, not an error |
| OpenAiWrapper.ArgsRoundTrip | wrapper/openai_litellm_wrapper.py:411-416 | arguments sent as a dictionary are read back as the same dictionary when the JSON text reads back; the dictionary is sent as JSON text at lines 86-88 |
| OpenAiWrapper.ArgsAgreeAcrossWrappers | wrapper/openai_litellm_wrapper.py:86-90 | the argument text sent to OpenAI reads, as the LangChain wrapper reads arguments, to the value that wrapper gives |
| OpenAiWrapper.AnySystem | wrapper/openai_litellm_wrapper.py:286 | the test holds exactly when some message has the system role |
| OpenAiWrapper.SystemInserted | wrapper/openai_litellm_wrapper.py:270-291 | the messages always hold a system message: the instruction first when there is one, else the default prompt first only when no converted message is a system message, the converted messages following unchanged |
| OpenAiWrapper.AssembleChatMessages | wrapper/openai_litellm_wrapper.py:270-291 | the loop and the insertion build exactly those messages |
| OpenAiWrapper.Params | wrapper/openai_litellm_wrapper.py:296-321 | the parameters carry the settings and the messages, tools exactly when the request declares some (each declaration's converted tool, in order), and the stream flag as requested; building them raises exactly when a declaration's parameters have no properties |
| OpenAiWrapper.ReplyCallParts | wrapper/openai_litellm_wrapper.py:408-424 | the completion's function tool calls give at most one function-call part each |
| OpenAiWrapper.ReplyCallPartsRefused | wrapper/openai_litellm_wrapper.py:408-424 | once a call's arguments are refused (a JSON value that is neither an object nor `null`), the whole completion is |
| OpenAiWrapper.ReplyContent | wrapper/openai_litellm_wrapper.py:398-436 | a completion becomes an assistant content with at least one part, and fails exactly when a call's arguments are refused |
| OpenAiWrapper.ReplyToContent | wrapper/openai_litellm_wrapper.py:398-436 | the loop over the tool calls builds exactly that content |
| OpenAiWrapper.FragmentsTracked | wrapper/openai_litellm_wrapper.py:349-363 | adding tool-call fragments keeps every call tracked in order and leaves the text alone |
| OpenAiWrapper.FragmentsSpec | wrapper/openai_litellm_wrapper.py:349-363 | after the fragments, a call id is known exactly when it was or some fragment has it, and its name and arguments are the old ones followed by that id's fragments, concatenated |
| OpenAiWrapper.AccumulatedFlat | wrapper/openai_litellm_wrapper.py:330-363 | accumulating chunk by chunk is accumulating all text, then all fragments |
| OpenAiWrapper.StreamAccumulation | wrapper/openai_litellm_wrapper.py:327-363 | after the stream the text is all chunk texts concatenated, and each call id some fragment has holds exactly that id's name and argument fragments concatenated |
| OpenAiWrapper.AccumulateFragments | wrapper/openai_litellm_wrapper.py:349-363 | the fragment loop updates the calls exactly as the fragments prescribe |
| OpenAiWrapper.NamedCallsOnly | wrapper/openai_litellm_wrapper.py:370-385 | every final function call has a non-empty name, an accumulated id, and that id's name |
| OpenAiWrapper.NamedCallsAll | wrapper/openai_litellm_wrapper.py:370-385 | every accumulated call with a name appears among the final function calls |
| OpenAiWrapper.NamedCallPartsRefused | wrapper/openai_litellm_wrapper.py:370-385 | once a named call's arguments are refused, the final content is refused |
| OpenAiWrapper.BuildFinalParts | wrapper/openai_litellm_wrapper.py:365-385 | the final loop builds the full text, when any, and then the named calls |
| OpenAiWrapper.FinalPartsNamed | wrapper/openai_litellm_wrapper.py:370-371 | no function call of the final content is nameless |
| OpenAiWrapper.ClosingShape | wrapper/openai_litellm_wrapper.py:438-446 | whatever follows the streamed texts is an assistant content with at least one part and only named calls; the streamed texts are those of lines 365-394 |
| OpenAiWrapper.ChunkContentsShape | wrapper/openai_litellm_wrapper.py:335-346 | every partial response is an assistant content with exactly one text part |
| OpenAiWrapper.StreamResponses | wrapper/openai_litellm_wrapper.py:324-394 | the streaming loop yields one assistant text per chunk with text, then the error reply when the stream raises or arguments are refused, otherwise the final content when it has parts |
| OpenAiWrapper.GenerateContent | wrapper/openai_litellm_wrapper.py:250-446 | generation yields exactly the completion's content, the stream's responses, or the error reply, and raises when converting a declaration raises before the try |
| OpenAiWrapper.StreamedShape | wrapper/openai_litellm_wrapper.py:324-394 | every streamed response is an assistant content with at least one part and only named calls |
| OpenAiWrapper.GeneratedShape | wrapper/openai_litellm_wrapper.py:296-446 | generation raises exactly when a declaration's parameters have no properties; otherwise every response is an assistant content with at least one part, exactly one without streaming, and streamed calls all have names |
| AdkTypes.KindOf | wrapper/langchain_litellm_wrapper.py:84-108 | a part counts as text exactly when it has non-empty text, as a function call exactly when it has no text but a call, and as a function response exactly when it has neither but a response |
| AdkTypes.FirstResponseAt | wrapper/langchain_litellm_wrapper.py:103-108 | the first response part met in the loop is the first of the collected responses |
| AdkTypes.SystemInstruction | wrapper/langchain_litellm_wrapper.py:270-273 | the system instruction counts only when it is set and not empty |
| AdkTypes.JsonTypeName | wrapper/langchain_litellm_wrapper.py:215-230 | every ADK schema type maps to one of the six JSON type names, and anything but the six ADK type names maps to "string" |
| AdkTypes.JsonTypeNameRoundTrip | wrapper/langchain_litellm_wrapper.py:215-230 | each of the six ADK type names maps to its own lower-case name |
| AdkTypes.PropertySpecOf | wrapper/langchain_litellm_wrapper.py:211-240 | a property always gets one of the six JSON type names: the mapped name of its type, and "string" for an unset one; a description and an enumeration exactly when they are set and not empty, unchanged |
| AdkTypes.ParametersOf | wrapper/langchain_litellm_wrapper.py:206-243 | object parameters with exactly the declared properties, each converted, and `required` copied as it is, None included |
| AdkTypes.ToolSpecOf | wrapper/langchain_litellm_wrapper.py:184-246 | a declaration becomes a tool with its name and description as they are (None included), empty object parameters when it has none, otherwise exactly the declared properties, each with a known type, and its `required`; converting raises exactly when the parameters' `properties` is None. `_convert_function_declaration_to_openai_tool` (wrapper/openai_litellm_wrapper.py:179-248) is the same code, since its branch for a missing `properties` attribute is never taken |
| AdkTypes.ToolSpecsOf | wrapper/langchain_litellm_wrapper.py:289-293 | the tools are the declarations' tools, one each in order, and converting them raises exactly when some declaration's parameters have no properties |
| AdkTypes.ErrorContent | wrapper/langchain_litellm_wrapper.py:335-343 | an exception gives a single assistant text, "Error generating content: " followed by the exception text |
| Json.BracketSpan | agent_optimizer/critic.py:321-325 | a span is cut exactly when the text holds an opening bracket at or before a closing one, and it then runs from the first opening bracket to the last closing one |
| AgentConfig.TraversableSpec | agent_optimizer/types.py:164-166 | the recursive walk can loop over every node's sub_agents exactly when no node holds a value that cannot be iterated (None, a boolean or a number) |

## Left out

- Language models, workflow execution, HTTP requests, Google search, the clock, file reading, module import and logging are not modelled. They are parameters or oracles, because their behaviour is outside the code.
- Floating-point rounding is not modelled: scores, weights and percentages are reals.
- Jinja rendering, the regular-expression scans of instructions, `json.loads`/`json.dumps`, `float()` of a text, `str()` and `unicodedata.category` are given as functions, because each is library code.
- Reading PDF, DOCX, PPTX, XLSX and CSV files, and writing the DOCX and PDF documents of the table converter, are left to the format libraries.
- `Text.Lower`, `Text.LowerChar`: only ASCII letters are lower-cased, because Python's Unicode case mapping is not modelled. This affects:
  - `Critic.WordOverlap`, `Critic.BleuLike` and `Critic.RougeLike` through `Critic.Tokens`: "Äpfel" and "äpfel" do not match, where Python counts them as the same word;
  - `Critic.MockLlmEvaluation`;
  - `Suggester.Classify`;
  - `Trace.ErrorOf`;
  - `Registry.CategoryOf`;
  - `DocumentReader.IsSupportedSpec`.
- `DocumentReader.IsUpper`, `DocumentReader.Title`: only ASCII letters are cased, for the same reason. Python turns "ÉCOLE NORMALE" into "### École Normale"; the model gives "### ÉCole Normale".
- `DocumentReader.IsDigit`: only ASCII digits count, where Python's `\d` matches every decimal digit. "３. item" is a numbered item in Python and plain text in the model.
- `Wrappers.Option`: a key holding None and an absent key are the same value. Where the source tests `in`, or reads `.get` with a default, a present None behaves differently in Python:
  - `OptimizerTypes.ExtractAgentPrompts` and `Runner.WorkflowRunner.GetAgentPrompts` store None for `"instruction": null`; the model treats it as no instruction.
  - `AgentMetadataCollector.CollectAgentMetadata` gives None for `"name": null`; the model gives "Unknown Agent".
- `AgentConfigModels.ValidateDict`: `"class": null` and `"module": null` are treated as missing and defaulted. In Python, `"class": null` raises "Unknown agent class: None", and `"module": null` fails pydantic validation.
- `AgentConfig.Children`: an element of a `sub_agents` list that is not a dictionary is not modelled; every list element is an agent dictionary.
- `PromptUtils.AppendContentToAgentConfig`, `AgentMetadataCollector.CollectAgentMetadata`, `TemplateProcessor.ApplyTemplates`: a truthy `sub_agents` value that is not a list is treated as no sub-agents. In Python a number or a boolean raises. A string or a dictionary yields strings: `.get` on them raises in the first two, and `apply_templates` skips them unless one contains "instruction", "description" or "sub_agents", which it then indexes and raises. A None or empty value is handled as the source does.
- `OptimizerTypes.UpdateAgentPrompt`, `OptimizerTypes.ExtractAgentPrompts`: these give what Python returns when the walk does not raise, a `sub_agents` value that is not a list contributing no prompts. Whether the walk raises, and with what text, is stated apart by `OptimizerTypes.UpdateRaises`, `OptimizerTypes.ExtractRaises` and `OptimizerTypes.ExtractRaiseMessage`; the updater, the runner and the validation test them first.
- `AgentConfig.Depth`: a `sub_agents` value that is not a list counts as no children, as the metadata collector that uses it does for None and empty values.
- `Updater.GetPromptDiff`: stated for configurations whose prompts read. When either walk raises (`OptimizerTypes.ExtractRaises`), the exception leaves `get_prompt_diff` in Python (updater.py:199-200); the model does not represent it.
- `Optimizer.BaseRow`: the history row's trace, critic response and suggester response are left None, because the trace objects and the response texts come from the oracles. When `get_agent_prompts` raises (`OptimizerTypes.ExtractRaises`; optimizer.py:126 and 198), Python ends the run with "Error: " and the exception text (optimizer.py:305-307); the model records `OptimizerTypes.ExtractAgentPrompts` of the configuration and goes on.
- `Suggester.DeduplicateAndRankSuggestions`: the order among equal confidences (the stability of `sorted`) is not proved.
- `Suggester.DeduplicateAndRankSuggestions`: when every confidence is a string, or every one a list, Python orders them by string or element-wise comparison; the model ranks each as 0.7, so their order among themselves is not modelled.
- `Suggester.RankingRaises`: with three or more candidates whose confidences are all lists, ranking is taken to raise whenever some two of them are not comparable item by item (`Suggester.Comparable`). Python raises only when de-duplication or the sort happens to compare such a pair, which depends on the sort's order of comparisons and is not modelled. With two candidates, and for every mix of numbers, strings, lists, None and dictionaries, the condition is exact.
- `Suggester.SuggestionOf`: `agent_id`, `new_prompt` and `reason` of an LLM suggestion are turned into text with `str()`. Python keeps them raw: a list or dictionary `agent_id` cannot be a dictionary key when ranking and raises, and a non-string `new_prompt` fails `.strip()` in `validate_configuration` (updater.py:124).
- `AgentUtils.GetAgentStatistics`: statistics are counted per occurrence on a tree of values. Shared objects are counted once per occurrence, and cyclic agent graphs are not modelled for statistics; the step walk handles cycles.
- `MarkdownTableConverter.WrapText`: requires a width of at least 1 when the text has words, because the source loops forever otherwise.
- `FinancialTools.EpsGrowth`: the growth is stated before `round(..., 2)`, because decimal rounding of floats is not modelled.
- The registry's `get_available_categories`, `list_tools`, `get_tool_list_for_agent`, `__repr__`, `__str__` and the module-level instance are not modelled. They print or only copy out the modelled dictionaries.
- `Registry.FunctionToolRegistry.ReloadTools`: reloading the Python modules is not modelled; the files are given again as they are after the reload.
- `LangChainWrapper.GenerateContent`: the chat model is assumed to offer `bind_tools`, `astream` and `ainvoke`, and `bind_tools` to accept every converted tool dictionary. The fallbacks for models without them are not modelled.
- `LangChainWrapper.GenerateContent`, `OpenAiWrapper.GenerateContent`: `_maybe_append_user_content` belongs to the ADK base class and is not modelled; the request is taken as it is after that step.
- `_convert_content_to_messages` and `_create_content_response` of the OpenAI wrapper are not modelled, because no code in the wrapper calls them.

## Findings

| source | as written | input that shows it | evidently intended | confidence | as-written member | corrected member |
|---|---|---|---|---|---|---|
| misc/markdown_table_converter.py:123-142 | `wrap_text` splits a word longer than the width only when the current line is empty. A long word that follows a flushed line becomes one line, uncut and wider than the width. | `wrap_text("a bbbbb", 3)` gives the lines "a" and "bbbbb" | every line fits the width, as the splitting loop does for a long first word | medium, not executed | MarkdownTableConverter.LongWordAfterLine | MarkdownTableConverter.LongWordAfterLineCut |
| data_model/agent_config_models.py:195-197 | `CompositeAgentConfig.sub_agents` is typed `List['AgentConfig']` (line 86), so every sub-agent validates as a plain agent and loses its own `sub_agents`. The hierarchy check then never sees depth above 1, and its deep-nesting warning can never be given. | seven nested levels: six `SequentialAgent`s above an `Agent` with a model (`Chain(6)` in the model) validate with no deep-nesting warning | sub-agents validate as the model their class names, so nesting is kept and an agent deeper than 5 is warned about | medium, not executed | AgentConfigModels.ValidatedNeverDeep | AgentConfigModels.NestedDeepWarned |

The nested-hierarchy test in tests/test_data_models.py:214-264 expects the deep-nesting warning. Its deepest agent sits at depth 5, and `depth > 5` would not flag that even with the nesting kept. `AgentConfigModels.DeepChainWarned` shows both behaviours on the seven-level chain.
