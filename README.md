# Aquaforest evaluation RAG agent — control logic

This project models the deterministic control logic of the Aquaforest retrieval-and-answer
agent. `EnhancedEvaluationRAGAgent.ask` builds an initial state and runs a LangGraph workflow
over it:

- set-up, then intent detection (five ordered phrase categories over the lower-cased
  question, and a chat-model label only when none matched);
- a routing step. A partnership or technical-support enquiry gets a fixed reply at
  confidence 10.0 or 9.0. A question about production secrets gets a fixed refusal at 9.0.
  Everything else enters the search loop;
- the search loop. Each attempt rewrites the question with a per-attempt strategy (focused,
  expanded, broad), queries the vector index and has the chat model score the results 1–10.
  The loop stops at the first score that reaches the intent's threshold, or after three
  attempts. When attempts run out the question is escalated, except for dosage questions;
- the answer node. It writes the escalation reply, the nothing-found reply, or a model-written
  answer built from the first three results with product links appended.

The project also models the dynamic query optimizer: the attempts context, the cleaner for
model-produced queries, keyword fallback, query variants and model intent detection.

The vector index and the chat model are parameters (`Oracles.Services`). The index is a
function from query and top-k to matches or a failure. The model is a function from a
structured prompt to a completion or a raised error. What the agent derives from their
answers is modelled: formatting, parsing, routing, the state merge and the loop. The
approximations are listed under "Left out" (character classes, log entries kept as values,
opaque prompt bodies).

The three logs (`attempt_history`, `all_results`, `evaluation_log`) are declared with the
`operator.add` reducer, so the list a node returns for them is appended to the current one.
Most nodes return `{**state, ...}` or `state` itself, which hands each log back whole. Each
such return therefore doubles every log it does not set explicitly. The model
keeps this behaviour: `State.Spread` is the update such a return makes. A question that is
short-circuited ends with four copies of the start line in its log. A question that
takes `k` search attempts ends with `4 * 2^k - 4` history records and `4 + 4k` log lines.
The answer prompt carries the log as it stands before the answer node runs.

Files:

- `state.dfy`: the graph state, the node update, the merge that appends to the three
  `operator.add` logs and overwrites every other field, and the update a node makes by
  returning the state spread back.
- `templates.dfy`: the fixed replies.
- `oracles.dfy`: the external services.
- `text.dfy`: string helpers (whitespace split, strip, lower-casing, search).
- `components.dfy`: search, query rewriting and the quality score.
- `dynamic_query_optimizer.dfy`: the model-driven optimizer.
- `intent_detection.dfy`, `business_handlers.dfy`, `workflow_nodes.dfy`: the nodes.
- `workflow.dfy`: the graph builder (a `StateGraph` class whose methods record nodes and
  edges), the routers, and a run of the compiled graph from any node to END.
- `agent.dfy`: `ask`.

## Model

| member | source | states |
|---|---|---|
| State.Merge | state.py:6-33 | The three annotated logs grow by exactly the node's entries, appended after the old ones. |
| State.MergeSpread | state.py:13-21 | Returning the state spread back doubles each of the three logs and leaves every other field as it was. The state is unchanged only when all three logs are empty. |
| Templates.RepliesGiveContactPhone | business_handlers.py:7-33 | Every fixed reply (partnership, support, trade secret, escalation, dosage fallback) gives the company phone number. |
| Components.FormatMatch | components.py:31-42 | A match keeps its index score, and a match without metadata becomes an untitled empty result. |
| Components.SearchResults | components.py:14-48 | One formatted result per match, in index order. |
| Components.SearchKnowledge | components.py:14-48 | The loop builds exactly the per-match results. A missing index or a failing query gives no results. |
| Components.OptimizeQueryForAttempt | components.py:50-121 | Attempt 1 gives a focused query, or the long words plus the domain suffix. Attempt 2 gives an expanded query. Any other attempt gives a broad query. |
| Components.FirstAttemptKeepsLongWords | components.py:84-87 | With no topic detected, attempt 1 searches for the question's words longer than three characters, then "akwarium Aquaforest". |
| Components.ShortComponentTermsWidenToMarine | components.py:59 | Any question containing one of the letters a, b, c or a digit 1–3 counts as a component question, so attempts 3+ use the marine broad query. |
| Components.PreviousEvaluationsUnused | components.py:50-121 | The rewritten query does not depend on the previous evaluations passed in. |
| Components.BuildEvaluationContext | components.py:130-135 | The loop builds the block text of the first four results. |
| Components.EvaluationBlocksReadText | components.py:130-135 | The evaluation context depends only on each result's title, type and body, not on its score, url or other fields. |
| Components.FirstScoreDigit | components.py:179-182 | The score is the leftmost digit 1–9 after a `CONFIDENCE:` label and optional spaces. None exactly when no label is followed by one. |
| Components.TenReadsAsOne | components.py:179 | The alternation tries `[1-9]` first, so "CONFIDENCE: 10" reads as 1. |
| Components.ParseReasoning | components.py:180-183 | The reasoning is the stripped text after the first `REASONING:` label when anything follows it. |
| Components.EvaluateContentQuality | components.py:123-189 | No results gives 0.0 with no model call. A model error gives 3.0. Otherwise the parsed digit, or 5.0 when there is none, so the score is a whole number from 1 to 9. The reasoning is the text after the first `REASONING:` label, stripped, or the fixed fallback when there is no label. |
| Components.ScoreReadsOnlyText | components.py:123-189 | The score ignores the index similarity scores and every result past the fourth. |
| DynamicQueryOptimizer.AttemptStrategy | dynamic_query_optimizer.py:133-140 | Attempt 1 is focused, attempt 2 expanded, every other attempt broad. |
| DynamicQueryOptimizer.StrategyTextSeparatesAttempts | dynamic_query_optimizer.py:133-140 | Two attempts get the same strategy text in the prompt exactly when they are the same attempt or both fall back to the third entry. |
| DynamicQueryOptimizer.AttemptsContext | dynamic_query_optimizer.py:142-161 | With no previous attempts, or on attempt 1, the context is the first-attempt text. |
| DynamicQueryOptimizer.BuildAttemptsContext | dynamic_query_optimizer.py:142-161 | The loop, with its early break, builds exactly the attempts context. |
| DynamicQueryOptimizer.LaterAttemptsIgnored | dynamic_query_optimizer.py:148-150 | Attempts numbered at or past the current one never reach the context. |
| DynamicQueryOptimizer.DropLeadingLabel | dynamic_query_optimizer.py:166 | The result is a suffix of the input, and input without a leading keywords/search/query label is kept. |
| DynamicQueryOptimizer.UnquoteRemovesPairs | dynamic_query_optimizer.py:167 | Removing quote pairs keeps every non-quote character in order and leaves one quote when the count was odd. |
| DynamicQueryOptimizer.CleanOptimalQuery | dynamic_query_optimizer.py:163-178 | The cleaned query always has 2 to 10 words. More than ten words are cut to the first ten. Two to ten are kept, single-spaced. Fewer than two get "aquarium Aquaforest" in front. |
| DynamicQueryOptimizer.CleanKeepsPlainQueries | dynamic_query_optimizer.py:163-178 | Cleaning is the identity on an already clean query of two to ten plain words. |
| DynamicQueryOptimizer.FallbackOptimization | dynamic_query_optimizer.py:180-194 | Attempt 1 gives the key terms plus "aquarium". Attempt 2 gives the key terms plus "Aquaforest products". Any other attempt gives the fixed broad query. |
| DynamicQueryOptimizer.KeyTermsAreWords | dynamic_query_optimizer.py:183 | Every extracted key term is a word of at least three characters. |
| DynamicQueryOptimizer.OptimizeQueryDynamically | dynamic_query_optimizer.py:31-114 | A model error falls back to keyword extraction. A completion gives the cleaned reply, always 2 to 10 words. |
| DynamicQueryOptimizer.NonBlankLines | dynamic_query_optimizer.py:224 | No more lines than given, each non-blank and with no whitespace at either end. |
| DynamicQueryOptimizer.NonBlankLinesKeeps | dynamic_query_optimizer.py:224 | Every line that is not blank once stripped is kept, stripped. |
| DynamicQueryOptimizer.NonBlankLinesOnly | dynamic_query_optimizer.py:224 | Every kept line is one of the given lines, stripped. |
| DynamicQueryOptimizer.NonBlankLinesAppend | dynamic_query_optimizer.py:224 | Filtering is done line by line in order: the lines of two concatenated runs are each run's lines, one after the other. |
| DynamicQueryOptimizer.CleanedVariants | dynamic_query_optimizer.py:227 | The i-th variant is the i-th line cleaned. There are min(n, lines) variants for n ≥ 0, and lines + n (at least 0) for a negative n. |
| DynamicQueryOptimizer.GenerateQueryVariants | dynamic_query_optimizer.py:196-235 | A model error gives the original query alone. Otherwise the variants are the first `num_variants` non-blank reply lines, each cleaned to 2 to 10 words. There are min(`num_variants`, lines) of them, and a negative count drops lines from the end as Python slicing does. |
| DynamicQueryOptimizer.DetectIntentWithLlm | dynamic_query_optimizer.py:237-274 | The result is always one of the six valid names: the normalised reply when it is one, else "general", and "general" on error. |
| IntentDetection.NoMatchKeeps | intent_detection.py:41-90 | When no category matches, the classification is left as it was. |
| IntentDetection.LastMatchWins | intent_detection.py:41-90 | The last matching category decides the intent and the threshold. |
| IntentDetection.TradeSecretSticky | intent_detection.py:54-57 | The trade-secret flag ends set exactly when some matching category sets it. |
| IntentDetection.BusinessTypeOfLastWriter | intent_detection.py:41-90 | The business type is the one written by the last matching category that writes one. |
| IntentDetection.PomocMeansSupport | intent_detection.py:71-90 | "pomoc" is both a problem and a support phrase. Support is checked last, so the question becomes support, technical_support, 6.5. |
| IntentDetection.ProductionSetsTradeSecret | intent_detection.py:47-57 | A production phrase sets the trade-secret flag whatever matches later. |
| IntentDetection.TradeSecretOnlyFromProduction | intent_detection.py:47-57 | Without a production phrase the trade-secret flag stays unset. |
| IntentDetection.PartnershipSurvives | intent_detection.py:34-90 | A business phrase without a support phrase leaves the business type "partnership". |
| IntentDetection.GeneralMeansNoMatch | intent_detection.py:34-90 | The intent stays "general" exactly when no phrase of any category occurs, and then nothing was changed. |
| IntentDetection.LastMatching | intent_detection.py:34-90 | Finds the last matching category at or after a given matching one. |
| IntentDetection.MapLabel | intent_detection.py:102-115 | A model label maps to the system intent and its threshold: technical 6.5, product to product_info 7.0, troubleshooting 6.5, setup 6.0, maintenance 6.5. Any other label gives general at 7.0. |
| IntentDetection.LlmClassification | intent_detection.py:93-125 | Without an optimizer the result is general at 7.0. The threshold is always 6.0, 6.5 or 7.0. |
| IntentDetection.ClassifyUsesModelOnlyForGeneral | intent_detection.py:93-125 | The chat model is consulted only when no phrase matched, and then it decides only the intent and threshold. |
| IntentDetection.AnalyzeQueryIntent | intent_detection.py:134-141 | The node writes the four classification fields and sets company_context_added. Its spread return doubles the three logs. Nothing else changes. |
| BusinessHandlers.HandleBusinessQuery | business_handlers.py:4-67 | Partnership gives the partnership reply at 10.0, and technical support the support reply at 9.0, with the logs doubled. Any other type (`return state`) only doubles the logs. |
| BusinessHandlers.CheckTradeSecrets | business_handlers.py:69-100 | With the filter set, the node writes the refusal at 9.0 and doubles the logs. Otherwise (`return state`) it only doubles the logs. |
| BusinessHandlers.BusinessReplyOnlyAnswers | business_handlers.py:4-67 | Apart from the answer, the continuation flag and the confidence, the state is the input with its logs doubled. The counters and classification are kept. A new answer is a fixed reply with the phone number. |
| BusinessHandlers.TradeSecretReplyOnlyAnswers | business_handlers.py:69-100 | The same, for the trade-secret refusal. |
| WorkflowNodes.InitializeEvaluation | workflow_nodes.py:11-30 | The search starts from the question at attempt 0, with the default classification and one start log entry, and no other field changes. |
| WorkflowNodes.ExecuteSearchAttempt | workflow_nodes.py:32-72 | One more attempt: the rewritten query, its results, one history record, one result list and one log entry. Nothing else changes. |
| WorkflowNodes.Decide | workflow_nodes.py:96-156 | Exactly one of four outcomes, each with its precise condition: dosage fallback, accepted, attempts exhausted, continue. |
| WorkflowNodes.EnhancedEvaluateContentQuality | workflow_nodes.py:74-156 | Continue exactly below threshold before attempt 3. Escalate only when attempts are exhausted for a non-dosage intent. The dosage fallback writes its reply at 7.0. The node writes only these fields. The evaluation log gains one entry. The spread return doubles the history and the result lists. |
| WorkflowNodes.EvaluationNeverEscalatesDosage | workflow_nodes.py:96-146 | A dosage question is never escalated, and the loop never continues at or past attempt 3. |
| WorkflowNodes.ProductLinks | workflow_nodes.py:187-194 | There are links exactly when some result is a product with a url, and never more than there are results. |
| WorkflowNodes.AnswerResults | workflow_nodes.py:187 | The answer uses the first three results, or all of them when there are fewer. |
| WorkflowNodes.CollectAnswerSources | workflow_nodes.py:187-194 | The loop builds the source blocks and product links of the first three results. |
| WorkflowNodes.GenerateEvaluationAnswer | workflow_nodes.py:158-235 | Escalation gives the escalation reply. No results gives the nothing-found reply. A model error gives the failure reply. Otherwise the model's text, with links appended when there are any. The merged state is the input with the answer written and the three logs doubled. |
| WorkflowNodes.AnswerIgnoresEarlierAnswer | workflow_nodes.py:158-235 | The answer node never reads the previous answer, so the dosage fallback reply is overwritten. |
| WorkflowNodes.AnswerReadsFirstThree | workflow_nodes.py:187-194 | Results past the third never change the answer. |
| Workflow.BusinessOrTradeSecrets | workflow.py:31-37 | A business type wins over the trade-secret flag. Each of the three targets is chosen exactly under its condition. |
| Workflow.ContinueOrFinish | workflow.py:57-61 | Loop back to search exactly when the evaluation asked to continue, else answer. |
| Workflow.StateGraph.constructor | workflow.py:15 | A new graph has no nodes and no edges. |
| Workflow.StateGraph.AddNode | workflow.py:18-24 | Registers one node after the existing ones and leaves the edges alone. |
| Workflow.StateGraph.AddEdge | workflow.py:27-28 | Appends one fixed edge and leaves the nodes alone. |
| Workflow.StateGraph.AddConditionalEdges | workflow.py:39-47 | Appends one routed edge with its path map and leaves the nodes alone. |
| Workflow.CreateEnhancedEvaluationWorkflow | workflow.py:13-74 | The built graph has the seven nodes and the eight edges, in the order added. |
| Workflow.WorkflowWellWired | workflow.py:13-74 | Every edge leaves and reaches a registered node, START or END. |
| Workflow.WorkflowRoutes | workflow.py:27-72 | Each node's successor in the compiled graph is the one the builder wired. |
| Workflow.Execute | workflow.py:74 | A run from any node in a state meeting `Inv` ends; at START, the only entry `invoke` uses, every state meets it. It never rewrites the question, the three logs only grow, and it takes a bounded number of steps. |
| Workflow.LastAttempt | workflow_nodes.py:127-156 | The attempt the loop stops at: the first whose score reaches the threshold, else the third. |
| Workflow.RoundEffect | workflow_nodes.py:32-156 | One search and its evaluation advance the counter and set continuation, escalation and confidence from the verdict. The evaluation log gains two lines. The history and result lists gain one entry each and are then doubled: h becomes 2(h + 1). |
| Workflow.GrownLengthClosed | workflow_nodes.py:64-155 | After n rounds a list of length h has length 2^n (h + 2) - 2. |
| Workflow.AttemptLoop | workflow.py:54-70 | The loop runs rounds up to the stopping attempt, then answers once on the state the last evaluation left. It escalates exactly when that score is below threshold for a non-dosage intent. The classification is kept. The history and results grow by the round recurrence, and the evaluation log by two lines a round. |
| Workflow.EscalationGivesEscalationReply | workflow_nodes.py:161-174 | The final state is the loop's end state with the answer written and the logs doubled. When it escalates, the answer is the escalation reply. |
| Workflow.DosageFallbackReplaced | workflow_nodes.py:96-124 | A dosage question is never escalated, and its fallback reply never reaches the user: no results gives the nothing-found reply. |
| Workflow.IntakeEffect | workflow_nodes.py:11-30 | After set-up and intent analysis the state holds the question's classification at attempt 0, not escalated. The start line is appended, and intent analysis then doubles all three logs. |
| Workflow.RunFromStart | workflow.py:13-74 | A run is set-up and intent analysis, then either one handler and END, or the attempt loop. |
| Workflow.ShortCircuitOutcome | workflow.py:31-51 | A short-circuited question ends with the handler's reply and confidence and runs no search. Apart from those fields the final state is the state after intake with its logs doubled. |
| Workflow.SearchPathOutcome | workflow.py:31-72 | A question routed to search gets the attempt loop's outcome, log growth included. |
| Agent.Ask | agent.py:9-59 | The record echoes the question. An exception gives the system-error record: escalated, attempt 0, intent "error", no history. |
| Agent.IntakeOfQuestion | agent.py:14-34 | From the initial state, intake leaves the question's classification, empty history and results, and the start line twice. |
| Agent.ShortCircuitAnswers | agent.py:34-47 | Partnership, support and trade-secret questions get their fixed replies and confidences, with no search, an empty history and the start line four times in the log. |
| Agent.SearchPathAnswers | agent.py:34-47 | Other questions run k searches (1 ≤ k ≤ 3) and one answer. They end with 4·2^k − 4 history records and 4 + 4k log lines. Escalation happens exactly when the last score misses the threshold for a non-dosage intent, and the reply is then the escalation text. |
| Agent.AtMostThreeSearches | config.py:15 | No question is searched more than three times, and no run takes more than nine steps. |

## Left out

- The LangGraph runtime itself is not modelled: scheduling, checkpointing and the default recursion limit. A run is the sequential application of nodes and edges, which never comes near that limit.
- Console printing, timestamps and emoji logging are not modelled. Log entries are kept as structured values (`State.LogEntry`), not formatted strings, so float formatting in log lines is not modelled.
- The vector index and the chat model are parameters. The model assumes that identical prompts get identical replies.
- Prompt bodies are opaque: `Oracles.Prompt` records only the fields each prompt is built from.
- Python `str.lower`, `\w` and `re.IGNORECASE` are approximated: ASCII plus the Polish letters for case folding and word characters. Full Unicode case folding is not modelled. Whitespace (`\s`, `split`, `strip`) is the full set `str.isspace` accepts.
- The chat-model intent step's `except` branch in `analyze_query_intent` is not modelled separately. `detect_intent_with_llm` already catches every model error and returns "general", which maps to the same values.
- `get_dynamic_optimizer`'s module-level singleton is not modelled. A construction failure is the optimizer being absent (`Services.optimizer` is None). The chat-model property's RuntimeError is a `Raised` reply.
- Configuration loading, environment variables and the expert prompt text are left out. `CONFIDENCE_THRESHOLDS` from config.py is never read by the core.
- The test drivers and stress-test question lists are left out.
- `optimize_query_dynamically` is not called by the workflow. It is modelled as a standalone operation.
- The dictionaries of previous attempts are modelled as notes with optional text fields (`DynamicQueryOptimizer.AttemptNote`). The confidence is kept as text, and a missing `previous_attempts` is taken as the empty list.
- DynamicQueryOptimizer.CleanOptimalQuery: is stated on the word sequence after label and quote removal. The character-level `\s+` normalisation is folded into splitting and joining words.
- The fixed focused, expanded and broad queries are returned unchanged. The final `.strip()` has no effect on them.
- The final answer is recorded either as a fixed template or as generated text. `State.AnswerText` gives the string the user sees.
- An exception raised anywhere inside `workflow.invoke` is taken as the `failure` parameter of `Agent.Ask`, not derived from the nodes.
- The comments at workflow_nodes.py lines 95 and 122 present the dosage fallback as the reply given instead of escalating. In the code, `generate_evaluation_answer` runs after the evaluation and overwrites that reply with the nothing-found or model-written answer. The model follows the code (`Workflow.DosageFallbackReplaced`).
- The index similarity score is kept on each result, but nothing downstream reads it.
- The broken import of a second state type at intent_detection.py line 2 is taken as the same state type as the rest of the workflow.
