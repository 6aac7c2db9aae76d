# ABMEL marketing tool — a verified model of its agent pipeline

ABMEL plans and runs a marketing campaign with a team of agents. The planning agent
normalises the campaign input and builds a four-node task graph:
market research → persona modelling → creative generation → decision.
The agent orchestrator schedules that graph. It launches every idle node whose
dependencies have completed, merges each result into a shared context and emits
lifecycle events. It also applies two bounded loop-back rules, a guardrail rejection
and a decision-triggered regeneration (at most three). Around the orchestrator sit:

- the agents: decision, guardrails, creative generation with its retry and output
  validation, the three evaluation scorers, market intelligence and persona modelling,
  all built on a shared agent base with a status and an accumulating log;
- the UI-side stores: the campaign store, which mirrors the orchestrator's events into
  its own copy of the graph, and the notification store with its unread counter;
- the services: mock data, guideline text extraction, the database facade;
- a second, linear pipeline built on LangChain, which threads a state through four
  stages, fails fast, and always ends with exactly five creative variants.

Modules follow the source files:

| module | file | source |
|---|---|---|
| `Wrappers`, `Strings`, `Json` | wrappers.dfy, strings.dfy, json.dfy | JavaScript values, truthiness, `\|\|`, `??`, lowercasing, trimming and `includes` as the code uses them |
| `Graph` | graph.dfy | src/types/graph.ts, src/types/abmel.ts |
| `BaseAgent` | base_agent.dfy | src/services/agents/BaseAgent.ts |
| `Planning` | planning.dfy | src/services/agents/PlanningAgent.ts |
| `Decision` | decision.dfy | src/services/agents/DecisionAgent.ts |
| `Guardrails` | guardrails.dfy | src/services/agents/GuardrailsAgent.ts |
| `CreativeGeneration` | creative_generation.dfy | src/services/agents/CreativeGenerationAgent.ts |
| `Evaluation` | evaluation.dfy | src/services/agents/EvaluationAgents.ts |
| `MarketIntelligence` | market_intelligence.dfy | src/services/agents/MarketIntelligenceAgent.ts |
| `PersonaModeling` | persona_modeling.dfy | src/services/agents/PersonaModelingAgent.ts |
| `Scheduler`, `SchedulerProperties`, `Runs` | scheduler.dfy, scheduler_properties.dfy, runs.dfy | src/services/AgentOrchestrator.ts, as state-transformer functions and their properties |
| `Orchestrator` | orchestrator.dfy | src/services/AgentOrchestrator.ts, as a class whose methods are proved against `Scheduler` |
| `CampaignStore`, `StoreProperties`, `Mirror` | campaign_store.dfy, store_properties.dfy, mirror.dfy | src/store/useCampaignStore.ts, and how its mirror relates to the orchestrator |
| `NotificationStore` | notification_store.dfy | src/store/useNotificationStore.ts |
| `MockData` | mock_data.dfy | src/services/MockDataService.ts |
| `Extraction` | extraction.dfy | src/services/ingestion/ExtractionService.ts |
| `Supabase` | supabase.dfy | src/services/SupabaseService.ts |
| `Workflow` | workflow.dfy | src/services/langchain/workflow.ts |

How the model is built:

- Agent data and the shared context are records of JavaScript values (`Json.Value`).
  `undefined` and `null` are kept apart, so `||`, `??`, truthiness and `=== false`
  behave as in the code.
- Everything the code cannot decide for itself is a parameter: the agents' answers, the
  language model's replies, `JSON.parse`, database answers, `Math.random` draws, the
  clock and thrown exceptions.
- The orchestrator's asynchronous launches are sequentialised. A scheduling pass marks
  every ready node running, emits `node_start` and records the call with a copy of the
  context. The completions are then settled one at a time, in any order the caller
  picks. Each `AgentOrchestrator` method ensures that the new state is the matching
  `Scheduler` function of the old state. The scheduling properties are lemmas about
  those functions.
- The campaign store owns an orchestrator and is its only subscriber. After each
  orchestrator call, the store folds the new events through the same reducer the source
  installs.
- The decision score is a JavaScript number. `Binary64` holds it exactly, as an integer
  count of 2^-55, and rounds each product and sum to 53 significant bits, ties to even,
  as binary64 arithmetic does. The exact sum in tenths, `5·ctr + 3·mem + 2·brand`, is kept
  beside it as a reference. The database temperature 0.7 is kept in tenths.

## Model

| member | source | states |
|---|---|---|
| BaseAgent.LogEntryShape | src/services/agents/BaseAgent.ts:14-17 | a log line is `[timestamp] [name] message`: bracketed timestamp, bracketed name, then the message, with its exact length |
| BaseAgent.Agent.constructor | src/services/agents/BaseAgent.ts:3-10 | a new agent has the given name, status `idle` and an empty log |
| BaseAgent.Agent.Log | src/services/agents/BaseAgent.ts:14-19 | `log` appends exactly one entry, built from the timestamp, the agent's name and the message, at the end of the log; the status is unchanged |
| BaseAgent.Agent.GetLogs | src/services/agents/BaseAgent.ts:21-23 | returns the accumulated log |
| BaseAgent.Agent.SetStatus | src/services/agents/BaseAgent.ts:5 | the status field takes the new value; the log is unchanged |
| BaseAgent.EntriesAppend | src/services/agents/BaseAgent.ts:14-17 | logging in two rounds appends the same entries as logging all the messages at once |
| BaseAgent.LogsOnlyGrow | src/services/agents/BaseAgent.ts:6-23 | the log is never cleared: earlier entries stay a prefix, one entry per call, each ending with its message |
| Planning.GoalTableExact | src/services/agents/PlanningAgent.ts:74-80 | the goal table accepts exactly the five spellings `awareness`, `brand awareness`, `conversion`, `conversions`, `engagement`, onto the three goals, and nothing else |
| Planning.GoalIsCaseAndSpaceInsensitive | src/services/agents/PlanningAgent.ts:82-85 | a string goal is looked up lowercased and trimmed; normalisation succeeds exactly when that key is in the table |
| Planning.MissingGoalIsAwareness | src/services/agents/PlanningAgent.ts:82 | a missing or falsy goal normalises to AWARENESS |
| Planning.RetentionIsRejected | src/services/agents/PlanningAgent.ts:82-87 | a goal of 'Retention' makes `execute` fail with the validation message |
| Planning.UnmappedGoalFails | src/services/agents/PlanningAgent.ts:83-87 | a goal outside the table is rejected with `Invalid Campaign Goal: "<goal>". Must be Awareness, Conversions, or Engagement.` |
| Planning.NormalizeDefaults | src/services/agents/PlanningAgent.ts:89-97 | every accepted input gets the defaults "Unknown Product", "General Audience", "", the LinkedIn/Twitter platforms unless an array is given, "Not specified", and keeps the campaign id |
| Planning.GoalNameRoundTrip | src/services/agents/PlanningAgent.ts:74-83 | the goal name written into the normalised record maps back onto the same goal |
| Planning.NormalizeIdempotent | src/services/agents/PlanningAgent.ts:72-98 | normalising an already normalised record gives the same record |
| Planning.RecordGoal | src/services/agents/PlanningAgent.ts:89-97 | the normalised record's goal key is a string that maps back onto its goal |
| Planning.PipelineShape | src/services/agents/PlanningAgent.ts:100-144 | the pipeline holds exactly four idle nodes, each keyed by its own id and without a result, enumerated in insertion order |
| Planning.PipelineKeys | src/services/agents/PlanningAgent.ts:100-144 | the pipeline's keys are exactly the four node ids, the same set as the enumeration order, four in all |
| Planning.PipelineNodesIdle | src/services/agents/PlanningAgent.ts:100-144 | every pipeline node carries its own key as its id, is idle and has no result |
| Planning.PipelineDependencies | src/services/agents/PlanningAgent.ts:107-137 | the dependencies are exactly market_research ← persona_modeling ← creative_generation (also on market_research) ← decision |
| Planning.PipelineIsTopologicallyOrdered | src/services/agents/PlanningAgent.ts:100-144 | every dependency names a node of the graph that comes earlier in the insertion order |
| Planning.ToRecordContents | src/services/agents/PlanningAgent.ts:89-97 | the normalised record holds exactly its seven fields |
| Planning.SeedContextContents | src/services/agents/PlanningAgent.ts:36-42 | the seeded context holds the normalised fields, `rejected_variants` [], `loop_count` 0, `history` [] and the campaign id |
| Planning.ExecuteOnValidInput | src/services/agents/PlanningAgent.ts:25-58 | a successful normalisation yields a plan whose graph has the pipeline order and exactly four well-formed, self-keyed, idle nodes without results, the decision node depending on creative generation; the context starts with loop count 0, no rejected variants and the goal's name, which maps back to the goal; the reasoning is `Selected standard pipeline for <GOAL>.` |
| Planning.ExecuteFailsOnlyOnBadGoal | src/services/agents/PlanningAgent.ts:60-69 | `execute` fails exactly when normalisation throws, carrying its message; that happens only when the raw goal throws or is not in the table |
| Planning.InheritedGoalPassesGuard | src/services/agents/PlanningAgent.ts:74-85 | as written, a goal of 'Constructor' finds the inherited `constructor` member of the object literal, so the `!mappedGoal` guard lets it through although it is not in the table |
| Planning.GoalLookupCorrected | src/services/agents/PlanningAgent.ts:74-85 | the own-entry lookup the model uses agrees with the object lookup on every own key, and rejects every key outside the five spellings |
| Decision.CandidatesExact | src/services/agents/DecisionAgent.ts:13-20 | the candidates are the variants whose id is not in `rejected_variants`, in their order: every kept variant is unrejected and every unrejected variant is kept; the filter succeeds only when no variant is nullish |
| Decision.ScoreAllAt | src/services/agents/DecisionAgent.ts:38-44 | each candidate is paired with its id and its weighted score, position by position |
| Decision.InsertPermutes | src/services/agents/DecisionAgent.ts:46 | inserting into the ranking adds exactly that element |
| Decision.InsertFacts | src/services/agents/DecisionAgent.ts:46 | inserting into a ranking sorted by descending score keeps it sorted and adds exactly that element |
| Decision.InsertSorted | src/services/agents/DecisionAgent.ts:46 | inserting into a ranking sorted by descending score keeps it sorted |
| Decision.RankSortedPermutation | src/services/agents/DecisionAgent.ts:46 | the ranking is sorted by descending score and is a permutation of the scored candidates |
| Decision.RankSorted | src/services/agents/DecisionAgent.ts:46 | the ranking is sorted by descending score |
| Decision.RankPermutes | src/services/agents/DecisionAgent.ts:46 | the ranking holds exactly the scored candidates, as a multiset |
| Decision.InsertStable | src/services/agents/DecisionAgent.ts:46 | insertion keeps the relative order of elements with equal scores |
| Decision.RankStable | src/services/agents/DecisionAgent.ts:46 | the sort is stable: candidates with equal scores keep their input order |
| Decision.Ids | src/services/agents/DecisionAgent.ts:50 | the ranking lists the ids of the ranked candidates, position by position |
| Decision.MissingMetricCountsAsFifty | src/services/agents/DecisionAgent.ts:39-42 | a missing or zero metric counts as 50, so a candidate with none scores exactly 50: every product and sum of the weighting is exact |
| Decision.RegenerationExactlyWhenNoCandidates | src/services/agents/DecisionAgent.ts:22-34 | the result is always completed, and asks for regeneration exactly when no candidate is left, reporting the number of rejected ids |
| Decision.RankHeadIsMax | src/services/agents/DecisionAgent.ts:46-48 | the first-ranked element is one of the input with the highest score |
| Decision.ExecuteSelectsWinner | src/services/agents/DecisionAgent.ts:36-80 | with candidates left, `execute` completes with the winner data built from the ranking of the scored candidates: the winner with its score, its id, the ranked ids, and a reasoning record holding the summary and the metrics breakdown |
| Decision.RankedHeadIsBestCandidate | src/services/agents/DecisionAgent.ts:38-48 | the first-ranked entry is a candidate paired with its own id and weighted score, and no candidate has a higher weighted score |
| Decision.WinnerIsBestUnrejected | src/services/agents/DecisionAgent.ts:20-67 | the winner is a variant that is not rejected, no candidate scores higher, and its id is the recommended variant |
| Decision.RankingCoversCandidates | src/services/agents/DecisionAgent.ts:46-50 | the ranking is a sorted permutation of the scored candidates and lists one id per candidate |
| Decision.BreakdownDefaultsToZero | src/services/agents/DecisionAgent.ts:72-74 | the metrics breakdown reports a missing metric as 0, not 50 |
| Decision.TopMetricIsMaximal | src/services/agents/DecisionAgent.ts:83-90 | the top metric names CTR exactly when it is at least both others, Memorability exactly when CTR is not and memorability is at least brand, Brand Alignment otherwise |
| Decision.SummaryStartsWithLead | src/services/agents/DecisionAgent.ts:53-55 | the summary opens with the winner's headline and its score to one decimal, followed by its strongest metric and then the runner-up sentence |
| Decision.RunnerUpReported | src/services/agents/DecisionAgent.ts:49-55 | the runner-up sentence is present exactly when there is a second candidate, and the margin it reports, a double difference, is never negative |
| Decision.TieWrittenAlike | src/services/agents/DecisionAgent.ts:53 | the two tied candidates' doubles, 76.69999999999999 and 76.7, are both written as `76.7` |
| Binary64.ToFixed1Nearest | src/services/agents/DecisionAgent.ts:53-55 | `toFixed(1)` writes the sign, then the number of tenths nearest the magnitude, a tie going up, with one digit after the point |
| Binary64.SubNonNegative | src/services/agents/DecisionAgent.ts:55 | the double difference of a score and a smaller one is not negative, so its rendering has no minus sign |
| Binary64.RoundError | src/services/agents/DecisionAgent.ts:42 | rounding a value to a double moves it by at most 2^-53 of its magnitude, and leaves a value below 2^53 unchanged |
| Binary64.DropNearest | src/services/agents/DecisionAgent.ts:42 | rounding to 53 significant bits lands within half a unit in the last place |
| Binary64.RoundRepresentable | src/services/agents/DecisionAgent.ts:42 | every rounded value is a significand of at most 53 bits times the unit in the last place |
| Decision.WeightedNearTenths | src/services/agents/DecisionAgent.ts:42 | for metrics up to a million in magnitude the double computed for `s1·0.5 + s2·0.3 + s3·0.2` is within a twentieth of a point of the exact sum |
| Decision.TenthsOrderKept | src/services/agents/DecisionAgent.ts:42-46 | a strictly higher exact score gives a strictly higher double, so the doubles reorder only exact ties |
| Decision.TenthsTieSplit | src/services/agents/DecisionAgent.ts:42 | metrics 75, 72, 88 and 75, 70, 91 both weigh exactly 76.7, yet the first double is below the second |
| Decision.TieRankedByDoubles | src/services/agents/DecisionAgent.ts:42-48 | of those two candidates the second is ranked first: the ranking follows the doubles, not the exact sums |
| Decision.WinnerHasBestTenths | src/services/agents/DecisionAgent.ts:36-48 | with moderate metrics the winner is a candidate whose exact score no other candidate exceeds |
| Guardrails.MissingCreativeFails | src/services/agents/GuardrailsAgent.ts:11-27 | without a truthy selected creative the result fails with `passed` false and the error `No creative provided for validation` |
| Guardrails.UnsafeCreativeRejected | src/services/agents/GuardrailsAgent.ts:36-51 | an unsafe draw rejects the creative: the result completes with `passed` false, two issues and the creative's id as `failed_variant_id`, and does not echo the creative |
| Guardrails.SafeCreativePasses | src/services/agents/GuardrailsAgent.ts:53-77 | a safe creative passes with no issues, is echoed back unchanged, and carries a compliance report of score 98 with four passing checks |
| Guardrails.PassedFalseOnlyWhenRejectedOrMissing | src/services/agents/GuardrailsAgent.ts:13-77 | every result says whether it passed; a completed result with `passed` false occurs exactly for a present creative and an unsafe draw, and the result fails exactly when the creative is missing |
| CreativeGeneration.FirstAbsent | src/services/agents/CreativeGenerationAgent.ts:135-136 | the position of the first `null` or `undefined` creative, every earlier one being present, or the length when all are present |
| CreativeGeneration.CleanedReplyHasNoFence | src/services/agents/CreativeGenerationAgent.ts:118 | after removing every "```json" and then every "```", the cleaned reply contains no fence at all |
| CreativeGeneration.StrategyInEnum | src/services/agents/CreativeGenerationAgent.ts:133-136 | the chosen strategy is always one of the five; a valid `strategy_type` is kept, anything else becomes the enum value at the position modulo 5 |
| CreativeGeneration.TextDefaults | src/services/agents/CreativeGenerationAgent.ts:141-145 | a text field keeps a truthy value and otherwise takes its default ("Untitled Creative", "", "No visual description provided.", "Neutral", "General") |
| CreativeGeneration.MapCreativeShape | src/services/agents/CreativeGenerationAgent.ts:135-147 | a present creative maps to a variant with id index+1, `is_best_creative` false, an enum strategy and its defaulted text fields; mapping throws exactly on an absent one, reading `strategy_type` |
| CreativeGeneration.MapAllShape | src/services/agents/CreativeGenerationAgent.ts:135-147 | mapping the creatives succeeds exactly when none is `null` or `undefined`, and then builds each at its own position |
| CreativeGeneration.ValidateAcceptsExactlyFive | src/services/agents/CreativeGenerationAgent.ts:124-148 | validation succeeds exactly on a record whose `creatives` is an array of five present items, and then returns five variants with ids "1" to "5" in order, none marked best, each with an enum strategy |
| CreativeGeneration.AttemptSucceeds | src/services/agents/CreativeGenerationAgent.ts:109-148 | an attempt succeeds exactly when the model answered and the cleaned answer parses to an acceptable reply; a failed call keeps its error and an unparsable answer gives `Invalid JSON response from LLM` |
| CreativeGeneration.ValidateErrors | src/services/agents/CreativeGenerationAgent.ts:124-130 | the error of each rejected reply: the TypeError on a nullish parse, `Response missing 'creatives' array`, `Expected 5 creatives, got <n>` |
| CreativeGeneration.FinalErrorText | src/services/agents/CreativeGenerationAgent.ts:40 | the final error reads `Final Error after 2 attempts: <message>` |
| CreativeGeneration.RunAttempt | src/services/agents/CreativeGenerationAgent.ts:19-34 | one pass of the loop body returns that attempt's outcome and logs its announcement, followed by its error when it fails |
| CreativeGeneration.Retry | src/services/agents/CreativeGenerationAgent.ts:15-48 | the loop's result is the one built from the first success or the last error, the status field agrees with it, and the log grows by exactly the lines of the attempts made |
| CreativeGeneration.AtMostTwoAttempts | src/services/agents/CreativeGenerationAgent.ts:16-18 | only attempts 1 and 2 are consulted: two oracles that agree on them give the same result and the same log |
| CreativeGeneration.RetryOutcome | src/services/agents/CreativeGenerationAgent.ts:18-48 | a first success is returned with no second attempt; the result fails exactly when both attempts fail, with the second error, and a success carries `{variants}` |
| CreativeGeneration.Execute | src/services/agents/CreativeGenerationAgent.ts:10-58 | `execute` is the retry loop over `generateCreatives`: its result, status and log are those of the loop over the attempts |
| Evaluation.RandomScoreInRange | src/services/agents/EvaluationAgents.ts:5 | for a draw in [0, 1) and min <= max, `randomScore(min, max)` is an integer in [min, max] |
| Evaluation.ScoresErrPersists | src/services/agents/EvaluationAgents.ts:21-24 | once the `forEach` callback throws, the throw is the outcome of the whole loop |
| Evaluation.ScoreEach | src/services/agents/EvaluationAgents.ts:21-24 | the `forEach` loop scores each variant in order with the next draw and stops at the first absent one, giving the score map of the specification |
| Evaluation.Execute | src/services/agents/EvaluationAgents.ts:11-93 | `execute` settles as the specification says and logs the opening line, then the tally `Scored <n> variants for <metric>.` |
| Evaluation.ScoreKeysAreIds | src/services/agents/EvaluationAgents.ts:21-24 | scoring succeeds exactly when every variant is present, and then the keys are exactly the variants' ids |
| Evaluation.ScoresOkExactly | src/services/agents/EvaluationAgents.ts:21-24 | the `forEach` completes exactly when no variant is `null` or `undefined` |
| Evaluation.ScoresKeys | src/services/agents/EvaluationAgents.ts:21-24 | a completed score map is keyed by exactly the variants' ids |
| Evaluation.LastWriteWins | src/services/agents/EvaluationAgents.ts:21-24 | the score stored under an id is the draw of the last variant carrying that id |
| Evaluation.ScoresInRange | src/services/agents/EvaluationAgents.ts:23-81 | every stored score lies in the agent's range |
| Evaluation.AbsentVariantsGiveEmptyMap | src/services/agents/EvaluationAgents.ts:15-34 | without `variants` the agent completes with an empty score map under its own key |
| Evaluation.AlwaysCompletes | src/services/agents/EvaluationAgents.ts:15-34 | on an array of present variants the agent always completes, with the scores under its own key |
| MarketIntelligence.DetectIsFirstMatch | src/services/agents/MarketIntelligenceAgent.ts:55-63 | the detected industry is the first keyword group, in the fixed order, with a keyword in the lowercased product, and `general_tech` exactly when no group matches |
| MarketIntelligence.SaasWinsTies | src/services/agents/MarketIntelligenceAgent.ts:57 | a product mentioning "app" is saas whatever else it mentions |
| MarketIntelligence.SubstringMatch | src/services/agents/MarketIntelligenceAgent.ts:56-57 | keywords match as substrings, so "Chair" is detected as saas |
| MarketIntelligence.IndustryEchoed | src/services/agents/MarketIntelligenceAgent.ts:117-119 | the output's `industry` is the detected industry's name |
| MarketIntelligence.FmcgFallsBack | src/services/agents/MarketIntelligenceAgent.ts:60-115 | fmcg has no strategy entry and gets the general-tech content under its own name |
| MarketIntelligence.SummaryNamesIndustryAndProduct | src/services/agents/MarketIntelligenceAgent.ts:118 | the summary reads "The <industry> market for <product> ..." |
| MarketIntelligence.ExecuteOnStringProduct | src/services/agents/MarketIntelligenceAgent.ts:19-41 | a string product always completes with the detected industry, and nothing in the input but the product affects the result |
| MarketIntelligence.MissingProductDefaults | src/services/agents/MarketIntelligenceAgent.ts:27 | a falsy product is analysed as "Generic Product" |
| PersonaModeling.SelectKeyExact | src/services/agents/PersonaModelingAgent.ts:158-161 | each archetype is selected by exactly its industry strings (saas or tech; fashion; health) and every other value, however capitalised, selects the general archetype |
| PersonaModeling.MarketIndustriesSelect | src/services/agents/PersonaModelingAgent.ts:158-161 | of the industries the market agent emits, saas, fashion and health select their own archetype and fintech, fmcg and general_tech the general one |
| PersonaModeling.MissingIndustryIsGeneral | src/services/agents/PersonaModelingAgent.ts:43 | a falsy industry selects the general archetype |
| PersonaModeling.ExecuteShape | src/services/agents/PersonaModelingAgent.ts:35-167 | the agent always completes; the persona list is the selected primary persona alone, the top-level constraints are that persona's, and the audience does not affect the result |
| Scheduler.ReadyKeys | src/services/AgentOrchestrator.ts:84-105 | every collected key names a node of the graph |
| Scheduler.LaunchOne | src/services/AgentOrchestrator.ts:124-142 | a launch keeps the set of nodes and the context, and every in-flight call names a node |
| Scheduler.LaunchAll | src/services/AgentOrchestrator.ts:113-116 | launching the ready nodes keeps the set of nodes and the context, and every in-flight call names a node |
| Scheduler.Pass | src/services/AgentOrchestrator.ts:77-122 | a pass keeps the set of nodes and the context, and every in-flight call names a node |
| Scheduler.ResetOne | src/services/AgentOrchestrator.ts:229-236 | resetting one id keeps the set of nodes, the context and the in-flight calls |
| Scheduler.ResetAll | src/services/AgentOrchestrator.ts:227-238 | resetting keeps the set of nodes, the context and the in-flight calls |
| SchedulerProperties.RemoveKeepsOthers | src/services/AgentOrchestrator.ts:142 | settling one call removes exactly that call: the calls before it keep their places, the later ones close up by one, and the multiset of calls loses only the settled one |
| Scheduler.Complete | src/services/AgentOrchestrator.ts:144-153 | a completion keeps the set of nodes and the in-flight calls |
| Scheduler.Fail | src/services/AgentOrchestrator.ts:213-221 | a failure keeps the set of nodes, the in-flight calls and the context |
| Scheduler.Reject | src/services/AgentOrchestrator.ts:168-178 | a rejection keeps the set of nodes and the in-flight calls |
| Scheduler.GiveUp | src/services/AgentOrchestrator.ts:185-192 | giving up keeps the set of nodes and the in-flight calls |
| Scheduler.Regenerate | src/services/AgentOrchestrator.ts:194-211 | a regeneration keeps the set of nodes and the in-flight calls |
| Scheduler.AfterCompletion | src/services/AgentOrchestrator.ts:155-211 | the control points keep the set of nodes, and every in-flight call names a node |
| Scheduler.Settle | src/services/AgentOrchestrator.ts:142-224 | settling a call keeps the set of nodes, and every remaining in-flight call names a node |
| SchedulerProperties.ReadyKeysExact | src/services/AgentOrchestrator.ts:87-105 | a node is collected exactly when it is enumerated, idle and every dependency is a completed node |
| SchedulerProperties.MissingDependencyBlocks | src/services/AgentOrchestrator.ts:100 | a dependency that names no node keeps its dependant from ever being ready |
| SchedulerProperties.ReadyKeysDistinct | src/services/AgentOrchestrator.ts:87-105 | a pass collects each node at most once |
| SchedulerProperties.LaunchOneEffect | src/services/AgentOrchestrator.ts:124-142 | a launch sets the node running (failed for an unregistered agent), and a registered agent gets one in-flight call with the context and one `node_start`; nothing else changes |
| SchedulerProperties.LaunchAllNodes | src/services/AgentOrchestrator.ts:113-116 | launching distinct keys changes exactly those nodes |
| SchedulerProperties.LaunchAllKeepsOthers | src/services/AgentOrchestrator.ts:113-116 | a node that is not launched is not touched |
| SchedulerProperties.LaunchAllCalls | src/services/AgentOrchestrator.ts:115-142 | launching appends one in-flight call, carrying the context, per registered agent, in launch order |
| SchedulerProperties.LaunchAllEvents | src/services/AgentOrchestrator.ts:115-136 | launching appends one `node_start` per registered agent, in launch order, and writes nothing |
| SchedulerProperties.PassEffect | src/services/AgentOrchestrator.ts:77-122 | with every node completed a pass emits only `graph_complete`; otherwise it launches exactly the ready nodes |
| SchedulerProperties.NoRelaunch | src/services/AgentOrchestrator.ts:89-104 | a pass leaves a node that is not ready untouched, so a running or completed node is never relaunched |
| SchedulerProperties.StartEventsAreStarts | src/services/AgentOrchestrator.ts:136 | the launch events are all `node_start` |
| SchedulerProperties.GraphCompleteExactlyWhenAllDone | src/services/AgentOrchestrator.ts:107-110 | a pass emits `graph_complete` exactly when no enumerated node has another status |
| SchedulerProperties.StallIsSilent | src/services/AgentOrchestrator.ts:118-121 | with some node unfinished and none ready a pass changes nothing |
| SchedulerProperties.ResetAllNode | src/services/AgentOrchestrator.ts:227-238 | resetting sends exactly the listed, present nodes back to idle with no result |
| SchedulerProperties.ResetAllLog | src/services/AgentOrchestrator.ts:229-236 | resetting emits one `node_reset` per present id in list order and changes neither the order, the writes nor the subscribers |
| SchedulerProperties.CompleteEffect | src/services/AgentOrchestrator.ts:144-150 | a completed result completes the node with the data as its result, merges the data over the context and emits one `node_complete` |
| SchedulerProperties.SettleFailure | src/services/AgentOrchestrator.ts:213-224 | a failed result or a throw fails the node, emits `node_fail` with the result or the error and runs another pass |
| SchedulerProperties.CreativeGenerationStops | src/services/AgentOrchestrator.ts:158-163 | after creative generation completes, `graph_complete` follows its `node_complete` and nothing is launched |
| SchedulerProperties.RejectEffect | src/services/AgentOrchestrator.ts:168-178 | a rejection appends the failed variant id to the rejected list and resets decision and guardrails |
| SchedulerProperties.OnlyCompletedRejectionLoopsBack | src/services/AgentOrchestrator.ts:144-168 | only a completed guardrails result with `passed === false` changes the rejected list |
| SchedulerProperties.CeilingStops | src/services/AgentOrchestrator.ts:181-192 | at a loop count of three or more the decision node fails, the context records the error, `node_fail` is emitted for decision and no pass runs |
| SchedulerProperties.RegenerateEffect | src/services/AgentOrchestrator.ts:194-210 | below the ceiling the loop count goes up by one, the rejections are cleared and exactly the six cohort nodes are reset |
| SchedulerProperties.LaunchAllExtends | src/services/AgentOrchestrator.ts:113-116 | launching only appends to the event log and keeps the subscribers |
| SchedulerProperties.PassExtends | src/services/AgentOrchestrator.ts:77-122 | a pass only appends to the event log and keeps the subscribers |
| SchedulerProperties.RejectExtends | src/services/AgentOrchestrator.ts:168-178 | a rejection only appends to the event log and keeps the subscribers |
| SchedulerProperties.RegenerateExtends | src/services/AgentOrchestrator.ts:194-224 | a regeneration and the pass after it only append to the event log |
| SchedulerProperties.AfterCompletionExtends | src/services/AgentOrchestrator.ts:155-224 | the control points only append to the event log and keep the subscribers |
| SchedulerProperties.SettleExtends | src/services/AgentOrchestrator.ts:138-224 | settling an agent call only appends to the event log and keeps the subscribers |
| SchedulerProperties.WithoutExact | src/services/AgentOrchestrator.ts:41-43 | unsubscribing removes every registration of that callback and only those, and removes nothing when it is absent |
| SchedulerProperties.WithoutAppend | src/services/AgentOrchestrator.ts:42 | unsubscribing keeps the relative order of the remaining callbacks |
| Orchestrator.AgentOrchestrator.constructor | src/services/AgentOrchestrator.ts:15-33 | a new orchestrator has no graph, no subscribers, no events and no writes |
| Orchestrator.AgentOrchestrator.Subscribe | src/services/AgentOrchestrator.ts:39-40 | the callback is appended to the subscribers and nothing else changes |
| Orchestrator.AgentOrchestrator.Unsubscribe | src/services/AgentOrchestrator.ts:41-43 | the subscribers become the old list without that callback and nothing else changes |
| Orchestrator.AgentOrchestrator.Emit | src/services/AgentOrchestrator.ts:46-48 | the event is logged and delivered to each current subscriber in subscription order |
| Orchestrator.AgentOrchestrator.PlanCampaign | src/services/AgentOrchestrator.ts:50-69 | the graph is cleared first; a completed plan installs its graph and announces `node_complete` for planning, a failed one leaves no graph and returns `Planning Phase Failed: <error>` with 'Unknown error' for an empty error |
| Orchestrator.AgentOrchestrator.InstallPlan | src/services/AgentOrchestrator.ts:53-69 | once the planner has answered: the old graph is gone; a completed plan is installed and announced, a failed one leaves no graph and is reported |
| Orchestrator.AgentOrchestrator.StartExecution | src/services/AgentOrchestrator.ts:71-75 | without a plan it refuses with the source's message and changes nothing; with one it runs exactly one pass |
| Orchestrator.AgentOrchestrator.RunExecutionLoop | src/services/AgentOrchestrator.ts:77-122 | does nothing without a graph, otherwise moves the state exactly as one scheduling pass |
| Orchestrator.AgentOrchestrator.CollectExecutable | src/services/AgentOrchestrator.ts:80-105 | the enumeration loop finds whether every node completed and collects exactly the ready nodes in enumeration order |
| Orchestrator.AgentOrchestrator.LaunchEach | src/services/AgentOrchestrator.ts:113-116 | launching the executable nodes one by one is the launch of all of them |
| Orchestrator.AgentOrchestrator.ExecuteNode | src/services/AgentOrchestrator.ts:124-142 | an unregistered agent fails the node silently; otherwise the node runs, `node_start` is emitted and the call is in flight with the current context |
| Orchestrator.AgentOrchestrator.OnSettled | src/services/AgentOrchestrator.ts:142-224 | a settled call moves the state exactly as the settle function, removing the call from the in-flight list |
| Orchestrator.AgentOrchestrator.MarkCompleted | src/services/AgentOrchestrator.ts:144-153 | the node completes with the data as its result, the data is merged over the context, `node_complete` is emitted and the artifact writes are issued |
| Orchestrator.AgentOrchestrator.MarkFailed | src/services/AgentOrchestrator.ts:213-221 | the node fails and `node_fail` is emitted with the failed result or the error |
| Orchestrator.AgentOrchestrator.ApplyControlPoints | src/services/AgentOrchestrator.ts:155-224 | the creative generation stop, the guardrails rejection and the decision's regeneration, in source order, followed by a pass unless one stops |
| Orchestrator.AgentOrchestrator.Regeneration | src/services/AgentOrchestrator.ts:181-211 | it stops exactly when the loop count is at least three, failing the node with the error recorded; otherwise it bumps the count, clears the rejections and resets the cohort |
| Orchestrator.AgentOrchestrator.RejectVariant | src/services/AgentOrchestrator.ts:168-178 | the failed variant joins the rejected list and decision and guardrails are reset; a non-iterable list fails the node |
| Orchestrator.AgentOrchestrator.ResetNodes | src/services/AgentOrchestrator.ts:227-238 | each present id becomes idle with no result, with one `node_reset` each, in list order |
| Orchestrator.AgentOrchestrator.SaveArtifact | src/services/AgentOrchestrator.ts:240-260 | without a truthy campaign id nothing is written; otherwise the agent output and, for creative generation, one write per variant in order, up to the first null or undefined variant |
| Orchestrator.VariantWrites | src/services/AgentOrchestrator.ts:253-255 | the loop issues one variant write per variant, in order, each for a variant that is neither null nor undefined, and stops at the first one that is |
| SchedulerProperties.UntilNullishPrefix | src/services/AgentOrchestrator.ts:253-255 | the variants written are the longest leading run of variants that are neither null nor undefined; the next variant, if any, is null or undefined |
| Runs.RunSteps | src/services/AgentOrchestrator.ts:142-224 | along any run every in-flight call names a node of the graph |
| Runs.RegenerateCount | src/services/AgentOrchestrator.ts:197 | a regeneration raises the loop count by one |
| Runs.RejectKeepsLoopCount | src/services/AgentOrchestrator.ts:168-178 | a rejection leaves the loop count alone |
| Runs.GiveUpKeepsLoopCount | src/services/AgentOrchestrator.ts:185-192 | giving up leaves the loop count alone |
| Runs.AfterCompletionLoopCount | src/services/AgentOrchestrator.ts:155-211 | the control points raise the loop count by one exactly on a regeneration below the ceiling |
| Runs.SettleLoopCount | src/services/AgentOrchestrator.ts:142-224 | one settle raises the loop count by one exactly when it regenerates |
| Runs.RegenerationsBounded | src/services/AgentOrchestrator.ts:181-211 | from a loop count between 0 and 3 a run regenerates at most 3 minus that count times, and the count records how many regenerations happened |
| Runs.PlannedRunRegeneratesAtMostThrice | src/services/AgentOrchestrator.ts:183-185 | from a freshly planned context a run regenerates at most three times |
| CampaignStore.Store.constructor | src/store/useCampaignStore.ts:35-130 | a fresh store owns a new orchestrator, is its only subscriber and starts idle, with the empty input, no mirror, no log and no archive |
| CampaignStore.Store.AddLog | src/store/useCampaignStore.ts:166 | `addLog` appends the line and changes nothing else |
| CampaignStore.Store.OnEvent | src/store/useCampaignStore.ts:39-115 | the subscriber moves the store exactly as its reducer for that event |
| CampaignStore.Store.OnEvents | src/store/useCampaignStore.ts:39-115 | the subscriber called for each event in order is the fold of the reducer over them |
| CampaignStore.Store.SetInput | src/store/useCampaignStore.ts:132 | `setInput` merges the updates over the input |
| CampaignStore.Store.UpdateGraph | src/store/useCampaignStore.ts:168 | `updateGraph` replaces the mirror and nothing else |
| CampaignStore.Store.UpdateNodeStatus | src/store/useCampaignStore.ts:170-177 | `updateNodeStatus` sets the status and result of the named node of the mirror, and is a no-op without a mirror or the node |
| CampaignStore.Store.Reset | src/store/useCampaignStore.ts:238 | `reset` sets the store idle with no mirror and no log |
| CampaignStore.Store.SaveCampaign | src/store/useCampaignStore.ts:230-236 | `saveCampaign` sets the status to created and logs the confirmation |
| CampaignStore.Store.ExecuteCampaign | src/store/useCampaignStore.ts:219-228 | the store runs, and the orchestrator either refuses (the error is logged) or runs one pass whose events the store receives |
| CampaignStore.Store.PlanCampaign | src/store/useCampaignStore.ts:179-217 | `planCampaign` moves the store and the orchestrator exactly as the plan flow: the campaign id, the cleared log, the orchestrator's plan, then execution or the error line |
| CampaignStore.Store.BeginPlanning | src/store/useCampaignStore.ts:183-198 | the campaign id is the database id of a signed-in user's successful insert and a temporary id otherwise; the database line is logged, then the log and mirror are cleared |
| CampaignStore.Store.RunPlan | src/store/useCampaignStore.ts:200-216 | the orchestrator plans with the tagged input and the store follows the failed or the accepted branch |
| CampaignStore.Store.PlanFails | src/store/useCampaignStore.ts:212-216 | a failed plan is logged as `Error during planning: Error: Planning Phase Failed: ...` and the store returns to idle |
| CampaignStore.Store.PlanSucceeds | src/store/useCampaignStore.ts:202-211 | a successful plan is announced to the subscriber, the store is planned, logs it, then executes |
| CampaignStore.Store.PlanSucceeded | src/store/useCampaignStore.ts:207-211 | after the plan's announcement the store is planned, logs it and executes |
| CampaignStore.Store.OnSettled | src/services/AgentOrchestrator.ts:142-224 | when an agent call settles the orchestrator moves as the settle function and the store receives exactly the events it emitted, in order |
| StoreProperties.ReduceLogs | src/store/useCampaignStore.ts:39-115 | every handled event appends exactly one line, `node_fail` changes nothing, only `graph_complete` touches the status and archive, and no event touches the input |
| StoreProperties.ReduceAllKeeps | src/store/useCampaignStore.ts:39-115 | over any events the log only grows, by at most one line per event, the input stays, and without `graph_complete` the status and archive stay |
| StoreProperties.StartMarksNode | src/store/useCampaignStore.ts:42-50 | `node_start` for a mirrored node makes exactly that node running |
| StoreProperties.ResetClearsNode | src/store/useCampaignStore.ts:101-113 | `node_reset` for a mirrored node makes exactly that node idle with no result |
| StoreProperties.PlanReplacesMirror | src/store/useCampaignStore.ts:54-58 | the planning completion replaces the mirror with the plan's graph, whatever was there |
| StoreProperties.CompletionMerges | src/store/useCampaignStore.ts:60-73 | any other completion of a mirrored node completes exactly that node with the data as its result and merges the data over the mirrored context |
| StoreProperties.UnaddressedIgnored | src/store/useCampaignStore.ts:44-103 | an event naming no mirrored node leaves the mirror alone |
| StoreProperties.PerformanceRounds | src/store/useCampaignStore.ts:82 | a non-zero score is reported as `Score: <k>` for the whole number of points `k` nearest to it, half a point rounding up |
| StoreProperties.GraphCompleteArchives | src/store/useCampaignStore.ts:74-99 | `graph_complete` completes the run and, with a mirror, puts one record in front of the archive, with the product's campaign name and the audience or 'General' |
| StoreProperties.SetInputMerges | src/store/useCampaignStore.ts:132 | `setInput` overwrites the given fields, keeps the others and changes nothing else |
| StoreProperties.UpdateNodeStatusLocal | src/store/useCampaignStore.ts:170-177 | `updateNodeStatus` touches at most the named node, and doing it twice is doing it once |
| StoreProperties.ResetKeepsInputAndArchive | src/store/useCampaignStore.ts:238 | `reset` forgets the run but keeps the input and the archive, and is idempotent |
| StoreProperties.BeginPlanDiscardsSystemLog | src/store/useCampaignStore.ts:188-198 | the database line is cleared straight after it is logged, so the log after planning starts empty |
| StoreProperties.CampaignIdChoice | src/store/useCampaignStore.ts:183-196 | the plan is tagged with the database id exactly when a signed-in user's insert succeeded, and with a `temp-` id otherwise |
| StoreProperties.PlanFlowRejected | src/store/useCampaignStore.ts:179-217 | a rejected plan logs exactly one error line, returns the store to idle without a mirror, and leaves the orchestrator without a plan or new events |
| Mirror.ReduceAllAppend | src/store/useCampaignStore.ts:39-115 | folding two stretches of events is folding their concatenation |
| Mirror.Chain | src/store/useCampaignStore.ts:39-115 | tracking through two successive stretches of events is tracking through both |
| Mirror.ReduceOne | src/store/useCampaignStore.ts:39-115 | folding one event is reducing it |
| Mirror.LaunchOneAnnounces | src/services/AgentOrchestrator.ts:124-136 | a launch of a node of the planned shape appends exactly its `node_start` |
| Mirror.LaunchOneTracks | src/store/useCampaignStore.ts:42-50 | a launch is mirrored |
| Mirror.LaunchAllTracks | src/store/useCampaignStore.ts:42-50 | any sequence of launches is mirrored |
| Mirror.PassTracks | src/services/AgentOrchestrator.ts:77-122 | a scheduling pass keeps the mirror in step with the orchestrator |
| Mirror.ResetOneTracks | src/store/useCampaignStore.ts:101-113 | a reset is mirrored |
| Mirror.ResetAllTracks | src/store/useCampaignStore.ts:101-113 | any sequence of resets is mirrored |
| Mirror.CompleteTracks | src/store/useCampaignStore.ts:60-73 | a completion is mirrored: same status, same result, and the same context merge |
| Mirror.RejectTracks | src/services/AgentOrchestrator.ts:168-178 | a guardrails rejection is mirrored through the resets it emits |
| Mirror.RegenerateTracks | src/services/AgentOrchestrator.ts:196-211 | a regeneration and the pass after it are mirrored |
| Mirror.ScreenTracks | src/services/AgentOrchestrator.ts:167-178 | the guardrails verdict is mirrored whichever way it goes |
| Mirror.AfterCompletionTracks | src/services/AgentOrchestrator.ts:155-224 | the control points keep the mirror in step except at the regeneration ceiling |
| Mirror.StopTracks | src/services/AgentOrchestrator.ts:158-163 | the creative generation stop announces only `graph_complete`, which the mirror follows |
| Mirror.ScreenedTracks | src/services/AgentOrchestrator.ts:165-224 | after any other completion, the rejection and regeneration rules keep the mirror in step unless the ceiling is reached or the rejected list cannot be spread |
| Mirror.ContinueTracks | src/services/AgentOrchestrator.ts:180-224 | what follows the guardrails verdict (a pass, after a regeneration when asked for) keeps the mirror in step |
| Mirror.SettleTracks | src/services/AgentOrchestrator.ts:142-224 | a completed result whose consequences are all announced leaves the mirror in step |
| Mirror.StartSpares | src/store/useCampaignStore.ts:42-50 | a `node_start` for another node leaves a node's place in the mirror alone |
| Mirror.LaunchAllSpares | src/store/useCampaignStore.ts:42-50 | a node the pass does not launch keeps its place in the mirror |
| Mirror.PassSpares | src/services/AgentOrchestrator.ts:89-96 | a pass leaves a node that is not idle alone, in the orchestrator and in the mirror |
| Mirror.FailNotMirrored | src/store/useCampaignStore.ts:42-114 | the store ignores `node_fail`, so the events of a failure leave the whole store unchanged while the orchestrator's node fails |
| Mirror.SettleFailureNotMirrored | src/services/AgentOrchestrator.ts:213-221 | when an agent call fails or throws, the orchestrator fails the node while the mirror does not |
| Mirror.GiveUpNotMirrored | src/services/AgentOrchestrator.ts:185-192 | the events of giving up at the ceiling leave the store unchanged while the node fails |
| Mirror.CeilingReached | src/services/AgentOrchestrator.ts:181-192 | at the ceiling the control points fail the node and emit only events the store ignores |
| Mirror.CeilingNotMirrored | src/services/AgentOrchestrator.ts:181-192 | at the ceiling the mirror shows the decision node completed while the orchestrator has failed it |
| Mirror.PipelineWired | src/services/agents/PlanningAgent.ts:100-144 | every planned node is keyed by its own non-empty id and runs a registered agent |
| Mirror.PassOnlyStarts | src/services/AgentOrchestrator.ts:107-116 | a pass over a graph with a node still to run announces only launches |
| Mirror.PlanAcceptedTracks | src/store/useCampaignStore.ts:202-211 | an accepted plan is mirrored and stays mirrored through the first pass |
| Mirror.PlanFlowAccepted | src/store/useCampaignStore.ts:179-217 | on an accepted input the store ends running, its mirror tracking the orchestrator after the first pass, its log starting with the plan's completion and announcement |
| Mirror.PlanOkShape | src/services/agents/PlanningAgent.ts:25-58 | an accepted plan is the planned pipeline, with distinct keys and its first node still to run |
| NotificationStore.Unread | src/store/useNotificationStore.ts:47 | the count of unread notifications is at most the length of the list |
| NotificationStore.UnreadZero | src/store/useNotificationStore.ts:47 | no notification is unread exactly when every one is read |
| NotificationStore.UnreadPointwise | src/store/useNotificationStore.ts:42-47 | reading more entries never raises the unread count |
| NotificationStore.AddPrepends | src/store/useNotificationStore.ts:28-39 | a new notification is unread, goes in front of the old list, keeps its id and title, and adds one to the count and to the true unread number |
| NotificationStore.MarkAsReadOnlyMatching | src/store/useNotificationStore.ts:41-49 | `markAsRead` reads exactly the entries with that id, changes nothing else, and its count is the true number left unread, which has not gone up |
| NotificationStore.MarkAsReadIdempotent | src/store/useNotificationStore.ts:41-49 | reading the same id twice is reading it once |
| NotificationStore.MarkAllAsReadEffect | src/store/useNotificationStore.ts:51-54 | `markAllAsRead` keeps every entry but its read flag, reads them all, and its count of zero is the true count |
| NotificationStore.ClearAllEffect | src/store/useNotificationStore.ts:25-56 | `clearAll` returns the store to its initial state, which is consistent |
| NotificationStore.ApplyConsistent | src/store/useNotificationStore.ts:28-56 | every action keeps `unreadCount` equal to the number of unread notifications |
| NotificationStore.RunConsistent | src/store/useNotificationStore.ts:25-56 | from the initial store, after any sequence of actions, `unreadCount` is the number of unread notifications |
| Extraction.SanitizeText | src/services/ingestion/ExtractionService.ts:34-41 | a text of at most 20000 characters is unchanged; a longer one keeps its first 20000 characters followed by the truncation mark, so the result never exceeds 20015 characters |
| Extraction.SanitizeIdempotent | src/services/ingestion/ExtractionService.ts:34-41 | sanitising twice is sanitising once |
| Extraction.SanitizeKeepsPrefix | src/services/ingestion/ExtractionService.ts:37-38 | a sanitised text begins with as much of the original as fits |
| Extraction.PdfIgnoresContent | src/services/ingestion/ExtractionService.ts:11-32 | a PDF gives the fixed placeholder whatever its content |
| Extraction.PlainTextUnchanged | src/services/ingestion/ExtractionService.ts:19-20 | plain text given as a string is passed through unchanged |
| Extraction.ExtractSucceedsExactly | src/services/ingestion/ExtractionService.ts:8-26 | extraction succeeds exactly for the two supported types and otherwise fails with 'Unsupported file type' |
| MockData.ShoeImages | src/services/MockDataService.ts:196-202 | the shoe list holds five images |
| MockData.AudioImages | src/services/MockDataService.ts:207-212 | the audio list holds four images |
| MockData.ImageCollection | src/services/MockDataService.ts:221-259 | every industry has a collection of five images |
| MockData.MockDataService.constructor | src/services/MockDataService.ts:4 | the service starts on the generic industry |
| MockData.MockDataService.SetIndustry | src/services/MockDataService.ts:6-8 | every later read of competitors and trends sees the new industry's data |
| MockData.MockDataService.GetPersonas | src/services/MockDataService.ts:32-54 | each of the industry's personas keeps its name and traits and gets the next random id, in order |
| MockData.MockDataService.GenerateCreativeVariants | src/services/MockDataService.ts:56-189 | the variants are those of the current industry's templates for the given product, audience and platform |
| MockData.CompetitorsAndTrendsPerIndustry | src/services/MockDataService.ts:10-30 | every industry has its own three competitors and three trends, so the generic fallback is never taken |
| MockData.PersonasFallback | src/services/MockDataService.ts:33-49 | finance and health have no persona entry and get the generic personas; every industry has two |
| MockData.CreativeVariantsShape | src/services/MockDataService.ts:175-188 | five variants numbered in template order, with the fixed call to action, the given platform, the template's headline and the stock image for the defaulted product |
| MockData.CreativeVariantIds | src/services/MockDataService.ts:179 | the ids are "1" to "5" |
| MockData.VariantAtFields | src/services/MockDataService.ts:178-188 | one variant's id, call to action, platform, headline and image |
| MockData.EmptyDefaults | src/services/MockDataService.ts:57-58 | an empty product or audience is replaced by 'Product' or 'Customers' |
| MockData.StockImagePrecedence | src/services/MockDataService.ts:191-261 | shoe keywords win over audio ones, audio over watch, and watch over the industry collection, and the pick is one of that group's images |
| MockData.StockImageCyclic | src/services/MockDataService.ts:203-260 | the pick is cyclic in the variant index |
| Supabase.CreateCampaign | src/services/SupabaseService.ts:31-68 | an invalid goal inserts nothing and throws the mapping error; a valid one always hands a row to the client; nothing is written to the console |
| Supabase.GoalMapExact | src/services/SupabaseService.ts:33-44 | exactly ten strings map, two to Awareness, four to Conversion, three to Retention and one to Other |
| Supabase.GoalIsCaseAndSpaceInsensitive | src/services/SupabaseService.ts:46-47 | a string goal is looked up lowercased and trimmed |
| Supabase.MissingGoalIsAwareness | src/services/SupabaseService.ts:46 | a falsy goal is stored as Awareness |
| Supabase.CreateCampaignInserts | src/services/SupabaseService.ts:54-67 | an accepted campaign is inserted with the enum name, the audience or 'General' and status 'Planning'; the call returns the new id or throws `DB Error: <message>` |
| Supabase.UnmappedGoalInsertsNothing | src/services/SupabaseService.ts:49-51 | an unmapped goal throws the invalid-goal message and inserts nothing, whatever the database would say |
| Supabase.EngagementRejected | src/services/SupabaseService.ts:33-51 | 'Engagement', which the planning agent accepts, is refused here and nothing is inserted |
| Supabase.InheritedGoalPassesGuard | src/services/SupabaseService.ts:47-51 | as written, the goal 'Constructor' finds the inherited `constructor` member, so the guard lets it through although it is no enum value |
| Supabase.GoalLookupCorrected | src/services/SupabaseService.ts:33-47 | the own-entry lookup agrees with the object lookup on every own key and finds nothing where only an inherited member exists |
| Supabase.ConstructorGoalRejected | src/services/SupabaseService.ts:47-51 | with the own-entry lookup the goal 'Constructor' throws before any insert |
| Supabase.SaveGuideline | src/services/SupabaseService.ts:82-94 | the guideline row is always handed over; the call returns exactly when the database reports no error and otherwise throws `DB Error: <message>` |
| Supabase.GuidelinePathAndType | src/services/SupabaseService.ts:86-90 | the storage path is `brand-assets/<campaign>/<file>`, from which both can be read back, and the type is PDF exactly for a `.pdf` name and plain text otherwise |
| Supabase.SaveAgentOutput | src/services/SupabaseService.ts:108-118 | the output row is handed over, the call always returns, and a database error only reaches the console |
| Supabase.SaveCreativeVariant | src/services/SupabaseService.ts:139-155 | a null or undefined variant throws the TypeError of reading `headline` and inserts nothing; any other variant inserts a row carrying the serialised variant and temperature 0.7, the call returns, and a database error only reaches the console |
| Supabase.CreativeVariantRowFields | src/services/SupabaseService.ts:144-146 | the row is named after the headline and aimed at the variant's persona, or 'Primary' when it names none |
| Supabase.GetAgentOutputs | src/services/SupabaseService.ts:120-136 | a failed select gives `{}`; otherwise the rows are folded into a record, one entry per agent |
| Supabase.OutputsLastWins | src/services/SupabaseService.ts:131-135 | the record has an entry exactly for each agent named in the rows, holding the output of the last row naming it |
| Supabase.OutputsSwapDistinct | src/services/SupabaseService.ts:131-135 | swapping adjacent rows of different agents does not change the record |
| Supabase.Registry.constructor | src/services/SupabaseService.ts:19 | the shared slot starts empty |
| Supabase.Registry.GetInstance | src/services/SupabaseService.ts:23-28 | the first call creates the service and every later one returns the stored one |
| Supabase.Registry.GetInstanceTwice | src/services/SupabaseService.ts:23-28 | any two calls return the same service |
| Workflow.FallbackVariant | src/services/langchain/workflow.ts:119-125 | the fallback variant at a position has that position's id and a headline, rationale and platform, and no body or call to action |
| Workflow.Fallback | src/services/langchain/workflow.ts:119-125 | the fallback list has five entries, each the fallback variant of its position |
| Workflow.FirstIndex | src/services/langchain/workflow.ts:157 | the index found holds the character and none before it does; none is found exactly when the character does not occur |
| Workflow.LastIndex | src/services/langchain/workflow.ts:157 | the index found holds the character and none after it does; none is found exactly when the character does not occur |
| Workflow.BraceMatch | src/services/langchain/workflow.ts:157 | a match is at least two characters long, opening with '{' and closing with '}' |
| Workflow.FirstNullish | src/services/langchain/workflow.ts:170-172 | the prompt found is `null` or `undefined` |
| Workflow.FirstNullishExact | src/services/langchain/workflow.ts:170-172 | the prompt found is the first nullish one, and none is found exactly when no prompt is nullish |
| Workflow.MapFrom | src/services/langchain/workflow.ts:170-176 | the mapped list is as long as the prompts |
| Workflow.Mapped | src/services/langchain/workflow.ts:170-177 | the mapped list holds as many entries as there are prompts, at most five |
| Workflow.MapFromAt | src/services/langchain/workflow.ts:170-176 | each mapped entry is the UI form of the prompt at its position |
| Workflow.MappedFallback | src/services/langchain/workflow.ts:127-177 | mapping the fallback list gives five entries |
| Workflow.PadToFive | src/services/langchain/workflow.ts:180-183 | the padding loop appends the fallback variants at the positions the mapped list did not reach |
| Workflow.StagesSkipOnError | src/services/langchain/workflow.ts:39-113 | a stage handed a failed state returns it untouched and emits nothing |
| Workflow.StageOutcome | src/services/langchain/workflow.ts:38-109 | a fixed stage emits `node_start` first; without a throw it completes and returns the next state; with one it keeps the state but for the prefixed error and ends with `node_fail` |
| Workflow.PromptsUsedOnlyWhenPresent | src/services/langchain/workflow.ts:127-167 | the model's prompts replace the fallback exactly when the product is set, the call succeeded, a braced stretch was found and parsed and it holds a `prompts` array |
| Workflow.BraceMatchExact | src/services/langchain/workflow.ts:157-158 | a braced stretch is found exactly when some '{' precedes some '}', and it runs from the first '{' to the last '}' |
| Workflow.BracePairMatches | src/services/langchain/workflow.ts:157 | any '{' before any '}' is enough for the match to succeed |
| Workflow.BraceMatchPair | src/services/langchain/workflow.ts:157 | a match runs from the first '{' to the last '}', which comes after it |
| Workflow.UiVariantFields | src/services/langchain/workflow.ts:170-176 | each entry gets its position's id and 'Learn More'; a missing headline, body or platform gets its default, the body falling back on the rationale and then `body_copy`, so every field is truthy |
| Workflow.PaddedExactlyFive | src/services/langchain/workflow.ts:170-183 | whatever the prompts, the final list has five entries with ids "1" to "5": the mapped prompts, then the fallback variants at the remaining positions |
| Workflow.MappedFallbackFields | src/services/langchain/workflow.ts:119-177 | the mapped fallback keeps each fallback variant's id, headline and platform and uses its rationale as the body |
| Workflow.CreativeCompletes | src/services/langchain/workflow.ts:112-186 | a creative stage that completes emits `node_start` then `node_complete` with the five variants it stores, and leaves no error |
| Workflow.FirstNullishAtMost | src/services/langchain/workflow.ts:170-172 | a nullish prompt at a position means the first one is at or before it |
| Workflow.NullishPromptFails | src/services/langchain/workflow.ts:170-192 | a `null` or `undefined` prompt anywhere, even past the fifth, fails the stage with the first such prompt's TypeError and stores no variants |
| Workflow.CreativeFaultFails | src/services/langchain/workflow.ts:116-192 | a throw from either creative event's callback fails the stage with the prefixed message after `node_fail` |
| Workflow.FailedRunIsInert | src/services/langchain/workflow.ts:197-202 | a run handed a failed state changes nothing and emits nothing |
| Workflow.PlanningFaultStops | src/services/langchain/workflow.ts:61-202 | a throw in planning ends the run with planning's failed result |
| Workflow.PersonaFaultStops | src/services/langchain/workflow.ts:105-202 | a throw in persona modelling after two healthy stages ends the run with that stage's error, and the creative stage emits nothing |
| Workflow.FixedStagesHealthy | src/services/langchain/workflow.ts:38-109 | the fixed stages on a healthy state each start and complete, in order, and leave their outputs and no error |
| Workflow.HealthyRunSplits | src/services/langchain/workflow.ts:197-202 | a run without throws is the fixed stages followed by the creative stage on their result |
| Workflow.HealthyEvents | src/services/langchain/workflow.ts:42-185 | the events of a healthy run name planning, market research, persona modelling and creative generation, each started then completed |
| Workflow.HealthyRunInOrder | src/services/langchain/workflow.ts:38-202 | a healthy run starts and completes the four stages in order and leaves every stage's output, five variants among them, and no error |

## Left out

- Concurrency: `executeNode` is fire-and-forget. The model sequentialises it: a pass launches, and completions are settled one at a time in a caller-chosen order. Promise interleavings finer than that are not modelled.
- Stale completions: re-planning drops the calls still in flight, so a completion that arrives from an earlier graph after `planCampaign` is not modelled.
- `loop_count` coercion: a `loop_count` that is not a number counts as 0. JavaScript's `||` and `+ 1` coercions of other values are not modelled.
- Thrown exceptions: an agent's throw is an outcome that carries a message. The exact texts of V8 errors, and throws that are not `Error` objects, are beyond the model.
- Subscriber exceptions: a subscriber callback that throws inside `emit` is not modelled. Callbacks are recorded as deliveries.
- Timers and logging: the agents' artificial delays, the decision agent's 800 ms pause, the 1 s retry backoff, the 15 s language-model timeout and `console` output are not modelled. A timeout is one of the language model's failure outcomes. The `this.log` lines of the decision agent (its opening line, the regeneration notice and the decision line) and of the guardrails agent are not modelled: both agents return the log they were given. Nothing in the core reads a result's log.
- Formatting: the performance summary's text when its score is not a number is not modelled.
- Aliasing: the campaign store's graph shares node objects with the orchestrator's graph, and the orchestrator writes into the context object in place. The model keeps the two graphs as separate values and relates them by the `Mirror` lemmas.
- CampaignStore.OnComplete: a `node_complete` payload that carries a truthy `taskGraph` while being a field record keeps the previous mirror, where the source installs `event.data.taskGraph` as the store's graph; that value is an arbitrary JavaScript value, not a task graph, and what later events do to it is not followed.
- Spreads of values that are not plain records (arrays, strings) into the context are not modelled; agent data is a record.
- Orchestrator.AgentOrchestrator.SaveArtifact: a throw from `saveAgentOutput` would skip the variant writes; the database service catches its own database errors, so only the null or undefined variant, whose TypeError stops the remaining variant writes, is modelled.
- `fetchCampaigns` and `fetchCampaignDetails` in the campaign store: they only map database rows; the database is outside the model.
- Ids and dates made with `Math.random` and `Date` in the campaign store and the notification store are parameters. How `${error}` renders an error object is not modelled.
- Notification persistence and rehydration through the storage middleware are not modelled. Neither are fields supplied by the caller that override `id`, `read` or `timestamp` through the spread.
- Json numbers are integers: the metrics, counts and indices the core handles are whole numbers, and the decision score is stored as its count of 2^-55. Fractional numbers from other sources are not modelled. A truthy metric that is not a number (a numeric string such as "80") counts as 50 in `Decision.Metric`, where JavaScript would multiply the coerced number; only the scorers, which write numbers, fill those tables.
- Binary64.ToFixed1: writes every value in fixed notation; JavaScript's `toFixed` switches to `String(x)` from 10^21 up, which needs metrics far beyond any score.
- Strings.ToLower: lowercases only ASCII `A`-`Z`, where JavaScript's `toLowerCase` also maps other letters (U+212A KELVIN SIGN to `k`, U+0130 to `i̇`). Its callers MarketIntelligence.DetectIndustry, MockData.StockImage, Planning.RawGoal and Supabase.RawGoal therefore see non-ASCII text unchanged; a goal or product name spelled with such letters is matched differently.
- Extraction.SanitizeText: lengths count code points, where JavaScript counts UTF-16 code units, so text with characters outside the Basic Multilingual Plane is cut at a different place.
- Extraction.ExtractText: `JSON.stringify` of an object content is a parameter.
- MockData: the persona ids drawn at random are a parameter.
- Mirror.PlanFlowAccepted: states the store's final status, mirror and log head after an accepted plan; it does not state the order in which the orchestrator's events interleave with the store's own log lines beyond that.
- Supabase: `getUserCampaigns`, `getGuideline`, `saveDraft` and `getDraft` pass the database's answer through unchanged and are not modelled. The client, its authentication and storage upload are parameters.
- CreativeGeneration: the prompt text built from the persona, product and strategy is not modelled; the language model's reply is a parameter, and the prompt is built with optional chaining and template literals, which cannot throw.
- Workflow: event timestamps, prompt wording, the persona context passed to the model and the `ChatGroq` configuration are not modelled. `JSON.parse` is a parameter.
- Workflow: the absence of an `onEvent` callback is not modelled; a callback is always given. A throw from the `node_fail` callback inside a stage's `catch` is not modelled.
- Workflow: the padding entries are the fallback records themselves, which carry `rationale` but no `body` or `cta`; the model keeps them as those records.
- Workflow.Mapped: maps only the first five prompts, where the source maps them all and keeps five. The two agree once no prompt is nullish, and `NullishPromptFails` covers a nullish prompt past the fifth.
- Evaluation: the scorers' random draws are a function from the draw's position to a real number in [0, 1).
- MarketIntelligence and PersonaModeling: the agents' delays and `status` writes are not modelled; the result carries the status.
- The React views, routing, authentication, the settings and navigation stores, the learning agent and the test driver are outside the core.

## Findings

| source | as written | input that shows it | evidently intended | confidence | as-written member | corrected member |
|---|---|---|---|---|---|---|
| src/services/agents/PlanningAgent.ts:74-87 | the goal is looked up in an object literal with `GOAL_MAP[rawGoal]`, and `!mappedGoal` is the only guard, so inherited members of `Object.prototype` pass it | a goal of "Constructor": it lowercases to `constructor`, which finds the inherited constructor function, a truthy value, so normalisation accepts a goal outside the table | only the five listed spellings are accepted; every other goal is rejected with the validation message | not executed | Planning.InheritedGoalPassesGuard | Planning.GoalLookupCorrected |
| src/services/SupabaseService.ts:33-51 | the same object-literal lookup guards the campaign insert | a goal of "Constructor" passes the guard and reaches the insert with the constructor function as its goal | only the ten listed spellings are accepted; every other goal throws before any insert | not executed | Supabase.InheritedGoalPassesGuard | Supabase.GoalLookupCorrected |
