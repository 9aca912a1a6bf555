# TMIS orchestration core: a verified model

A Dafny model of the algorithms at the heart of the TMIS backend, an assistant for law firms.  The largest
part is the AI team's mission scheduler: a dependency-driven loop over a shared work queue, with retries,
whose runs are suspended at every agent call.  Around it stand the protocols and pipelines that the rest of
the backend relies on: the import audit, the quota gate of the model router, human validation, the two
verification passes, consensus, contract diffs, retrieval, the response cache, lineage, a data migration
and chunking.

## How it is organised

| file | what it is about |
|---|---|
| `MissionModel.dfy` | the scheduler as a step machine, cut at the agent calls |
| `MissionRun.dfy` | well-formedness, the termination bound, whole runs |
| `MissionSafety.dfy`, `MissionVerdict.dfy` | the invariant of every run, and what follows: exactly-once, order, verdict, blame |
| `MissionRefinement.dfy` | the queue loop is a plain loop over what is ready, and over an ordered plan a for-loop |
| `MissionLifecycle.dfy` | what becomes of a work item |
| `MissionRerun.dfy` | sub-tasks sent back: any mixture of runs and reruns |
| `MissionStamps.dfy` | creation times do not matter in a first run |
| `MissionInterleaving.dfy` | several missions over one queue, in any interleaving |
| `MissionBlame.dfy` | for which plans a failure has a culprit |
| `MissionContext.dfy` | what agents are shown, who is called, and what becomes of the answers |
| `Planner.dfy` | plans are chains, and run front to back |
| `Coordinator.dfy` | the classes, whose methods compute the functions of the model |
| `ImportClosure.dfy` | worklist search = reachability |
| `QuotaRouter.dfy` | sliding-window quota, filters, choice |
| `HumanValidation.dfy` | tiers, history, status |
| `VerifierPipeline.dfy` | two verification passes around a fusion |
| `Consensus.dfy` | pairwise similarity, averages, divergences |
| `ContractDiff.dfy` | conservation of paragraphs |
| `Retrieval.dfy` | staged ranking against ranking everything |
| `KernelCache.dfy` | read-through cache with overlapping calls |
| `Lineage.dfy`, `Backfill.dfy`, `Chunking.dfy` | the revision walk, the migration, the chunker |
| `Optional.dfy` | values that may be missing |

`dafny verify dfyconfig.toml` checks the whole project.

## How the program is read

- A mission run is suspended only while it awaits an agent.  The model therefore takes one step per stretch
  between suspensions, and an agent is a function of the call it gets, the number of the try included; by
  `MissionVerdict.TriesAreNumbered` no call repeats, so this covers every behaviour.
- Random identifiers are only compared.  Work items are numbered within their mission, and the identifiers
  of missions, sub-tasks and requests are parameters required to be fresh or distinct.
- Clocks are real numbers that never fall; floats are reals; JSON, SHA-256, word and token splitting,
  embeddings, case folding, UUID parsing and the diff matcher are parameters, with the assumption about
  each written as a precondition.
- Where the source raises an exception the model has an outcome of its own (`Raised`, `Rejected`, `QuotaExceeded`,
  `None` or `false`).

## Findings

These follow from the code as it is; each is a theorem with its exact condition.

- Ranking in stages can miss the best chunk: the reranker's bonus is added after the retriever's cut.  The
  result is the true top k for every corpus exactly up to 2k matches (`Retrieval.ExactIff`).  Beyond that a
  query without words, such as "!", does it: all scores are 0 before the bonus, and the chunk that contains
  the query is cut if it was indexed last (`Retrieval.PhraseIsMissed`).
- The second verification pass can be silent where the first was not: the fusion replaces an analysis's own
  nested synthesis (`VerifierPipeline.SignalsAreKeptIff`).  The analysis agent of the repository nests none
  (backend/src/tmis/agents/analysis_agent.py:88, :96 and :139), so only another, injected one is affected.
- A mission that fails after a rerun still shows the synthesis of the run that completed it
  (`MissionRerun.StaleSynthesis`); exactly the missions that had one before (`MissionRerun.FailureKeepsSynthesis`).
- A run after a rerun starts from the summary alone: agents are not shown the results that were kept from the
  earlier run (`MissionContext.BeginMirrorsIff`, `MissionContext.RunIsFaithful`).
- In a planned mission the step that drafts is not shown the text of the reasoning step before it
  (`Planner.DrafterSeesResearch`); the verifier is.
- A new validation request is pending although the recomputation would approve it when there is nobody to
  wait for (`HumanValidation.NewRequestIsPendingIff`).
- When (document, version) repeats, the migration purges a resolvable row if an unresolvable one shares its
  key (`Backfill.LostIffSharesOrphanKey`), and gives a row the firm of another row's case if both resolve.
  It does what it should exactly if rows of one key agree (`Backfill.KeepsExactlyResolvedIff`).
- The chunker accepts a negative overlap, and sizes of zero or less with it, and then loses text
  (`Chunking.AllCoveredIff`).
- Over a plan with a cycle, or with a dependency on something outside the plan, a mission can fail with nobody
  to blame; over an acyclic plan it cannot (`MissionBlame.BlamedIffAcyclic`, `MissionBlame.SelfDependentFails`).
  The planner builds chains only, so no mission it plans is affected (`Planner.PlannedFailureHasCulprit`).

## Model

| member | source | states |
|---|---|---|
| MissionRefinement.QueueRunIsReadyLoop | backend/src/tmis/ai_team/coordinator/engine.py:112-216 | For every launched mission, whatever its plan, cyclic ones included, the priority-queue loop makes the same agent calls in the same order, with the same context, results, verdict and synthesis, as a plain loop that takes the first sub-task of the plan that is ready and was not taken yet, tries it up to three times, and repeats until there is none |
| MissionRefinement.ReadyLoopIsForLoop | backend/src/tmis/ai_team/coordinator/engine.py:112-216 | Where dependencies point to earlier sub-tasks, that loop is one pass over the plan: no result makes an earlier sub-task ready |
| MissionRefinement.QueueRunIsForLoop | backend/src/tmis/ai_team/coordinator/engine.py:112-216 | So for an ordered plan the queue run is a for-loop over the plan that tries each sub-task whose dependencies have results |
| MissionRefinement.PicksFrontier | backend/src/tmis/ai_team/coordinator/engine.py:200-216 | The queue's best runnable item is that of the first ready sub-task that was not taken yet, also between its tries |
| MissionRefinement.TryToEnd | backend/src/tmis/ai_team/coordinator/engine.py:112-189 | The queue's steps for one item, retries included, end in the state of the loop's tries of that sub-task |
| MissionContext.AgentsAreShown | backend/src/tmis/ai_team/coordinator/engine.py:131-136 | At every call of a first run the agent is shown the mission's summary, every entry it is shown is the context's, and of the results exactly those its role is to see: none for the document analyst, document analysis for the legal researcher, legal research for the jurisprudence expert, both for the GDPR, tax and social law experts, these with jurisprudence and risk analysis for the drafter, drafting and reasoning for the verifier, and the whole context for coordinator, quality controller and critic |
| MissionContext.RolesAreShown | backend/src/tmis/ai_team/context/engine.py:6-26 | The same law for any role and any context, derived from the key prefixes of the relevance table |
| MissionContext.PrefixFits | backend/src/tmis/ai_team/context/engine.py:44-55 | The prefix of a task type fits the result key of that task type and no other key |
| MissionContext.RunIsFaithful | backend/src/tmis/ai_team/coordinator/engine.py:104-189 | At every moment of any run, first or later: the awaited call shows its role's part of the context; the context holds the summary and otherwise only texts that calls of this very run returned, under their task types; every result is one that a call for that sub-task returned, or was there before; and no returned answer is lost |
| MissionContext.ContextIsResults | backend/src/tmis/ai_team/coordinator/engine.py:163-165 | In a first run the context has an entry for exactly the task types of which a sub-task has a result, with the text of such a result |
| MissionContext.CallsGoToDelegates | backend/src/tmis/ai_team/delegation/engine.py:17-32 | Every call of a first run goes to an agent that exists and is the first of the team registered with the sub-task's role: the team at launch for sub-tasks without dependencies, the team of the run for the others |
| MissionContext.ResultsAreClosed | backend/src/tmis/ai_team/coordinator/engine.py:76-94 | In every reachable state a sub-task has a result only if those it depends on have |
| MissionContext.BeginMirrorsIff | backend/src/tmis/ai_team/coordinator/engine.py:108-110 | The context at the start of a run mirrors the results if and only if no sub-task has one |
| MissionInterleaving.NonInterference | backend/src/tmis/ai_team/coordinator/engine.py:55-216 | However launches and turns of missions over one queue interleave, each with its own environments for launch and run: a mission that runs only ever waits for an item of its own; its state, results and calls are those of a solo run with as many turns, whatever the creation times there; after 6n + 1 turns it has ended as its solo run ends |
| MissionStamps.StampsDoNotMatter | backend/src/tmis/ai_team/coordinator/engine.py:200-216 | First runs that differ in creation times at most go through the same states but for those times: same calls, results, records, status and synthesis at every moment |
| MissionStamps.BestAlike | backend/src/tmis/ai_team/coordinator/engine.py:200-216 | With distinct priorities the choice of the next item does not depend on creation times |
| MissionInterleaving.HappenAsAlone | backend/src/tmis/ai_team/coordinator/engine.py:55-189 | Every launch, every start of a run and every turn of any mission keeps all missions in states of their solo runs |
| MissionInterleaving.StepOnlyOwn | backend/src/tmis/ai_team/coordinator/engine.py:76-94 | A stretch of one mission leaves the items and delegation records of all others as they were |
| MissionInterleaving.StepOfOwn | backend/src/tmis/ai_team/coordinator/engine.py:200-216 | What a stretch does to a mission's own part depends on that part alone |
| MissionRun.StepFacts | backend/src/tmis/ai_team/coordinator/engine.py:112-189 | Every stretch of an unfinished run keeps a well-formed state well-formed and lowers the bound made of sub-tasks not yet enqueued and attempts left, whatever the agents do |
| MissionRun.LaunchedRunEnds | backend/src/tmis/ai_team/coordinator/engine.py:112-189 | The `while True` loop of a launched mission of n sub-tasks ends within 6n + 1 stretches, with missing and ever-failing agents too |
| MissionRun.RunIsSteps | backend/src/tmis/ai_team/coordinator/engine.py:112-189 | Any number of steps that reaches the bound reaches the final state of the run |
| MissionRun.FinishedIsRun | backend/src/tmis/ai_team/coordinator/engine.py:112-198 | A state that has finished after some steps is the result of the run, however many they were |
| MissionSafety.StepOk | backend/src/tmis/ai_team/coordinator/engine.py:76-189 | The safety invariant (one item and one record for each ready sub-task and none for others, results exactly for the items that are done, attempts within their bound, a verdict that matches the results at the end) is kept by every stretch |
| MissionSafety.LaunchOk | backend/src/tmis/ai_team/coordinator/engine.py:55-94 | Launching establishes the safety invariant on a queue and log shared with other missions |
| MissionSafety.ReachedOk | backend/src/tmis/ai_team/coordinator/engine.py:112-189 | The safety invariant holds in every state of the first run of a launched mission |
| MissionVerdict.OneItemPerReadySubTask | backend/src/tmis/ai_team/coordinator/engine.py:76-94 | In every reachable state a sub-task has exactly one work item and one delegation record if its dependencies all have results, and neither otherwise |
| MissionVerdict.CallsFollowDependencies | backend/src/tmis/ai_team/coordinator/engine.py:112-147 | Whenever an agent is called, each sub-task that the called one depends on has a result, and it has none yet |
| MissionVerdict.TriesAreNumbered | backend/src/tmis/ai_team/work_queue/engine.py:30-50 | The calls for one sub-task are numbered upwards without repetition and there are at most three |
| MissionVerdict.CompletedIffAllResults | backend/src/tmis/ai_team/coordinator/engine.py:191-198 | A finished mission is completed exactly when every sub-task has a result; then the synthesis is the headed text of one section per sub-task in plan order, otherwise there is none |
| MissionVerdict.SynthesisSections | backend/src/tmis/ai_team/coordinator/engine.py:277-287 | With all results present the sections that the synthesis renders are those of the sub-tasks, in plan order |
| MissionVerdict.RenderedOne | backend/src/tmis/ai_team/coordinator/engine.py:277-287 | A section is rendered under a heading with the name of its task type |
| MissionVerdict.RenderedParts | backend/src/tmis/ai_team/coordinator/engine.py:277-287 | The rendering of two runs of sections is that of the first, an empty line, and that of the second |
| MissionVerdict.TaskNames | backend/src/tmis/ai_team/capabilities/schemas.py:19-32 | The names under which task types appear in headings and context keys |
| MissionVerdict.Blame | backend/src/tmis/ai_team/coordinator/engine.py:191-198 | Over an acyclic plan a finished mission has failed if and only if some sub-task has all its dependencies in the results, no result of its own, and a work item that failed for good after all its attempts |
| MissionBlame.BlamedIffAcyclic | backend/src/tmis/ai_team/coordinator/engine.py:191-198 | Every failed run over a plan has a culprit, whatever the agents do, if and only if the plan is acyclic; over any other plan some run fails with nobody to blame |
| MissionBlame.NobodyFails | backend/src/tmis/ai_team/coordinator/engine.py:112-189 | With every role staffed and every call answered no run has a culprit, so a failure is the plan's alone |
| MissionBlame.CompletedIsAcyclic | backend/src/tmis/ai_team/coordinator/engine.py:112-198 | A plan that some run completed has no cycle and names no unknown sub-task: results come in an order that rises along the dependencies |
| MissionBlame.ObligingCompletes | backend/src/tmis/ai_team/coordinator/engine.py:112-198 | With every role staffed and every call answered, a mission over an acyclic plan is completed |
| MissionBlame.SelfDependentFails | backend/src/tmis/ai_team/coordinator/engine.py:76-94 | A mission whose only sub-task waits for itself fails at once, with nobody to blame, for every environment |
| Planner.PlannedFailureHasCulprit | backend/src/tmis/ai_team/planner/engine.py:19-54 | A mission over a chain, as the planner builds it, never fails without a culprit |
| MissionVerdict.FinishedReachedIsRun | backend/src/tmis/ai_team/coordinator/engine.py:112-198 | The finished states of the step machine are the results of whole runs, so the verdict theorems are about runs |
| MissionModel.BestIsFirst | backend/src/tmis/ai_team/coordinator/engine.py:200-216 | The chosen item is pending or retrying and precedes every other such item of the mission: by higher priority, then by earlier creation, then by its place in the list |
| MissionModel.NoBestIff | backend/src/tmis/ai_team/coordinator/engine.py:200-216 | Nothing is chosen exactly if no item of the mission is pending or retrying |
| Coordinator.CoordinatorEngine.LaunchMission | backend/src/tmis/ai_team/coordinator/engine.py:55-74 | The new mission's plan is a chain of the steps that `Planner.PlannedSteps` lists, and mission, queue and log are those of the model's launch; the store stays well-formed |
| Coordinator.CoordinatorEngine.EnqueueReadySubTasks | backend/src/tmis/ai_team/coordinator/engine.py:76-94 | Queue, log and item list change as the model's enqueueing says |
| Coordinator.CoordinatorEngine.RunNext | backend/src/tmis/ai_team/coordinator/engine.py:117-189 | One iteration of the loop does what the model's stretches from the pick to the next top of the loop do |
| Coordinator.CoordinatorEngine.RunLoop | backend/src/tmis/ai_team/coordinator/engine.py:104-198 | The loop ends, in the final state of the model's run, with that run's verdict |
| Coordinator.CoordinatorEngine.RunMission | backend/src/tmis/ai_team/coordinator/engine.py:104-198 | An unknown mission changes nothing; a known one reaches the final state of its run, other missions keep their items and records, and the store stays well-formed |
| Coordinator.CoordinatorEngine.NextRunnableItem | backend/src/tmis/ai_team/coordinator/engine.py:200-216 | Scanning the items once finds the head of the stable sort by falling priority and rising creation time |
| Coordinator.CoordinatorEngine.RerunSubTasks | backend/src/tmis/ai_team/coordinator/engine.py:262-275 | The loop over the named sub-tasks does what the model's rerun does |
| Coordinator.CoordinatorEngine.ApplyHumanDecision | backend/src/tmis/ai_team/coordinator/engine.py:218-255 | An unknown mission changes nothing; approvals and plan changes do nothing; team changes concern the team alone; sub-tasks sent back are rerun, other missions keep their items and records, and the store stays well-formed, so the next run ends |
| Coordinator.WithoutMembers | backend/src/tmis/ai_team/coordinator/engine.py:239-241 | Excluding an agent leaves exactly the other members, and a team without that agent as it is |
| Coordinator.WithoutParts | backend/src/tmis/ai_team/coordinator/engine.py:239-241 | Every occurrence goes and the others keep their order |
| MissionLifecycle.StepMoves | backend/src/tmis/ai_team/work_queue/engine.py:30-50 | From every well-formed state items move in no other way than this: a waiting one is taken up at the cost of an attempt and may fail at once, one at work is done with a result or fails, and a failure leaves it to be retried exactly while attempts are left |
| MissionLifecycle.SettledStays | backend/src/tmis/ai_team/work_queue/engine.py:36-50 | Done and failed are final: however the run goes on, such an item keeps status, attempts and result |
| MissionLifecycle.BoundKept | backend/src/tmis/ai_team/work_queue/engine.py:30-50 | Attempts never exceed their bound, an item waits only while one is left and fails for good only when none is |
| MissionRerun.RerunItemWf | backend/src/tmis/ai_team/coordinator/engine.py:262-275 | Sending a sub-task back keeps a state well-formed, during a run as well as after it, and adds one item |
| MissionRerun.RerunAdds | backend/src/tmis/ai_team/coordinator/engine.py:262-275 | A rerun leaves the items there are and adds, for each identifier that the plan has, in order, a pending item without attempts, at the lowest priority, for the first of the team registered with the sub-task's role |
| MissionRerun.RerunTakesAway | backend/src/tmis/ai_team/coordinator/engine.py:262-275 | A rerun takes away the results of the named sub-tasks of the plan and no other, leaves plan and synthesis, and sets the mission running |
| MissionRerun.NextRunEnds | backend/src/tmis/ai_team/coordinator/engine.py:104-189 | After any mixture of runs and reruns, with teams and agents changing in between, the next run of a launched mission of n sub-tasks ends within 6(n + m) + 1 stretches, m being the number of sub-tasks sent back |
| MissionRerun.SettledInHistory | backend/src/tmis/ai_team/work_queue/engine.py:36-50 | Done and failed items keep status, attempts and result through any mixture of runs and reruns |
| MissionRerun.HistoryVerdict | backend/src/tmis/ai_team/coordinator/engine.py:191-198 | After any mixture of runs and reruns results are for sub-tasks of the plan only; a mission is completed only with every result there and the synthesis made of them, and failed only with one missing |
| MissionRerun.FailureKeepsSynthesis | backend/src/tmis/ai_team/coordinator/engine.py:191-198 | A run that fails leaves the synthesis as it was, so a failed mission shows one exactly if it had one before |
| MissionRerun.StaleSynthesis | backend/src/tmis/ai_team/coordinator/engine.py:191-198 | From any completed mission: when a sub-task is sent back and no agent is there for the next run, the mission has failed and still shows the synthesis it was completed with |
| Coordinator.DelegationEngine.AssignAgent | backend/src/tmis/ai_team/delegation/engine.py:17-32 | The first team member registered with the role, none exactly if there is none; one record is appended either way |
| Coordinator.DelegationEngine.RecordsForMission | backend/src/tmis/ai_team/delegation/engine.py:34-35 | The mission's records in the order they were made |
| Planner.SpliceAfter | backend/src/tmis/ai_team/planner/engine.py:57-79 | The loop computes the spliced plan |
| Planner.SpliceIsChain | backend/src/tmis/ai_team/planner/engine.py:57-79 | Splicing after a step of a chain gives a chain again: the new step depends on that step and the next one on the new step |
| Planner.SpliceKinds | backend/src/tmis/ai_team/planner/engine.py:57-79 | The spliced plan has the old steps in order with the new one right behind the step it was spliced after |
| Planner.Decompose | backend/src/tmis/ai_team/planner/engine.py:19-54 | The plan is a chain whose steps are those of the case type and the domain, which the next row lists |
| Planner.PlannedSteps | backend/src/tmis/ai_team/capabilities/mission_templates.py:6-36 | The steps of each case type, unknown ones included: the template's, with the risk analysis of the GDPR, tax or social law expert right after the last research step if the domain has one and the template has research |
| Planner.DistinctSteps | backend/src/tmis/ai_team/capabilities/mission_templates.py:6-36 | No task type is planned twice |
| Planner.ChainIsOrdered | backend/src/tmis/ai_team/planner/engine.py:19-54 | In a chain dependencies point to earlier sub-tasks, so the refinement applies to every planned mission |
| Planner.PlannedMissionRunsFrontToBack | backend/src/tmis/ai_team/coordinator/engine.py:112-198 | A planned mission gives results to the steps before some point and to no other, and completes exactly when that point is the end |
| Planner.CalledInOrder | backend/src/tmis/ai_team/coordinator/engine.py:112-147 | When a step of a chain is called, the steps that have results are exactly those before it |
| Planner.DrafterSeesResearch | backend/src/tmis/ai_team/context/engine.py:16-24 | In a planned mission whoever drafts, for the reasoning or for the draft, is shown the case and the text of the result of every analysis and research step before, and no other result |
| ImportClosure.TransitiveClosure | backend/scripts/audit_platform_usage.py:133-159 | The worklist search ends on every graph and returns exactly the modules reachable from the entry point by edges to longest known prefixes |
| ImportClosure.Resolve | backend/scripts/audit_platform_usage.py:151-156 | Cutting at the last dot finds the longest known dotted prefix of an import, and nothing exactly if no known module is one |
| ImportClosure.NextPrefix | backend/scripts/audit_platform_usage.py:152-156 | The text before the last dot is the next shorter dotted prefix and is never empty |
| ImportClosure.LongestIsUnique | backend/scripts/audit_platform_usage.py:151-156 | An import has at most one longest known prefix, so edges are well defined |
| ImportClosure.IsTmisMeans | backend/scripts/audit_platform_usage.py:147-148 | The imports that are followed are those that begin with the package's name and a dot |
| QuotaRouter.NoWindowOverflows | backend/src/tmis/ai_fabric/quotas/store.py:17-23 | With a quota set before the first call and not negative, no closed window of its number of days of 86400 seconds ever contains more recorded calls than it allows, over every sequence of requests |
| QuotaRouter.AllowedCallKeepsQuota | backend/src/tmis/ai_fabric/quotas/engine.py:21-30 | A call that was allowed at one reading of the clock may be recorded at any later one without overfilling any window |
| QuotaRouter.RefusedOnlyWhenFull | backend/src/tmis/ai_fabric/quotas/engine.py:21-27 | A request is allowed if and only if the closed window of the quota's length that ends with it contains fewer calls than the quota |
| QuotaRouter.AllowsMeans | backend/src/tmis/ai_fabric/quotas/engine.py:21-27 | The gate compares the number of recorded calls of the last so many days of 86400 seconds with the quota |
| QuotaRouter.QuotaStore.RecordCall | backend/src/tmis/ai_fabric/quotas/store.py:17-18 | One timestamp not before the last reading is appended for this scope, no other changes |
| QuotaRouter.QuotaStore.CallsInPeriod | backend/src/tmis/ai_fabric/quotas/store.py:20-23 | The number of recorded calls not older than so many days of 86400 seconds |
| QuotaRouter.QuotaStore.Check | backend/src/tmis/ai_fabric/quotas/engine.py:21-27 | True without a quota, and otherwise exactly if the count is under the quota at the reading of the clock |
| QuotaRouter.RouterEngine.Route | backend/src/tmis/ai_fabric/router/engine.py:47-83 | No eligible model, quota exceeded or the choice among the eligible ones, each in exactly its case and with its reasons; only a routed request records a call, and a firm within its quota stays within it |
| QuotaRouter.Shortlist | backend/src/tmis/ai_fabric/router/engine.py:47-64 | The cascade of filters keeps exactly the models that meet one joint condition, in registry order, and its reasons count, for each filter the request uses, the models that meet the condition so far |
| QuotaRouter.EligibleMeans | backend/src/tmis/ai_fabric/router/engine.py:47-64 | What that condition is: the profile if one is asked for, availability, the quality, cost and latency bounds that are set, and the policy's consent |
| QuotaRouter.RefusedMeans | backend/src/tmis/ai_fabric/router/engine.py:147-164 | The governance's reasons are one for each model the policy does not allow, with the policy's own reasons |
| QuotaRouter.ReasonsCount | backend/src/tmis/ai_fabric/router/engine.py:48-64 | The reasons are one count for each filter the request uses, in order, and then the governance's refusals |
| QuotaRouter.FilterGovernance | backend/src/tmis/ai_fabric/router/engine.py:147-164 | The loop keeps the allowed models and gives one reason for each of the others, in order |
| QuotaRouter.Choose | backend/src/tmis/ai_fabric/router/engine.py:72-75 | The first of the models that are best by quality, then cost, then latency |
| QuotaRouter.ChoiceIsUnique | backend/src/tmis/ai_fabric/router/engine.py:72-75 | At most one model can be that choice |
| QuotaRouter.ChoiceMeans | backend/src/tmis/ai_fabric/router/engine.py:72-75 | The choice has the highest quality, among those the lowest cost, among those the lowest latency, and comes first of those |
| HumanValidation.ApprovedIff | backend/src/tmis/ai_governance/human_validation/engine.py:12-36 | For every run with a decision: approved if and only if nobody objected and there are as many approvals as tiers, or, where all must agree, every named approver has approved |
| HumanValidation.ObjectionsDecide | backend/src/tmis/ai_governance/human_validation/engine.py:28-32 | Rejected if and only if some entry rejects; revision requested if and only if none does and some entry requests a revision; whatever the tiers |
| HumanValidation.PendingIff | backend/src/tmis/ai_governance/human_validation/engine.py:28-36 | For every run with a decision: pending if and only if nobody objected and the agreement is not there yet |
| HumanValidation.CurrentTierIsNext | backend/src/tmis/ai_governance/human_validation/engine.py:39-43 | A decision is made in the first tier in which nobody, or in multiple mode not every named approver, has approved, and in the last one if there is none |
| HumanValidation.StatusOnlyClimbs | backend/src/tmis/ai_governance/human_validation/engine.py:28-36 | Over every run the status only climbs: pending, approved, revision requested, rejected |
| HumanValidation.TiersNeverDecrease | backend/src/tmis/ai_governance/human_validation/engine.py:102-122 | The tiers in a request's history never decrease |
| HumanValidation.OpenNeverFalls | backend/src/tmis/ai_governance/human_validation/engine.py:12-43 | The approval of a tier is never lost |
| HumanValidation.ApprovalsClimbTiers | backend/src/tmis/ai_governance/human_validation/engine.py:39-43 | Without objections each approval of a tiered request opens the next tier, until there is none |
| HumanValidation.DecidedIsRun | backend/src/tmis/ai_governance/human_validation/engine.py:102-122 | Deciding once more extends a run by one decision in its current tier |
| HumanValidation.NewRequestIsPendingIff | backend/src/tmis/ai_governance/human_validation/engine.py:83-100 | The recomputation agrees with the initial pending status exactly if there is a tier and, where all must agree, a named approver |
| HumanValidation.FirstOpen | backend/src/tmis/ai_governance/human_validation/engine.py:39-43 | The first tier that is not approved, all before it being so |
| HumanValidation.HumanValidationEngine.Request | backend/src/tmis/ai_governance/human_validation/engine.py:83-100 | A stored, pending request without history; all others unchanged |
| HumanValidation.HumanValidationEngine.Decide | backend/src/tmis/ai_governance/human_validation/engine.py:102-122 | A request of another firm or an unknown one is left alone; otherwise one entry is appended, in the first tier that is not approved or the last one; the status is rejected if and only if the history has a rejection, revision requested if and only if it has none but a request for one, approved if and only if nobody objects and enough have agreed, and pending if and only if nobody objects and they have not; and it never climbs down |
| VerifierPipeline.SignalsAreKept | backend/src/tmis/agents/verifier_agent.py:79-113 | If the fusion keeps the analysis's narratives, every signal category of the first pass is raised again in the second |
| VerifierPipeline.SignalsAreKeptIff | backend/src/tmis/agents/orchestrator.py:17-30 | That holds for all detection engines if and only if no narrative nested under the analysis's own synthesis entry is lost in the fusion |
| VerifierPipeline.Pipeline | backend/src/tmis/agents/orchestrator.py:133-170 | With n the larger of the two numbers of signalling categories (the second pass's if nothing is nested): no signal keeps the analysis confidence, one leaves at most medium, two or more leave low; warnings and citations of the analysis stay a prefix |
| VerifierPipeline.LoweredRank | backend/src/tmis/agents/verifier_agent.py:177-184 | In ranks: the final rank is the smaller of the rank before and two minus the number of signals, at most two of them counted |
| VerifierPipeline.LoweredTwice | backend/src/tmis/agents/verifier_agent.py:177-184 | Lowering twice is lowering once by the larger count |
| VerifierPipeline.SignalsMean | backend/src/tmis/agents/verifier_agent.py:115-175 | Which categories signal: citations if one lacks its excerpt or reference; conflicts if the case of the first citation of the case store has any; hallucinations and biases if the engine objects to a non-empty narrative, synthesis note or executive summary of the result or of its nested synthesis |
| VerifierPipeline.CitationWarningsMean | backend/src/tmis/agents/verifier_agent.py:115-121 | The citation warnings name exactly the citations that lack an excerpt or a reference |
| VerifierPipeline.ScanParts | backend/src/tmis/agents/verifier_agent.py:162-175 | Each narrative is scanned once, in order, and everything the engine says of it becomes a warning |
| VerifierPipeline.Verify | backend/src/tmis/agents/verifier_agent.py:79-113 | Result and citations stay; no signalling category keeps the confidence, one leaves at most medium, two or more leave low; the warnings of the four checks are appended in order |
| VerifierPipeline.SignalCount | backend/src/tmis/agents/verifier_agent.py:79-113 | The counter of the pass is the number of categories that raise a warning |
| VerifierPipeline.ExtractNarrativeTexts | backend/src/tmis/agents/verifier_agent.py:146-160 | The narratives of the result itself and of its nested synthesis |
| Consensus.AgreementIsMean | backend/src/tmis/ai_fabric/consensus/engine.py:28-41 | For two or more positions of distinct authors the agreement ratio is the mean similarity over all unordered pairs |
| Consensus.OrderIrrelevant | backend/src/tmis/ai_fabric/consensus/engine.py:28-41 | Averages and mean do not depend on the order of the positions |
| Consensus.AgreementBounds | backend/src/tmis/ai_fabric/consensus/engine.py:36-43 | The agreement lies between 0 and 1 and the chosen position averages at least that much |
| Consensus.BuildConsensus | backend/src/tmis/ai_fabric/consensus/engine.py:17-56 | Nothing, one position and several: the first best supported position by average and quality, the agreement with its bounds and its mean, and exactly the other positions under 0.4 as divergences, for repeated authors too |
| Consensus.BuildTeamConsensus | backend/src/tmis/ai_team/consensus/engine.py:34-76 | The same for a team, with the text of the best author's first position, which is the best position itself if authors are distinct |
| Consensus.BestMeans | backend/src/tmis/ai_fabric/consensus/engine.py:41 | The best position has the highest average, among those the highest quality, and comes first of those |
| Consensus.DivergentMeans | backend/src/tmis/ai_fabric/consensus/engine.py:43-48 | Divergent are exactly the positions whose author averages under 0.4 and is not the best one |
| Consensus.AverageIsOverOthers | backend/src/tmis/ai_fabric/consensus/engine.py:28-38 | With distinct authors an author's average is the mean similarity to the positions of the others |
| Consensus.CollectScores | backend/src/tmis/ai_fabric/consensus/engine.py:28-34 | The nested loops give every author the scores of all pairs it is part of, each once per occurrence |
| Consensus.JaccardIsSimilarity | backend/src/tmis/ai_fabric/evaluation/engine.py:20-29 | Symmetric, between 0 and 1, and 1 exactly for equal word sets |
| Consensus.JaccardIsShare | backend/src/tmis/ai_fabric/evaluation/engine.py:20-29 | The similarity is the part of all words of the two texts that both have, and 1 if neither has any |
| Consensus.Authors | backend/src/tmis/ai_fabric/consensus/engine.py:28 | Every author once, in the order of the first positions |
| ContractDiff.DiffParagraphs | backend/src/tmis/agents/contract_agent.py:64-89 | For any operations that tile both texts: every paragraph of the old text is counted once as equal, removed or changed-before, every one of the new text as equal, added or changed-after; changed are exactly the pairs of k-th paragraphs of both sides of a replacement, as many as the shorter side has; all lists follow the order of their texts; an empty diff means equal texts |
| ContractDiff.PieceOk | backend/src/tmis/agents/contract_agent.py:72-83 | One operation conserves its own stretch of both texts in order, uneven replacements included |
| ContractDiff.JoinConserves | backend/src/tmis/agents/contract_agent.py:72-83 | Conservation of two stretches is conservation of the two together |
| ContractDiff.JoinInOrder | backend/src/tmis/agents/contract_agent.py:72-83 | Order in two stretches is order in the two together |
| Retrieval.ExactIff | backend/src/tmis/ai/rag/pipeline.py:56-66 | For every pipeline that finds no words in two punctuation marks, with any weight, pool multiplier and positive bonus: the staged cuts give the top k of all matching chunks, whatever is ingested and asked, if and only if at most 2k chunks match |
| Retrieval.StagedIsTopK | backend/src/tmis/ai/rag/pipeline.py:56-66 | When at most 2k chunks match, for any weight, bonus and positive pool multiplier, the result is the k best by final score: nothing left out scores above anything returned |
| Retrieval.UnboostedIsTopK | backend/src/tmis/ai/retrieval/hybrid_retriever.py:43-69 | When no matching chunk contains the query as a phrase this holds as long as the matches fit the candidate pool |
| Retrieval.PhraseIsMissed | backend/src/tmis/ai/rag/pipeline.py:59-62 | For each number of matches over 2k, an ingested index of question marks and one exclamation mark at its end, in which a search for the exclamation mark leaves out the chunk that would score best |
| Retrieval.StagedOk | backend/src/tmis/ai/rag/pipeline.py:56-66 | At most k hits, in non-increasing final score, none more often than it is indexed |
| Retrieval.StagedLength | backend/src/tmis/ai/rag/pipeline.py:56-66 | Exactly as many hits as asked for, or as match |
| Retrieval.HitsAreIndexed | backend/src/tmis/ai/rag/pipeline.py:56-66 | Each hit is an indexed chunk whose metadata have what the filters ask for; its score is the weight times the similarity of its vector, plus the rest of the weight times the part of the query's words it contains, plus the bonus if its text contains the query |
| Retrieval.BruteScores | backend/src/tmis/ai/retrieval/hybrid_retriever.py:54-58 | The full ranking that the staged one is compared with gives each matching chunk that score |
| Retrieval.OverlapExtremes | backend/src/tmis/ai/retrieval/hybrid_retriever.py:14-20 | The lexical score is 1 if and only if the query has words and the content has all of them, 0 if and only if it has none of them, and between otherwise |
| Retrieval.OverlapOrder | backend/src/tmis/ai/retrieval/hybrid_retriever.py:14-20 | For one query contents are ordered by the number of its words they contain, and more words in a content never lower the score |
| Retrieval.CombinedOrder | backend/src/tmis/ai/retrieval/hybrid_retriever.py:54-58 | Of two candidates one outranks the other if and only if its weighted lead in similarity outweighs what it lacks in words of the query |
| Retrieval.MoreWordsFirst | backend/src/tmis/ai/retrieval/hybrid_retriever.py:43-69 | Of two candidates of equal similarity the one with more of the query's words comes first, for every weight below 1 |
| Retrieval.ContainsIff | backend/src/tmis/ai/reranking/simple_reranker.py:24-31 | The phrase test is true exactly if the needle stands somewhere in the text |
| Retrieval.KeptCount | backend/src/tmis/ai/rag/indexing.py:25-31 | The candidates of a search are the entries that have what the filters ask for, each as often as it is indexed |
| Retrieval.RankedOk | backend/src/tmis/ai/retrieval/hybrid_retriever.py:68 | The ranking falls and has the same hits |
| Retrieval.RankingIsUnique | backend/src/tmis/ai/retrieval/hybrid_retriever.py:68 | Falling order and stability leave one arrangement only, so any stable sort by falling score is this ranking |
| Retrieval.RankedStable | backend/src/tmis/ai/rag/indexing.py:42 | Hits of equal score keep their order |
| Retrieval.InMemoryVectorIndex.Upsert | backend/src/tmis/ai/rag/indexing.py:17-20 | Refused exactly if the numbers differ; otherwise each chunk is added with its own vector behind the old entries |
| Retrieval.InMemoryVectorIndex.Search | backend/src/tmis/ai/rag/indexing.py:22-43 | The loop gives the best of the matching entries by similarity |
| Retrieval.RagPipeline.Retrieve | backend/src/tmis/ai/retrieval/hybrid_retriever.py:43-69 | The loop and the sort give the hybrid ranking of the pool, cut to the number asked for |
| Retrieval.RagPipeline.Query | backend/src/tmis/ai/rag/pipeline.py:56-66 | One citation for each hit of the staged ranking, in its order, with the chunk's identifier, content and document |
| KernelCache.TransparentIff | backend/src/tmis/ai/kernel/kernel.py:120-156 | With the cache on, no run of overlapping calls and searches gives a call another result than the uncached call if and only if accepted calls that share a key share their answer |
| KernelCache.EveryRunIsTransparent | backend/src/tmis/ai/kernel/kernel.py:120-156 | In particular with a digest of fixed length and without collisions |
| KernelCache.DigestAgrees | backend/src/tmis/ai/kernel/kernel.py:125-127 | Provider name and digest can be read back from the key, so such a digest makes keys agree |
| KernelCache.OneMetricPerAnswer | backend/src/tmis/ai/kernel/kernel.py:146-155 | The recorded metrics number exactly the answered provider calls; hits, failures and rejections record none |
| KernelCache.AskedAgainOnlyAfterTtl | backend/src/tmis/ai/kernel/kernel.py:129-144 | A cached-mode call reaches its provider only when every answer stored for its key before is more than the time to live old, overlapping calls included |
| KernelCache.KeptUntil | backend/src/tmis/ai/cache/in_memory_cache.py:14-26 | An answer stays available for its whole time to live, through all other calls and searches |
| KernelCache.TmisKernel.Complete | backend/src/tmis/ai/kernel/kernel.py:120-156 | For a call that nothing overlaps: a rejected prompt changes nothing; a stored answer that has not expired is returned and nothing is asked; otherwise the provider named by the call, or the default one if it names none, is asked with the prompt, its answer is stored in cached mode with the time to live and measured with its tokens and cost, and an unknown or failing provider stores and measures nothing |
| KernelCache.OneCallIsEvents | backend/src/tmis/ai/kernel/kernel.py:120-156 | That is the model's begin of the call followed by its end, so the theorems about runs are about such calls |
| KernelCache.AsksIff | backend/src/tmis/ai/kernel/kernel.py:129-144 | In every run of overlapping calls, a call in cached mode waits for its provider if and only if every answer stored for its key before is more than the time to live old |
| KernelCache.EntryWasStored | backend/src/tmis/ai/kernel/kernel.py:139-144 | Whatever lies under the key of a call was stored by an answered call of that key, and expires its time to live after that |
| KernelCache.InMemoryCache.Get | backend/src/tmis/ai/cache/in_memory_cache.py:14-22 | The value unless expired before now, in which case the entry is gone |
| KernelCache.InMemoryCache.Set | backend/src/tmis/ai/cache/in_memory_cache.py:24-26 | Only this key changes; it expires after its time to live, or never |
| KernelCache.InMemoryCache.Exists | backend/src/tmis/ai/cache/in_memory_cache.py:31-32 | Whether a lookup now would find a value |
| Lineage.LineageEngine.Explain | backend/src/tmis/ai_governance/lineage/engine.py:37-54 | The walk ends on every store, cyclic ones included; the chain has no repeats, ends in the production, each link is the latest revision pointer of its successor, and it stops only at a root or at something already on it |
| Lineage.ChainIsAncestry | backend/src/tmis/ai_governance/lineage/engine.py:37-54 | On an acyclic store that chain is the whole path from the root ancestor |
| Lineage.LineageStore.Add | backend/src/tmis/ai_governance/lineage/store.py:8-9 | The record becomes the latest of its production; no other production's records change |
| Lineage.LineageStore.GetLatest | backend/src/tmis/ai_governance/lineage/store.py:14-16 | The last record added for the production, none exactly if there is none |
| Lineage.LineageEngine.RecordOrigin | backend/src/tmis/ai_governance/lineage/engine.py:18-35 | The record with all its fields becomes the last of its production, whose revision pointer is the one given; all other pointers stay |
| Backfill.Upgrade | backend/alembic/versions/0013_document_records_firm_id.py:123-161 | The two loops, over rows in any fetched order, leave exactly the rows whose key no unresolvable row shares, with the firm of the last row of that key |
| Backfill.MigratedMeans | backend/alembic/versions/0013_document_records_firm_id.py:129-161 | A row is left exactly if it is one of the table, its key is not orphaned, and its firm is that of the key |
| Backfill.OrphanedMeans | backend/alembic/versions/0013_document_records_firm_id.py:146-147 | A key is orphaned exactly if some fetched row of it does not resolve |
| Backfill.LastFirmMeans | backend/alembic/versions/0013_document_records_firm_id.py:129-147 | The firm of a key is that of its last fetched row that resolves |
| Backfill.FirmOfMeans | backend/alembic/versions/0013_document_records_firm_id.py:130-136 | A row resolves exactly if its payload is a dictionary with an identifier whose canonical form is that of a case |
| Backfill.FirmOfCaseMeans | backend/alembic/versions/0013_document_records_firm_id.py:84-98 | The firm of a case is that of the last `cases` row with this canonical identifier, in canonical form where it has one |
| Backfill.NoNullFirm | backend/alembic/versions/0013_document_records_firm_id.py:123-161 | No surviving row has a null firm, also when (document, version) repeats |
| Backfill.KeepsExactlyResolvedIff | backend/alembic/versions/0013_document_records_firm_id.py:123-161 | The survivors are exactly the rows whose case resolves, in table order, each with its own case's firm and otherwise unchanged, if and only if rows that share (document, version) resolve to the same firm or none does |
| Backfill.UniqueKeysKeepExactlyResolved | backend/alembic/versions/0013_document_records_firm_id.py:123-161 | In particular with unique keys |
| Backfill.LostIffSharesOrphanKey | backend/alembic/versions/0013_document_records_firm_id.py:134-161 | A key survives if and only if the table has it and no fetched row of it is unresolvable; so a resolvable row is lost exactly when an unresolvable one shares its key |
| Backfill.FirmsByCase | backend/alembic/versions/0013_document_records_firm_id.py:84-98 | The map gives the firm of the last case row with the canonical identifier, in canonical form where it has one |
| Backfill.Purge | backend/alembic/versions/0013_document_records_firm_id.py:155-161 | The deletes remove exactly the rows of the collected keys and keep the order of the rest |
| Chunking.FixedSizeChunker.Make | backend/src/tmis/ai/rag/chunking.py:13-17 | Refused exactly if the overlap is not smaller than the chunks |
| Chunking.FixedSizeChunker.Split | backend/src/tmis/ai/rag/chunking.py:19-39 | Numbered windows at multiples of the step up to the end of the text, for every accepted configuration |
| Chunking.ChunksRestoreContent | backend/src/tmis/ai/rag/chunking.py:26-38 | Dropping the overlap from every chunk but the first and joining restores the text |
| Chunking.ChunkCount | backend/src/tmis/ai/rag/chunking.py:26-38 | The number of chunks is the length over the step, rounded up |
| Chunking.PassageInChunk | backend/src/tmis/ai/rag/chunking.py:26-38 | Every passage of at most overlap + 1 characters lies whole inside a chunk, which the lemma names |
| Chunking.AllCoveredIff | backend/src/tmis/ai/rag/chunking.py:13-38 | For every accepted configuration, sizes of zero or less and negative overlaps included: every character is in some chunk if and only if the overlap is not negative or the text fits one chunk |

## Left out

- Coordinator.CoordinatorEngine.RunMission: in the class an agent call returns before anything else happens; interleaving with other missions is modelled on values, in `MissionInterleaving`.
- Coordinator.WorkQueue: a work item is a value in the queue's map rather than an object that the queue and its callers share; nothing in the scheduler keeps a stale reference.
- MissionVerdict.OneItemPerReadySubTask: holds for launched missions before any rerun, as do the order of calls and the blame. A rerun adds a second item, does not look at dependencies, and leaves the results of later sub-tasks in place; what holds nevertheless is in `MissionRerun`.
- MissionInterleaving.NonInterference: each mission is run once and without reruns; two concurrent runs of one mission are not modelled.
- QuotaRouter.RouterEngine.Route: the check and the record of one request are not interleaved with another's; the wording of reasons, durations and error counters are not modelled.
- QuotaRouter.NoWindowOverflows: a quota that changes between calls is not covered.
- HumanValidation.ApprovedIff: does not say that an approver belongs to the tier, because simple and hierarchical requests count anybody.
- Consensus.BuildConsensus: word sets are given with the positions, and rounding of averages is not modelled; the mean over pairs is claimed for distinct authors, the rest for all.
- ContractDiff.DiffParagraphs: the matcher's operations are a parameter that must tile both texts; splitting into paragraphs is not modelled.
- Retrieval.RagPipeline.Query: similarity and tokens are parameters, absent filters are empty ones, and ingestion and cleaning are not modelled.
- KernelCache.TmisKernel.Complete: the class runs one call at a time; overlapping calls are modelled on values, by the events of the same module. Streaming and the results of connector searches (whose key omits their filters) are not modelled, only what searches do to the shared store.
- KernelCache.InMemoryCache.Get: the in-memory cache only; the Redis backend with its own expiry is not modelled.
- Chunking.FixedSizeChunker.Split: identifiers of chunks are their document and number, and metadata is not modelled.
- Backfill.Upgrade: schema changes, and the case without a `cases` table beyond an empty list of cases, are not modelled; a firm or case value is its text.
- Work queue: `dequeue_next`, `cancel` and `check_timeouts`, which no mission run calls.
- Logging, metrics registries, traces of context slices, cost and quality records of agent runs, and completion times.
- The record of human decisions, and the parsing of their payloads.
- Contradiction search and the other scores of the response evaluator; the detection engines behind the verifier.
- Append-and-filter stores, fixed-weight scores, policy and risk tables, HTTP routes, schemas, wiring and the frontend: true but easy, or outside the algorithms.
