# Verified models of the agent core

This project models the Blender-independent core of the AI sidebar agent in Dafny and proves what the core
promises. Nothing here executes the original program: each model states in Dafny's terms what the Python
code does, branch by branch, and the proofs hold for every input, every run and every choice of user,
provider, tool and thread interleaving.

| module | models |
|---|---|
| `PyText` | the few string operations the code relies on |
| `Chat` | chat messages and `Conversation.validate_sequence` (agent/models.py) |
| `ContextGuard` | the context-size guard and message assembly (agent/context_builder.py) |
| `Turns` | partitioning, pruning and compacting a conversation (agent/memory.py) |
| `SceneMemory` | `RollingMemory`'s living and deleted objects (agent/memory.py) |
| `Sse` | the incremental stream parser (agent/sse_parser.py) |
| `Accumulator` | reassembly of tool calls from fragments (agent/tool_call_accumulator.py) |
| `Topology`, `TopologyCycles`, `KahnLoop` | Kahn's algorithm with its tie-break (agent/plan_validator.py) |
| `PlanModel`, `ToolSchema`, `PlanValidator`, `PlanChecks` | plans, schemas and validation (agent/plan_models.py, agent/plan_validator.py) |
| `PlanReview`, `PlanExecutor`, `Policy` | review, execution, approval policy and the description of calls |
| `VisualVerify` | when looking at the scene raises (tools/read_only/visual_verify.py, agent/visual_verifier.py) |
| `StateMachine`, `Queues` | the phase table and the two queues |
| `Runtime` | the turn protocol of `AgentRuntime` and `AgentWorker` as a transition system |
| `RuntimeSteps` | what each step does to the whole state |
| `RuntimeLog` | a reference monitor for what the runtime does to the world |
| `RuntimeShape`, `RuntimeProtocol`, `RuntimeLicence` | the invariants of every run of `Runtime`: phases and streams, the conversation, the log |
| `RuntimeConsent`, `RuntimeProgress`, `RuntimeQueue` | which steps cause which effects, how turns come to an end, in which order prompts start |
| `RuntimeCancel`, `RuntimeMishaps` | what cancelling undoes, and the turns and sessions that get stuck |
| `AgentRuntimeObject`, `AgentWorkerObject` | the two objects, method by method, proved equal to `Runtime` |
| `TransformCheck` | transforming an object and verifying the outcome, over reals |

Code that computes a value is a function; code that works step by step is a method or a class whose
contract ties it to such a function, and the properties are proved about the function. In the transition
system the main thread's calls are atomic steps and the worker's steps fall between them anywhere: taking a
task, looking at one stream event (the cancel event is checked here) and putting its outcome into the queue
are three separate steps, so a cancellation may fall between a check and the event that follows it. What a
tool, a provider, a user or an image cache answers is an argument of the step; a tool may also raise, and so
may the description of a call and the pruning and summing up of old texts. Turn and approval
identifiers, random in the code, are counters.

Where the code does not keep a promise, the project says so with a proof, and with the exact condition:
`CapDependsOnChunking`, `CallIdCutExactly`, `DeletedNameRoundTrip`, `CompactRetainingNoneKeepsAll`,
`GatedCallInUnaskedPlan`, `BatchLeavesSuffix` and `HeldCallMustBeLast` (several calls in one response),
`StartWedgesIff` (a prompt with a missing image), `VisualVerifyStrands` (a tool that raises),
`NamelessDeletionHangs` (a call that cannot be described), `SilenceLosesTurn` and `SilentProvider` (a stream
that ends without an answer), `HaltedUntilCancelled` and `LostUntilCancelled` (nobody goes on with such
turns), `CancelAfterCompactionIff`, `CancelSticksInEveryRun`, `CancelAfterCompactionSticks` and
`StuckForGood` (cancelling after a compaction), `IdleCancelKeeps` and `IdleCancelErasesLastTurn` (cancelling
while idle), `OvertakenExactly` (a submission before waiting prompts), `NineteenIsTight`. The docstring of
`compact_conversation` mentions a shortcut that returns the pruned conversation; the code has none, and the
model follows the code.

Run `dafny verify dfyconfig.toml` to check everything.

## Model

| member | source | states |
|---|---|---|
| `Chat.ValidIffExchanges` | agent/models.py:230-274 | a conversation is accepted exactly when it is a chain of exchanges: lone messages, and requests each followed at once by one reply per call |
| `Chat.Conversation.ValidateSequence` | agent/models.py:230-274 | the scan with its pending ids raises exactly outside the protocol, and names the first message at which no continuation is possible |
| `Chat.Conversation.FindToolCall` | agent/models.py:221-228 | finds a request for a call id if there is one anywhere |
| `ContextGuard.GuardKeepsLargestSuffix` | agent/context_builder.py:239-329 | the guard keeps the system message and the largest suffix that fits, cut only between exchanges and never inside the latest interaction, which starts at the last user message behind the first message; only that interaction can exceed the cap, and then exactly its tool texts longer than half the cap are replaced by a marker |
| `ContextGuard.CharsMeaning` | agent/context_builder.py:116-129 | the size that is compared with the cap is the length of everything written in the messages and their calls |
| `ContextGuard.GuardKeepsProtocol` | agent/context_builder.py:239-329 | whatever the cap, a valid context stays valid and keeps its system message |
| `ContextGuard.EvictStopsAtSettled` | agent/context_builder.py:290-301 | eviction stops only where no call is unanswered, at the earliest such place that fits |
| `ContextGuard.ApplyContextSizeGuard` | agent/context_builder.py:239-329 | the backward scan, the cluster loops and the eviction loop compute the guard |
| `ContextGuard.BuildKeepsProtocol` | agent/context_builder.py:161-191 | every request built from a valid conversation is valid and opens with the prompt asked for, else the conversation's own, else the default; if all of it fits, nothing of the conversation is missing |
| `Turns.PartitionRoundTrip` | agent/memory.py:721-780 | partitioning loses no message and groups them into turns that open with a user message |
| `Turns.PartitionByRoles` | agent/memory.py:721-780 | the turns are what follows the system message and a marked summary with its acknowledgement; each user message opens one, and so does the first message |
| `Turns.RegroupTurns` | agent/memory.py:763-780 | turns put one after the other are grouped into the same turns again |
| `Turns.PruneKeepsProtocol` | agent/memory.py:783-855 | pruning a valid conversation raises exactly for an old text that cannot be pruned, never at the sequence check; otherwise it keeps it valid, keeps every message's place and the last k turns word for word |
| `Turns.PruneMessageByMessage` | agent/memory.py:783-855 | exactly the messages between the opening and the k-th last user message are pruned: tool results get the rewritten text, images go, all other messages stay as they are |
| `Turns.PruneChangesExactly` | agent/memory.py:806-848 | that happens exactly if one of them has a text that is rewritten or an image that goes |
| `Turns.PruneRaisesExactly` | agent/memory.py:806-848 | pruning a valid conversation raises exactly if one of these tool results has a text whose pruning raises |
| `Turns.CompactKeepsMeaning` | agent/memory.py:858-932 | compacting a valid conversation raises exactly for a text that cannot be pruned or summed up; otherwise it gives itself or the system message, one summary pair and exactly the last k turns; which of the two is decided exactly by size and number of turns |
| `Turns.CompactMessageByMessage` | agent/memory.py:899-927 | a compacted conversation word by word: the system message, the marked summary of what stood before the last k turns, its acknowledgement, those turns |
| `Turns.CompactKeepsLast` | agent/memory.py:899-927 | pruning and compaction never touch the newest message of a user, valid conversation or not |
| `Turns.CompactTwiceIsOnce` | agent/memory.py:858-932 | a compacted conversation is not compacted again |
| `Turns.CompactRetainingNoneKeepsAll` | agent/memory.py:899-927 | with no turn to retain, nothing is dropped: the slice from minus zero is the whole list |
| `Turns.PartitionConversation` | agent/memory.py:721-780 | the partition loop computes the partition |
| `Turns.PruneConversation` | agent/memory.py:783-855 | the pruning loops compute the pruned conversation or raise |
| `Turns.CompactConversation` | agent/memory.py:858-932 | the compaction steps compute the compacted conversation or raise |
| `SceneMemory.ScenesTracked` | agent/memory.py:400-505 | over any tool messages the extraction goes through exactly if none makes it raise, by a number that cannot be read or a garbled inspection of the scene; then a target is listed living exactly when its last passing verification was no deletion, deleted exactly when it was, never both and never twice, with the operation of that verification |
| `SceneMemory.RaisesExactly` | agent/memory.py:433-498 | a message makes the extraction raise exactly by a passing verification, of no deletion, with an unreadable number, or by a garbled inspection without a failed verification |
| `SceneMemory.ReportsCollected` | agent/memory.py:408-505 | all reported errors are added in order, the last visual verdict is remembered, every inspection is listed once |
| `SceneMemory.RaisingExtraction` | agent/memory.py:436-498 | an extraction that raises over a number has taken its target off the deleted list and recorded nothing; one that raises over an inspection has done all the rest |
| `SceneMemory.ScenesTrackedAfterSummary` | agent/memory.py:382-387 | the same when a prior summary's deletions are absorbed first |
| `SceneMemory.RollingMemory.MergeDeletedSection` | agent/memory.py:382-387 | the loop over the deleted names of a prior summary absorbs them as specified |
| `SceneMemory.DeletedNameRoundTrip` | agent/memory.py:382-387 | a deleted name survives the summary text exactly when it has no colon and no quote at either end |
| `SceneMemory.RollingMemory.ExtractToolMessage` | agent/memory.py:400-505 | the in-place update of the collections is the specified one, also where a number cannot be read or an inspection is garbled and it raises half-way |
| `Sse.ChunkIndependence` | agent/sse_parser.py:41-76 | what is accepted in one piece is accepted in two, with the same payloads and final state, a split line-end pair included |
| `Sse.AnyChunking` | agent/sse_parser.py:41-76 | for every cutting into any number of pieces: the whole is accepted exactly if all pieces are and it fits the cap, with the same payloads and final state |
| `Sse.CapDependsOnChunking` | agent/sse_parser.py:68-72 | the size cap does depend on the cutting, because it is compared with the whole buffer |
| `Sse.StreamRefinesReference` | agent/sse_parser.py:85-182 | every cutting yields what a one-shot reading of the text yields by the line and field rules of sections 9.2.5 and 9.2.6 of the WHATWG HTML Standard, with a flush at the end |
| `Sse.NormalizedLines` | agent/sse_parser.py:129-140 | splitting the normalised text gives the lines that CR LF, LF and CR each end |
| `Sse.TooLargeExactly` | agent/sse_parser.py:68-182 | a feed raises exactly if the buffer outgrows the limit or the data gathered for one event does with one of the complete lines; closing exactly in the latter case |
| `Sse.DataField` | agent/sse_parser.py:156-182 | the parser's field test agrees with the standard's for the data field |
| `Sse.FramedRoundTrip` | agent/sse_parser.py:142-182 | with any of the three line ends, payloads framed as data lines plus a blank line come back exactly if and only if none of them holds a carriage return |
| `Sse.SseParser.FeedText` | agent/sse_parser.py:41-76 | the mutable parser's feed is the specified step |
| `Sse.SseParser.CloseStream` | agent/sse_parser.py:85-116 | closing flushes the partial line and the pending data |
| `Accumulator.InterleavingIrrelevant` | agent/tool_call_accumulator.py:40-65 | only each index's own fragments matter, not how indices interleave |
| `Accumulator.InterleavingFinalizesAlike` | agent/tool_call_accumulator.py:67-131 | two interleavings with the same fragments per index give the same calls or the same error |
| `Accumulator.TextsConcatenate` | agent/tool_call_accumulator.py:59-65 | names and arguments are unchanged by cutting fragments differently |
| `Accumulator.ResplitFinalizesAlike` | agent/tool_call_accumulator.py:40-131 | two fragment lists with the same ids and the same concatenated names and arguments for each index finalise alike, to the same calls or the same error |
| `Accumulator.CallIdCutExactly` | agent/tool_call_accumulator.py:51-57 | exactly when cutting a call id in two changes what is stored |
| `Accumulator.FinalizeMeaning` | agent/tool_call_accumulator.py:67-131 | the calls come in strictly increasing index order, or the error is that of the smallest faulty index |
| `Accumulator.FinalizedCallsAreWhole` | agent/tool_call_accumulator.py:67-131 | what is delivered is one call per index with the collected id and name, neither of them blank, and the decoded arguments |
| `Accumulator.StreamedCallsAreWhole` | agent/tool_call_accumulator.py:40-131 | from the fragments to the calls: every index with a fragment becomes one call, in increasing order, whose name and decoded arguments are those its fragments concatenate to |
| `Accumulator.FinalizedFault` | agent/tool_call_accumulator.py:81-122 | the reported error names the very fault of the least index that has one: id, then name, then arguments |
| `Accumulator.RepeatedId` | agent/tool_call_accumulator.py:51-57 | an id that comes whole, once or repeatedly, is the id of the call |
| `Accumulator.ToolCallAccumulator.FinalizeCalls` | agent/tool_call_accumulator.py:67-131 | the finalising loop computes the specified calls or error |
| `Accumulator.ToolCallAccumulator.FeedDelta` | agent/tool_call_accumulator.py:40-65 | the mutable accumulator's feed is the specified step |
| `KahnLoop.KahnSort` | agent/plan_validator.py:300-327 | the loop with in-degrees and a sorted ready list emits the greedy order and leaves exactly the stuck steps |
| `Topology.OrderIsLexLeast` | agent/plan_validator.py:309-322 | the order is the least, by declaration index, of all topological orders, repeated dependencies included |
| `TopologyCycles.CompleteIffAcyclic` | agent/plan_validator.py:324-327 | the sort is complete exactly when no dependency chain closes on itself |
| `TopologyCycles.LeftoverGreatest` | agent/plan_validator.py:324-327 | the steps named in a cycle report are the greatest set in which each waits for another |
| `Topology.SortedStaysPut` | agent/plan_validator.py:309-322 | steps listed after their dependencies keep their order |
| `PlanModel.FreezeRoundTrip` | agent/plan_models.py:70-87 | a value survives freezing and thawing unchanged exactly when it holds no frozen part |
| `PlanModel.FreezeFreezes` | agent/plan_models.py:70-87 | freezing leaves nothing mutable, thawing nothing frozen |
| `PlanModel.WrittenPlanIsRead` | agent/plan_models.py:134-219 | what validation reads of a written plan is that plan, every field under its own key |
| `PlanModel.MaxRiskLevel` | agent/plan_models.py:27-43 | the loop computes the maximal level, LOW for none |
| `PlanModel.RankOrder` | agent/plan_models.py:17-23 | the levels rank in the documented order |
| `PlanModel.MaxRiskOrderFree` | agent/plan_models.py:27-43 | the overall risk does not depend on the order of the steps |
| `ToolSchema.ValidateToolArguments` | agent/plan_validator.py:45-117 | no error is reported exactly for arguments that conform to the schema; otherwise exactly the errors that apply |
| `ToolSchema.KindsOf` | agent/plan_validator.py:82-95 | which types a value passes for; a boolean is no number |
| `ToolSchema.PyEqualMeaning` | agent/plan_validator.py:77-80 | membership in an enumeration compares numbers and booleans by value, all else by structure |
| `PlanChecks.ValidatePlan` | agent/plan_validator.py:128-360 | a plan is returned exactly when no error is reported; a cycle is reported exactly when all else is in order, naming exactly the stuck steps; otherwise exactly the errors that apply are reported, stage by stage |
| `PlanChecks.AcceptedIffAcyclic` | agent/plan_validator.py:300-327 | a well-formed plan is refused exactly for a cycle |
| `PlanChecks.ParseSteps` | agent/plan_validator.py:192-264 | the step loop reports an error exactly for malformed or repeated steps and otherwise reads all of them; it reports exactly the faults of each step |
| `PlanValidator.ValidatedIsCanonical` | agent/plan_validator.py:329-360 | what every returned plan guarantees: distinct clean ids, known tools, conforming arguments, dependencies first, the maximal risk |
| `PlanValidator.ValidatedShowsProposal` | agent/plan_validator.py:158-356 | every field of a validated plan and its steps holds what stands under its key in the proposed object; the steps are its items, each once |
| `PlanValidator.RevalidationIsIdentity` | agent/plan_validator.py:128-360 | validating a validated plan succeeds and returns it unchanged |
| `PlanReview.BuildPlanReview` | agent/plan_review.py:82-124 | the review loop builds the review of the validated plan, or raises where a step cannot be described |
| `PlanReview.ReviewShowsPlan` | agent/plan_review.py:89-124 | a review shows its plan's steps one for one with registered risks and descriptions; its overall risk is the plan's, reached by a step and exceeded by none |
| `PlanReview.ValidatedIsReviewed` | agent/plan_review.py:82-124 | where the schemas declare the described arguments to be strings, exactly the validated plans have a review |
| `PlanReview.ReviewedExactly` | agent/plan_review.py:82-124 | a validated plan has a review exactly if each step has a description of its own or can be described |
| `PlanExecutor.ExecutePlan` | agent/plan_executor.py:192-374 | the execution loop computes the specified execution |
| `PlanExecutor.ExecutionShape` | agent/plan_executor.py:250-374 | for every validated plan and all tool outcomes: k completed, at most one failed or refused, the rest skipped; each step at most once and only after its dependencies |
| `PlanExecutor.InvalidRunsNothing` | agent/plan_executor.py:214-233 | a plan that is not valid runs no tool |
| `PlanExecutor.DependenciesAlwaysMet` | agent/plan_executor.py:269-300 | the unmet-dependency and unknown-tool branches are unreachable for validated plans |
| `PlanExecutor.ReviewedIsExecuted` | agent/runtime.py:505-522 | the tools receive a prefix of the reviewed steps in the order of the review, all of them if the plan completes |
| `Policy.DirectGateOnPlanStep` | agent/policy.py:82-116 | a step of a low-risk plan would be stopped if called directly exactly when the tool rates these arguments as gated |
| `Policy.GateExactly` | agent/policy.py:82-116 | a call needs approval exactly if its tool is unknown or its risk for these arguments, else its static one, is neither READ_ONLY nor LOW |
| `Policy.GatedCallInUnaskedPlan` | agent/policy.py:100-114 | a concrete plan for which this happens |
| `Policy.HumanDescription` | agent/policy.py:118-177 | describing a call raises exactly if it treats an argument as a text that is given and is none; otherwise the text shows the described arguments that are given, names stripped and in quotes, the source of a duplicate before its new name |
| `Policy.ConformingDescription` | agent/policy.py:118-177 | arguments that conform to a schema with string arguments are always described; calls are not checked before, plan steps are |
| `StateMachine.AgentStateMachine.TransitionTo` | agent/state_machine.py:56-71 | moves along allowed edges only and otherwise raises without moving |
| `StateMachine.AllowedBySource` | agent/state_machine.py:27-46 | from which phases each phase can be entered |
| `Queues.PromptQueue.Enqueue` | agent/prompt_queue.py:34-53 | appends at the end or refuses when full, changing nothing |
| `Queues.PromptQueue.Pop` | agent/prompt_queue.py:55-57 | removes the oldest prompt |
| `Queues.EventQueue.Put` | core/event_queue.py:19-21 | appends at the end |
| `Queues.EventQueue.DrainBatch` | core/event_queue.py:30-62 | takes a prefix within the size and time budget and stops for no other reason |
| `RuntimeSteps.ApprovedCall` | agent/runtime.py:1683-1847 | the whole state after the approval of a call: the tool's reply joins the conversation word for word with its image; a success takes the turn on, a failure ends it, an exception leaves it |
| `RuntimeSteps.RejectedCall` | agent/runtime.py:1849-1977 | the whole state after a rejection: the call is answered with it and the turn goes on |
| `RuntimeSteps.UndecidedCall` | agent/runtime.py:1690-1714 | when a decision on a call is refused, and what it does to a cancelled turn |
| `RuntimeSteps.ApprovedPlan` | agent/runtime.py:524-648 | the whole state after the approval of a plan: it runs, its summary answers its call, and the turn goes on |
| `RuntimeSteps.UnaskedPlan` | agent/runtime.py:524-648 | the same for a plan that starts unasked, without an approval on record |
| `RuntimeSteps.RejectedPlan` | agent/runtime.py:650-769 | the whole state after the rejection of a plan |
| `RuntimeSteps.UndecidedPlan` | agent/runtime.py:524-556 | when a decision on a plan is refused, and what it does to a cancelled turn |
| `RuntimeSteps.ProposedPlan` | agent/runtime.py:1323-1443 | a proposal is refused after too many repairs or without a review, held for the user, or run unasked if allowed and of low risk |
| `RuntimeSteps.PlainEvent` | agent/runtime.py:1120-1160 | what stale events, deltas, notices and errors do to the state |
| `RuntimeSteps.FinalAnswer` | agent/runtime.py:1221-1266 | the whole state after a final answer |
| `RuntimeSteps.CallingAnswer` | agent/runtime.py:1268-1618 | the whole state after an answer with calls: the request and each tool's reply join the conversation in order, word for word, up to the first call that asks the user, fails or raises; or the turn ends beyond its rounds |
| `RuntimeSteps.SubmittedPrompt` | agent/runtime.py:939-971 | a prompt starts at once if nothing is under way, with its conversation pruned and compacted; else it waits, up to twenty of them |
| `RuntimeSteps.PumpedPrompt` | agent/runtime.py:973-1002 | a tick starts the oldest waiting prompt likewise |
| `RuntimeSteps.Cancelled` | agent/runtime.py:1654-1681 | the whole state after a cancellation |
| `RuntimeSteps.TakenTask` | agent/worker.py:104-121 | the worker takes the oldest task unless its turn was cancelled |
| `RuntimeSteps.PostedEvent` | agent/worker.py:122-206 | a posted event joins the queue |
| `RuntimeSteps.PremisesInEveryRun` | agent/runtime.py:939-1681 | what these rows ask of the state holds in every run |
| `RuntimeShape.PhasesInEveryRun` | agent/runtime.py:939-1681 | in every run an approval is awaited exactly when one pending approval is set, never two; in PROCESSING a turn is active and its provider step is queued, streaming, answered or lost, unless a call of the turn could not be described; then and outside PROCESSING nothing of the active turn is under way; without an active turn the phase is IDLE or ERROR; with one it is ERROR, IDLE or EXECUTING_TOOL exactly if its start missed an image, its context check raised, or a tool of it raised |
| `RuntimeShape.WaitsInVainExactly` | agent/worker.py:122-175 | in every run a turn in PROCESSING waits in vain exactly if its provider's stream ended without an answer, and then it is lost, or a call of it could not be described, never both |
| `RuntimeShape.OneStage` | agent/worker.py:104-206 | a provider step is at one of these stages only |
| `RuntimeShape.AttemptShape` | agent/runtime.py:939-1681 | every step keeps the invariant; an illegal state transition is attempted exactly for the error a missing prompt image left behind; a turn is stranded in EXECUTING_TOOL exactly by a tool's exception, and left in PROCESSING with an open call exactly by a description's |
| `RuntimeShape.StreamKeepsUp` | agent/runtime.py:1149-1152 | while the worker is busy for the active turn, the text on the main thread plus the deltas under way, the one about to be posted included, is what it has streamed |
| `RuntimeShape.FinalTextIsStreamed` | agent/runtime.py:1221-1266 | the final answer is exactly the concatenation of the last step's deltas, or the stock phrase |
| `RuntimeProtocol.ConversationInEveryRun` | agent/runtime.py:1306-1619 | with one call per response the conversation is valid whenever the provider works, a turn ended uncancelled or a start failed; while an approval is awaited the only unanswered call is the one that will be answered, and where a tool raised or a call could not be described it is that call |
| `RuntimeProtocol.CompactContextWhole` | agent/runtime.py:806-842 | on a valid conversation the check before a turn raises exactly for a text that cannot be pruned or summed up, and keeps it valid either way |
| `RuntimeProtocol.BatchLeavesSuffix` | agent/runtime.py:1306-1485 | processing a response with several calls answers a first part of them: a held call, a held plan, a call that raised or one that could not be described is the first of the open ones, and the worker is handed open calls only behind a plan that started unasked; the conversation is valid exactly if no call is left |
| `RuntimeProtocol.HeldCallMustBeLast` | agent/runtime.py:1756-1764 | deciding on it makes the conversation valid exactly if it was the last call |
| `RuntimeLog.ApprovalUsedOnce` | agent/runtime.py:1716-1732 | in a lawful log an approval is used at most once, by a dispatch, a plan run or a rejection |
| `RuntimeLog.ApprovedOrRejected` | agent/runtime.py:1716-1719 | in a lawful log no approval is both given and refused |
| `RuntimeLog.DispatchLicensed` | agent/runtime.py:1445-1488 | in a lawful log every dispatched call passed the policy, or is the very call that was requested and then approved by the user, and never rejected |
| `RuntimeLog.PlanRunLicensed` | agent/runtime.py:417-451 | in a lawful log every plan that runs was reviewed in this form, validated and never rejected; it was approved by the user after the review, or runs unasked, which the settings must allow and only for low risk |
| `RuntimeLog.NothingAfterTheEnd` | agent/runtime.py:1132-1138 | in a lawful log nothing of a turn follows its end |
| `RuntimeLog.TurnsAreBounded` | agent/runtime.py:1268-1304 | in a lawful log no turn exceeds its rounds plus one or its repairs |
| `RuntimeLicence.EveryRunIsLawful` | agent/runtime.py:417-451 | every run of the runtime has a lawful log |
| `RuntimeConsent.EffectsHaveCauses` | agent/runtime.py:524-556 | in every run each approval, rejection, approved dispatch and approved plan run was written by the one step in which the user took that decision on what was pending; each mishap by the step that met with it, as the state before that step and its inputs show |
| `RuntimeConsent.StartGains` | agent/runtime.py:1020-1118 | a start is refused for a broken conversation without a remembered start, breaks off where pruning or compacting what it finds raises, and otherwise misses an image that is not there; each writes its own effect and no other |
| `RuntimeConsent.NothingGatedRunsUnapproved` | agent/runtime.py:1683-1732 | in every run a gated call reaches its tool only in the user's approval of it, and a plan runs only in the user's approval of it or unasked, allowed and of low risk |
| `RuntimeLicence.TurnsStayBounded` | agent/runtime.py:1323-1383 | at most max_tool_rounds + 1 tasks and max_plan_repairs repairs in every turn of every run |
| `RuntimeProgress.MeasureFalls` | agent/runtime.py:1268-1304 | a measure of the turn never grows and falls with every answer processed and every decision taken |
| `RuntimeProgress.AnswersAndDecisionsAreBounded` | agent/runtime.py:1268-1304 | in every run a turn sees at most two answers and decisions per round that is left |
| `RuntimeLicence.EndedTurnsAreInert` | agent/runtime.py:1132-1138 | an event of an ended turn changes nothing but the count of stale events |
| `RuntimeCancel.CancelRestoresIff` | agent/runtime.py:1654-1681 | cancelling, during a turn or after its end, restores what the turn found exactly when the remembered start is the position of its prompt |
| `RuntimeCancel.CancelInEveryRun` | agent/runtime.py:489-503 | in every run with one call per response, for prompts submitted and prompts from the queue: without compaction, cancelling at any point of the turn or after its end restores the earlier messages, pruned and valid |
| `RuntimeCancel.TurnOnlyGrows` | agent/runtime.py:1048-1050 | while a turn lasts, and after it until a cancellation or another turn, its conversation only grows and its start stays |
| `RuntimeCancel.CompactionMovesStart` | agent/runtime.py:1049-1053 | after a compaction the start is the old length, and by how much the conversation is shorter |
| `RuntimeCancel.CancelAfterCompactionIff` | agent/runtime.py:1654-1681 | after a compaction, cancelling at any point of the turn or after its end restores what the turn found exactly if two messages were replaced |
| `RuntimeCancel.CancelSticksInEveryRun` | agent/runtime.py:489-503 | with one call per response, in every run, cancelling a turn, active or ended, leaves a stuck session exactly if it cuts the conversation behind a request |
| `RuntimeCancel.CancelAfterCompactionSticks` | agent/runtime.py:1654-1681 | so cancelling the first decision of a turn sticks whenever its compaction replaced four or more messages |
| `RuntimeCancel.StuckForGood` | agent/runtime.py:1027-1033 | no step leads out of a stuck session and every prompt is refused |
| `RuntimeCancel.IdleCancelKeeps` | agent/runtime.py:1654-1681 | cancelling while idle, whichever way the last turn ended and wherever its start is remembered, cuts the conversation at that start and leaves everything else but the repair count |
| `RuntimeCancel.IdleCancelErasesLastTurn` | agent/runtime.py:1265-1265 | so it removes a turn that completed with a final answer |
| `RuntimeMishaps.StartWedgesIff` | agent/runtime.py:1079-1109 | from every state in which a prompt may start, the turn stays active in ERROR exactly if the start returns and an image is missing; its only event is its error, which is always refused |
| `RuntimeMishaps.VisualVerifyStrands` | agent/visual_verifier.py:315-320 | a session in which `visual_verify` names an image that the cache does not hold, its exception leaves the turn in EXECUTING_TOOL with the call open, and cancelling takes the turn back |
| `VisualVerify.LookRaisesExactly` | agent/runtime.py:276-290 | the call raises exactly for a named image that is not in the cache while the provider sees images, or whose id is no text, or for a capture that the cache has lost |
| `VisualVerify.LookSucceedsExactly` | agent/runtime.py:276-290 | otherwise it succeeds unless its arguments or a new capture are no good, and reports the image that was looked at |
| `RuntimeMishaps.NamelessDeletionHangs` | agent/policy.py:126-128 | a session in which a deletion with a name that is no text leaves the turn in PROCESSING with the call open and nobody at work, and cancelling takes the turn back |
| `RuntimeMishaps.SilenceLosesTurn` | agent/worker.py:139-143 | among all steps of everybody, a turn gets lost exactly by the end of its own stream without an answer, or by an error marked as a cancellation though nobody cancelled |
| `RuntimeMishaps.SilentProvider` | agent/worker.py:122-175 | a session that is lost after three steps |
| `RuntimeMishaps.ActiveIffWorking` | agent/runtime.py:939-1681 | with one call per response, images found at starts, tools that do not raise and texts that can be pruned and summed up, in every run a turn is active exactly in PROCESSING and PENDING_APPROVAL |
| `RuntimeMishaps.HaltedUntilCancelled` | agent/runtime.py:946-966 | a turn that is wedged, jammed, stranded or left with a call that could not be described stays as it is until it is cancelled, and prompts only queue up behind it |
| `RuntimeMishaps.LostUntilCancelled` | agent/runtime.py:946-966 | so does a lost turn |
| `RuntimeMishaps.LostBatchIsHarmless` | ui/timer_bridge.py:64-109 | the events that an exception takes along from the same tick would have changed nothing but the count of stale events |
| `RuntimeQueue.TurnsOpen` | agent/runtime.py:973-992 | a turn opens exactly in a step that starts a prompt and is not refused, and its conversation then ends with the submitted or the oldest waiting prompt |
| `RuntimeQueue.QueueIsFifo` | agent/runtime.py:973-992 | in every run the prompts taken from the queue, in order, followed by those still waiting are the prompts put into it, in order |
| `RuntimeQueue.OvertakenExactly` | agent/runtime.py:946-971 | waiting prompts are overtaken exactly by a prompt submitted while the runtime is not busy, whose start is not refused |
| `AgentRuntimeObject.AgentRuntime.StartPromptNow` | agent/runtime.py:1004-1118 | starting a prompt does what the transition system says |
| `AgentRuntimeObject.AgentRuntime.Submit` | agent/runtime.py:939-971 | submitting starts or queues a prompt as specified |
| `AgentRuntimeObject.AgentRuntime.Pump` | agent/runtime.py:973-1002 | pumping starts the oldest prompt and swallows a failure to start it |
| `AgentRuntimeObject.AgentRuntime.MaybeCompactContext` | agent/runtime.py:806-842 | pruning, then compacting, as specified |
| `AgentRuntimeObject.AgentRuntime.RunToolCalls` | agent/runtime.py:1319-1618 | the loop over the calls of a response with its early exits, a tool's exception included, does what is specified |
| `AgentRuntimeObject.AgentRuntime.Process` | agent/runtime.py:1120-1652 | processing an event does what is specified |
| `AgentRuntimeObject.AgentRuntime.RequestReview` | agent/runtime.py:398-451 | reviewing a proposed plan, with unasked approval of low-risk ones, as specified |
| `AgentRuntimeObject.AgentRuntime.Propose` | agent/runtime.py:1323-1443 | the repair limit, the review and the refusal of a proposal as specified |
| `AgentRuntimeObject.AgentRuntime.ApproveCall` | agent/runtime.py:1683-1847 | approving a call as specified, with its ways to raise, a tool's exception included |
| `AgentRuntimeObject.AgentRuntime.RejectCall` | agent/runtime.py:1849-1977 | rejecting a call as specified |
| `AgentRuntimeObject.AgentRuntime.ApprovePlanReview` | agent/runtime.py:524-648 | approving a plan as specified |
| `AgentRuntimeObject.AgentRuntime.RejectPlanReview` | agent/runtime.py:650-769 | rejecting a plan as specified |
| `AgentRuntimeObject.AgentRuntime.CancelCurrentTurn` | agent/runtime.py:1654-1681 | cancelling as specified |
| `AgentWorkerObject.AgentWorker.RunNext` | agent/worker.py:104-218 | the run loop turns one task's stream into the specified events |
| `AgentWorkerObject.OneTerminalEvent` | agent/worker.py:122-206 | a task yields deltas, then at most one terminal event, and a response repeats the text of the deltas |
| `AgentWorkerObject.ProducedExactly` | agent/worker.py:122-206 | a task posts the texts of its stream up to the first other event or its cancellation, and then what that event gives: an answer holds all of the text and the completed calls |
| `AgentWorkerObject.StepsProduce` | agent/worker.py:104-218 | the worker's steps in the transition system yield the same events |
| `TransformCheck.SceneObject.Transform` | adapter/mutators/transform_mutator.py:14-116 | the new pose, the rounded snapshots, and what is already changed when a malformed vector raises |
| `TransformCheck.AppliedByComponents` | adapter/mutators/transform_mutator.py:56-91 | component by component: locations and rotations are shifted or set, scales multiplied or set, properties that were not asked for stay, also where a malformed vector raises |
| `TransformCheck.ExpectedByComponents` | agent/verifier.py:1090-1111 | the verifier expects the recorded pose changed in the same way |
| `TransformCheck.AnglesAgreeModuloTurns` | agent/verifier.py:12-19 | the rotation check passes exactly when the angles agree up to whole turns |
| `TransformCheck.CompareNumericVector` | agent/verifier.py:79-140 | a mismatch is reported exactly for different lengths or a component too far off |
| `TransformCheck.VerifyTransform` | agent/verifier.py:658-709 | an object that is gone is reported as that alone; otherwise exactly the requested properties that are too far off are reported |
| `TransformCheck.ExactTransformVerifies` | agent/verifier.py:1090-1119 | an exact transformation passes despite two roundings: location and rotation always, scale for relative factors up to 19 |
| `TransformCheck.NineteenIsTight` | agent/verifier.py:1106-1107 | for every bound above 19 some factor within it and some scale fail |

## Left out

- Transport: HTTP, TLS, timeouts, provider requests and their retries; a provider is any stream of events.
- UTF-8 decoding: the stream parser starts from decoded text.
- Blender: `bpy`, drawing, undo, viewport capture, panels and operators.
- JSON syntax: tool arguments are JSON text with an arbitrary decoder; written JSON is an arbitrary function of what is reported. Decoders are assumed to return no frozen values.
- Texts: error messages, letter case and argument listings in descriptions, the descriptions in plan reviews, history entries, metrics, timestamps and logging; error values name the case and its place instead.
- SceneMemory.ScenesTracked: the targets of verifications are texts; targets that are numbers or cannot be keys of a dictionary are not modelled.
- Which texts make pruning or extraction raise: any set of them; the code does so for locations and properties that are not numbers.
- Redaction and the remaining fields of a summary (goals, metrics, living objects, which a prior summary does not hand on): the summary text is an arbitrary function, except for deleted names.
- `run`, `reset_session`, `restore_session_memory`, `clear_history`, `shutdown`: they bypass the event protocol by design.
- `request_plan_review` outside event processing, direct provider stream events handed to `process_event`, and the worker's fallback to a provider without streaming.
- The model's verdict in visual verification and keyword matching; a tool's reply stands for dispatch, verification and recording together, and may be an exception of any of them.
- Plan summaries that cannot be written as JSON: tools report JSON values.
- Timer ticks: events are processed one at a time in queue order; what an exception takes along from the same tick is the subject of `LostBatchIsHarmless`, not a step.
- Identifier collisions: turn ids and approval ids are counters, so two random ids never coincide.
- Sets as step arguments, which JSON cannot hold.
- Names with line breaks in summaries, which are cut into several lines.
- Negative retained-turn counts, which no caller passes.
- The order in which argument errors are listed, which follows dictionary order.
- Floating point: vectors, angles, rounding and the tolerance are real numbers.
- TransformCheck.ExactTransformVerifies: gives the best bound on relative scale factors (`NineteenIsTight`); for a single factor above 19 the outcome depends on its digits and those of the scale.
- RuntimeLicence.EveryRunIsLawful: assumes that generated plan ids carry no surrounding blanks.
- RuntimeProtocol.ConversationInEveryRun: assumes one call per response, as the provider asks for; `BatchLeavesSuffix` and `HeldCallMustBeLast` say what happens otherwise.
