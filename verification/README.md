# MootOS, modelled and proved in Dafny

This project models the parts of MootOS that are hardest to get right and proves what they are for,
for every input, every interleaving and every reachable state:

- **MemoryStore**, **MemoryLifecycle**: the memory table, whose correction chains are doubly linked rows. Every store that any sequence of
  create, chat save, correct, archive, restore, delete and profile import reaches is a disjoint union of finite chains,
  the two-pass history walk returns exactly the chain of the row asked for, and a memory keeps its content, scope and
  predecessor for as long as it exists.
- **Approvals**, **ApprovalOutcomes**: frozen write calls raced for by approve, reject, expire, storage faults and restarts, one atomic
  transaction at a time. Executors run at most once, only for what was reviewed and approved; terminal rows never
  change, and an undisturbed request settles its row as the human decided.
- **ChatTurns**, **TurnContents**, **HistoryWindow**: the per-conversation lock across history load, provider call and commit,
  interleaved with commands that write without it, failures and restarts.
- **ToolBudget**, **ToolConversation**, **ToolReports**: the bounded model/tool loop against an arbitrary provider and
  arbitrary tools, and the truth of everything the model is told.
- **Feasibility**, **FeasibleTyping**, **Mission**, **MissionLimit**, **MissionExample**: the five-step composition mission against
  arbitrary tools and a registry that may change before every step; what its record promises, and exactly which plans
  yield a record that always meets its own constructor.
- **DepthFirst**, **Proposals**, **Dependencies**: the visiting/visited search of both graph checks, against
  acyclicity stated by paths, and slice eligibility derived from receipts.
- **Validation**: the argument validator, and exactly when validating twice changes nothing.
- **MemoryRanking**: query expansion, scoring and the ranking of memories.
- **MemoryContext**, **ModelInput**: rendering and splitting the memory block, and budgeting one provider request.
- **Neighborhood**, **Packaging**: the bounded expansion over components, excerpt planning and package assembly.
- **CheckRunner**: results and receipts derived from observed container outcomes.
- **Rollup**: the grouped per-project figures against the naive count.
- **LoginThrottle**: the timed login throttle.

`PyText`, `Json`, `Printing` and `Tools` hold the shared text primitives (whitespace stripping, ASCII folding,
code-point order), JSON values, their printed sizes and the tool registry. Code that updates state is a class or a method with loops, proved against functions or
predicates; code that only computes is a function with lemmas.

Conventions. A `BEGIN IMMEDIATE` block is one atomic step. Identifiers from uuid4 are parameters required to be unused.
Clocks, the provider, tools, the operation store, storage faults, container observations and registry changes are
arbitrary parameters or steps. SHA-256 is taken as injective: a digest is represented by what it digests. Unicode case
folding, NFC, ISO 8601 parsing and the encoded size of a result are function parameters, with what is assumed of them
stated as a predicate. The interpreter's limit of 4300 digits on integers it writes is part of the model.
Timestamps are integers standing for ordered texts, except where the code measures time (`LoginThrottle`, real numbers).
Some predicates of `Mission` and `Neighborhood` are passed as function values (`Checks`, `Bound`) tied to their
definitions by `ChecksOf` and by the entry method; this keeps proofs small and restricts nothing (`ChecksExist`).

Findings, each with the failing input and its exact condition:

- A `failed` operation may already have run its executor, contrary to the module docstring at
  backend/tool_operations.py:31 (`Approvals.FailedMayHaveExecuted`). Between two restarts the error class and the
  registry in force tell whether it did (`Approvals.FailedExecutedExactly`): never for the two refusals, exactly once
  for a failed execution, and for failed validation or permission exactly when the executor boundary admits the frozen
  call. A storage failure leaves both open (`Approvals.StorageFailureMayPrecedeExecution`).
- The duplicate cap of the tool loop is looked up under the requested spelling and recorded under the validated one, so
  one turn may run the same call five times (`ToolConversation.PaddedTurnRunsFiveTimes`). Two is the maximum against
  every provider if and only if no other spelling validates to the arguments (`ToolConversation.CapHoldsExactly`),
  that is, for arguments a request validates to, if and only if the schema takes no extra key, every declared property
  is given and no value is a text (`ToolConversation.CapHoldsForFixedScalars`).
- Validating twice fails when a length bound admits a datetime text but not its longer normal form
  (`Validation.TightDatetimeFailsTwice`). Accepted arguments are accepted again unchanged if and only if the UTC form
  of every datetime text they provide keeps its property's own bounds (`Validation.ValidatingTwiceExactly`).
- A count in a tool result is stored before it is checked, so a read refused for a long text in its place leaves a
  failed record whose summary exceeds 128 KiB: the constructor raises and the mission returns no record
  (`MissionExample.UndeclaredExampleRefused`). Pending and blocked records always fit
  (`MissionLimit.UnfailedAccepted`). A plan that can succeed yields an accepted record against every registry, tool and
  store if and only if its summary, list and search steps declare their counts with a type of bounded print
  (`MissionLimit.AcceptedExactlyWhenDeclared`).
- Messages are dated before the commit transaction begins, so the twenty newest messages by time may start with an
  assistant message (`ChatTurns.WindowByTimeMayStartWithAssistant`). The window is the last messages in insertion
  order if and only if their times strictly increase and exceed all earlier ones
  (`HistoryWindow.LastExactlyWhenSettled`). It always starts with a user message if and only if every message with
  fewer than the window's number of newer ones, and at least that many no older, comes from the user
  (`ChatTurns.StartsWithUserExactly`).
- Splitting the instructions recovers the memory entries if and only if they use only newline breaks, have no
  continuation line that looks like an entry, and the last one does not end in a newline
  (`MemoryContext.SplitUndoesRender`).
- Required excerpts beyond `max_excerpts` are dropped although the package is not marked incomplete
  (`Packaging.DropUnmarked`, `Packaging.DropSurplus`). A package that is not incomplete shows every required path if
  and only if there are no more of them than excerpts (`Packaging.PackageContext`).
- Overlapping login requests are paced less: with at most `k` between check and record, `5 + k` successive wrong
  passwords without a success span a minute (`LoginThrottle.OverlapIsPaced`), and `4 + k` may all be judged at one
  instant (`LoginThrottle.OverlapBoundIsTight`). Sequential requests are the case `k = 1`.

## Model

| member | source | states |
|---|---|---|
| MemoryStore.TableIsDisjointChains | backend/memory.py:287-371 | in a well-formed table every row lies on exactly one finite duplicate-free chain; only its last row is not superseded; project and kind are constant and neighbouring contents differ along it |
| MemoryStore.LinksAreMutual | backend/memory.py:313-366 | `replaces_memory_id` and `superseded_by_id` are mutual inverses and never dangle |
| MemoryStore.ChainUnique | backend/memory.py:455-482 | two chains sharing a row are the same chain |
| MemoryStore.ChainDistinct | backend/memory.py:455-482 | no row occurs twice on a chain: the links contain no cycle |
| MemoryStore.CorrectExtendsChain | backend/memory.py:287-371 | an accepted correction appends its new row to the corrected row's chain |
| MemoryStore.CorrectKeepsWellFormed | backend/memory.py:287-371 | corrections keep the chain invariant |
| MemoryStore.DeleteKeepsWellFormed | backend/memory.py:485-508 | the guarded delete keeps the chain invariant |
| MemoryStore.RestatusKeepsWellFormed | backend/memory.py:381-452 | archive and restore keep the chain invariant |
| MemoryStore.InsertKeepsWellFormed | backend/memory.py:129-181 | a new standalone row keeps the chain invariant |
| MemoryStore.ApplyKeepsWellFormed | backend/memory.py:129-508 | every lifecycle command, accepted or refused, keeps the chain invariant |
| MemoryStore.InsertAllKeepsWellFormed | backend/bootstrap_profile.py:220-290 | importing any number of entries keeps the chain invariant |
| MemoryStore.ImportIsIdempotent | backend/bootstrap_profile.py:156-290 | importing an accepted profile a second time is accepted and changes nothing |
| MemoryStore.ReachableIsWellFormed | backend/memory.py:129-508 | the chain invariant holds after every sequence of commands, whatever the projects are at each step |
| MemoryStore.HistoryIsShared | backend/memory.py:455-482 | all members of a chain get the same history, that chain oldest first |
| MemoryStore.Classify | backend/bootstrap_profile.py:156-203 | sorts every manifest entry into exactly one of ready, already active and blocked, in order; with nothing blocked the ready list is what an import inserts |
| MemoryStore.Store.CreateMemory | backend/memory.py:129-181 | inserts one active row under the canonical project, or refuses an unknown one; keeps the invariant |
| MemoryStore.Store.CorrectMemory | backend/memory.py:287-371 | the guarded correction: exactly the two linked rows change, each refusal leaves the table alone |
| MemoryStore.Store.ArchiveMemory | backend/memory.py:381-415 | stores and returns an active row as archived, otherwise unchanged, or reports why not |
| MemoryStore.Store.RestoreMemory | backend/memory.py:418-452 | stores and returns an archived row as active, otherwise unchanged, or reports why not |
| MemoryStore.Store.DeleteMemory | backend/memory.py:485-508 | deletes only a standalone active row; reports a missing one |
| MemoryStore.Store.ImportProfile | backend/bootstrap_profile.py:220-290 | inserts exactly the ready entries, or nothing when any entry is blocked |
| MemoryStore.Store.WalkForward | backend/memory.py:471-482 | the forward pass terminates on any table and collects a whole chain from its first row |
| MemoryStore.Store.GetMemoryHistory | backend/memory.py:455-482 | terminates on any table; on a well-formed one never raises and returns exactly the row's chain, oldest first |
| MemoryLifecycle.ArchiveEffect | backend/memory.py:381-415 | archiving takes exactly an active row, makes it archived and keeps everything else about it and every other row |
| MemoryLifecycle.RestoreEffect | backend/memory.py:418-452 | restoring takes exactly an archived row, makes it active and keeps everything else about it and every other row |
| MemoryLifecycle.RestoreUndoesArchive | backend/memory.py:381-452 | archive then restore gives the table back, but for the row's time of update |
| MemoryLifecycle.ArchivedIsRefused | backend/memory.py:287-508 | an archived row is refused by archive, correct and delete |
| MemoryLifecycle.CorrectEffect | backend/memory.py:287-371 | a correction is taken exactly when its stripped text is not empty and differs from an active row's; the stripped text is stored, the old row superseded, every other row kept |
| MemoryLifecycle.CreateEffect | backend/memory.py:129-181 | a created memory holds its content under the stored spelling of its project, or an unknown project changes nothing |
| MemoryLifecycle.SaveChatEffect | backend/chat_memory.py:390-429 | a memory saved from chat holds its content and project as an explicit chat memory |
| MemoryLifecycle.DeleteEffect | backend/memory.py:485-508 | only an active row that neither replaces nor is replaced disappears |
| MemoryLifecycle.ImportEffect | backend/bootstrap_profile.py:220-290 | an import keeps every row; each new row is the active row of an entry that had none, and each such entry gets one |
| MemoryLifecycle.StepPersists | backend/memory.py:129-508 | only its own deletion removes a row, only its own restore wakes an archived one, and no command changes its content, scope or predecessor |
| MemoryLifecycle.RowsPersist | backend/memory.py:129-508 | over every run a memory keeps content, scope and predecessor until it is deleted, and one that is superseded or replaced another is never deleted |
| MemoryLifecycle.ArchivedStays | backend/memory.py:381-452 | over every run an archived memory stays exactly as it is until it is restored |
| Approvals.OperationStore.CreatePendingOperation | backend/tool_operations.py:129-172 | adds one pending row holding the frozen call |
| Approvals.OperationStore.ExpireStale | backend/tool_operations.py:213-239 | expires exactly a pending row whose time has passed |
| Approvals.OperationStore.ClaimPending | backend/tool_operations.py:242-264 | moves exactly a pending row to executing, otherwise names the error |
| Approvals.OperationStore.RejectPending | backend/tool_operations.py:376-401 | moves exactly a pending row to rejected, otherwise names the error |
| Approvals.OperationStore.FinalizeOperation | backend/tool_operations.py:267-298 | writes the verdict exactly when the row is executing |
| Approvals.OperationStore.StartToolRun | backend/runs.py:140-200 | adds one started Run |
| Approvals.OperationStore.FinishToolRun | backend/runs.py:203-239 | finishes a started Run once |
| Approvals.ProgressKeepsInv | backend/tool_operations.py:301-373 | every transaction of an approving or rejecting request keeps the invariant that ties operations, Runs, requests and executor calls together |
| Approvals.InvokeKeepsInv | backend/tool_executor.py:92-153 | the second validation, risk check and executor call keep the invariant |
| Approvals.RefuseKeepsInv | backend/tool_executor.py:46-89 | recording a refused attempt keeps the invariant |
| Approvals.NextKeepsInv | backend/tool_operations.py:129-401 | every event, including storage faults and restart with a new registry, keeps the invariant |
| Approvals.ReachableInv | backend/tool_operations.py:129-401 | the invariant holds after every interleaving of events |
| Approvals.AtMostOnce | backend/tool_operations.py:301-401 | in every interleaving an executor is entered at most once; never for a pending, rejected, expired or refused operation; exactly once for one that failed in execution and for a succeeded one, which points to a succeeded Run of the same tool and version |
| Approvals.OnlyWhatWasReviewed | backend/tool_operations.py:318-357 | every executor call ran the frozen tool at the frozen version on the revalidated frozen arguments |
| Approvals.ReviewedArgumentsRun | backend/tool_executor.py:92-153 | a `tasks.create` call frozen after validation executes on the very arguments shown, despite the second validation |
| Approvals.FinalizeAlwaysLands | backend/tool_operations.py:267-298 | the claimer's final update always finds its executing row |
| Approvals.TerminalIsFinal | backend/tool_operations.py:213-401 | over every run no row disappears, frozen parts never change and terminal rows never change at all |
| Approvals.InvokeEntersExactly | backend/tool_executor.py:92-153 | at the executor boundary the call is made exactly when the frozen arguments validate and the tool is not high risk |
| Approvals.NextExplained | backend/tool_operations.py:301-373 | every event except a restart keeps the invariant that ties error classes, executor calls and the registry in force |
| Approvals.FailedExecutedExactly | backend/tool_operations.py:340-373 | for every operation decided between two restarts, the error class and the registry tell whether its executor ran |
| Approvals.FailedMayHaveExecuted | backend/tool_operations.py:31-32 | a reachable operation failed for storage whose executor did run, contrary to the docstring |
| Approvals.StorageFailureMayPrecedeExecution | backend/tool_operations.py:340-373 | the same class, for the same admitted call, without an execution |
| ApprovalOutcomes.NothingWithoutApproval | backend/tool_operations.py:301-401 | on every run an operation nobody approved was never executed and is pending, rejected or expired; a rejected one was rejected by someone; an expired one was found after its time |
| ApprovalOutcomes.RejectionSettles | backend/tool_operations.py:376-401 | an undisturbed rejection leaves an unknown or decided operation alone, expires a late one and rejects any other, and executes nothing |
| ApprovalOutcomes.VainApproval | backend/tool_operations.py:242-264 | approving an operation that is not pending changes nothing, approving a late one expires it, and neither executes anything |
| ApprovalOutcomes.ApprovalSettles | backend/tool_operations.py:301-373 | an undisturbed approval fails without executing for a missing tool, another version, invalid arguments or high risk; otherwise the executor runs once and its return or error decides the row, its Run and its reference |
| ApprovalOutcomes.ApprovalCanSucceed | backend/tool_operations.py:301-373 | from every reachable state an admitted operation approved in time is reached as succeeded with the executor's reference, after exactly one call |
| ApprovalOutcomes.RejectionCanLand | backend/tool_operations.py:376-401 | from every reachable state a pending operation that is not late can be rejected, and nothing is executed |
| ApprovalOutcomes.FaultInsideSettles | backend/tool_executor.py:92-153 | a storage fault around the executor fails the operation as a storage failure |
| ApprovalOutcomes.FaultOutsideLeaves | backend/tool_operations.py:242-401 | a storage fault anywhere else ends the request and leaves every row |
| HistoryWindow.LastExactlyWhenSettled | backend/chat_pipeline.py:67-86 | whatever the query does with equal times, it answers with the last rows in insertion order if and only if their times strictly increase and exceed all earlier ones |
| HistoryWindow.NewestExists | backend/chat_pipeline.py:67-86 | the newest-rows query always has an answer |
| HistoryWindow.LeadsExactly | backend/chat_pipeline.py:67-86 | a row may come first in an answer if and only if fewer rows than the window holds are newer and enough to fill it are no older |
| ChatTurns.Database.PrepareChatTurn | backend/chat_pipeline.py:89-160 | resolves the conversation and loads its history, or names the refusal; writes nothing |
| ChatTurns.Database.CommitChatTurn | backend/chat_pipeline.py:208-274 | stores the question as the user's message and the answer as the assistant's, in that order and at their times, with a new conversation's row, or changes nothing |
| ChatTurns.LoadKeepsInv | backend/chat_pipeline.py:89-160 | loading under the lock keeps the invariant |
| ChatTurns.CommitKeepsInv | backend/chat_pipeline.py:208-274 | a provider commit disturbs no other turn between load and commit |
| ChatTurns.CommandKeepsInv | backend/chat_memory.py:390-429 | commands that write without the lock keep the invariant |
| ChatTurns.LockStepKeepsInv | backend/chat_pipeline.py:33-53 | acquiring, failing and leaving keep every lock with exactly its active holder |
| ChatTurns.NextKeepsInv | backend/chat_pipeline.py:33-274 | every step, including restart, keeps the invariant |
| ChatTurns.ReachableInv | backend/chat_pipeline.py:33-274 | the invariant holds after every interleaving |
| ChatTurns.HistoryStaysCurrent | backend/chat_pipeline.py:33-53 | between a turn's history load and its commit no other provider turn writes to its conversation, and the commit finds the conversation it expects |
| ChatTurns.TurnsExclude | backend/chat_pipeline.py:33-53 | two turns on one conversation are never both between load and commit |
| ChatTurns.FailedTurnsLeaveNothing | backend/chat_pipeline.py:208-267 | an unsaved turn has written nothing, a saved one exactly one pair, and a finished one holds no lock |
| ChatTurns.WindowStartsWithUser | backend/chat_pipeline.py:67-86 | in insertion order every conversation alternates user and assistant, and every even window starts with a user message |
| ChatTurns.OrderedHistory | backend/chat_pipeline.py:67-86 | on every reachable conversation the loaded history is its last messages in insertion order if and only if the window is settled, and then it alternates from a user message |
| ChatTurns.StartsWithUserExactly | backend/chat_pipeline.py:67-86 | every history that may be loaded is empty or starts with a user message if and only if every row that may come first is a user message |
| ChatTurns.WindowByTimeMayStartWithAssistant | backend/chat_pipeline.py:163-232 | a reachable conversation whose twenty newest messages by time start with an assistant message |
| TurnContents.SavedTurnIsOnRecord | backend/chat_pipeline.py:163-274 | on every reachable system a saved turn has stored exactly one exchange: the question it arrived with, said by the user, and the answer built for it, said by the assistant, next to each other in its conversation |
| TurnContents.TurnsStayInTheirProject | backend/chat_pipeline.py:89-160 | a turn that has loaded works in the conversation it named, whose project agrees with the one it named, or in a new one under the stored spelling of its project, after a history read from that conversation |
| TurnContents.CommandStores | backend/chat_memory.py:390-429 | a command stores its own exchange in the conversation it names, or in a new one under its project |
| ToolBudget.ToolCallBudget.Remaining | backend/tool_budget.py:62-64 | requests left, never negative |
| ToolBudget.ToolCallBudget.AllowNext | backend/tool_budget.py:66-72 | allows by the number and the trailing failures of the recorded requests |
| ToolBudget.ToolCallBudget.AllowCall | backend/tool_budget.py:74-79 | also by how often this signature was recorded |
| ToolBudget.ToolCallBudget.Record | backend/tool_budget.py:81-96 | the counters always summarise the log of recorded requests |
| ToolConversation.Decide | backend/tool_conversation.py:182-271 | skip, unknown tool, invalid arguments, high risk, freeze or execute, as budget, registry and validation dictate |
| ToolConversation.ProcessRequest | backend/tool_conversation.py:180-303 | executes exactly the allowed valid reads, records every request under the signature the source uses, freezes a write and stops |
| ToolConversation.ProcessRound | backend/tool_conversation.py:178-303 | follows the specified round, request by request, and stops where it stops |
| ToolConversation.RoundPromises | backend/tool_conversation.py:178-303 | in every round only reads run within the bounds, with one result per request in order with its call id unless the turn stops |
| ToolConversation.TurnPromises | backend/tool_conversation.py:145-309 | what every turn keeps against every provider, from any point of it |
| ToolConversation.RunToolConversation | backend/tool_conversation.py:145-309 | at most 5 rounds and 5 executions, reads only, at most one frozen operation and then the end, one result per request on every completed round, no pair run more than twice for requests in validated form |
| ToolConversation.ExecutionKeepsAccounts | backend/tool_conversation.py:272-303 | an allowed execution stays within every bound and, once recorded, within the books |
| ToolConversation.PaddedTurnRunsFiveTimes | backend/tool_conversation.py:182-293 | for every respelling of every read's arguments, a turn that runs the same call five times |
| ToolConversation.CapHoldsExactly | backend/tool_conversation.py:182-293 | the cap of two holds against every provider, tool behaviour and store if and only if nothing else validates to the arguments |
| ToolConversation.CapHoldsForFixedScalars | backend/tool_conversation.py:182-293 | for arguments a request validates to, the cap of two holds if and only if the schema is closed, every declared property is given and no value is a text |
| ToolConversation.PaddedTextValidates | backend/tool_validation.py:64-87 | a concrete other spelling: a leading blank |
| ToolReports.RequestReported | backend/tool_conversation.py:180-303 | a result reports success exactly with the data its execution returned on the validated arguments; any other result has no data and names the reason, which is the case |
| ToolReports.ResultsAreTruthful | backend/tool_conversation.py:145-309 | this holds of every result of every turn, against every provider, and the results so far determine what was recorded and how many calls ran |
| ToolReports.LimitsHold | backend/tool_budget.py:62-96 | after two failures in a row, and from the sixth request on, every request is skipped |
| ToolReports.TurnStopsFor | backend/tool_conversation.py:245-303 | a turn ends with a frozen operation or an error only because the provider failed or one of the requests it had just made froze exactly its own validated call or met a storage failure |
| ToolReports.AnswersAreTheProvidersOwn | backend/tool_conversation.py:103-127 | an answer is the provider's final text, its closing words, or the fixed notice when it has none |
| Feasibility.BindFeasibility | backend/composition_feasibility.py:237-269 | binds every step to its registered tool's facts exactly when the mission is the reviewed five-step order and every step fits |
| Feasibility.MatchedRegistryFacts | backend/composition_feasibility.py:177-269 | a matching registry fixes tool, version, schema and the risk each position requires |
| Feasibility.BaselineIsDistinct | backend/composition_feasibility.py:29-35 | the five reviewed tool names are distinct; the binding and the mission are proved for any five distinct names |
| Feasibility.CheckRegistry | backend/composition_runtime.py:208-213 | revalidation succeeds exactly when binding again gives this very plan |
| FeasibleTyping.FeasibleStepIsReviewed | backend/composition_feasibility.py:177-269 | a feasible step runs the tool of its position at its reviewed risk, with the capability it names and registered dependencies |
| FeasibleTyping.ResultsCarryNoAuthority | backend/composition_feasibility.py:155-235 | no argument bound from a result names a tool, capability, risk, schema, executor, budget or approval |
| FeasibleTyping.FeasibleArgumentsAreTyped | backend/composition_feasibility.py:155-235 | in a feasible step every materialised argument has the kind its property declares |
| FeasibleTyping.FeasibleFailsOnlyOnBounds | backend/composition_feasibility.py:155-235 | validation refuses a feasible step's arguments only for their bounds, never as unknown, missing or of the wrong kind |
| FeasibleTyping.MissionArgumentsAreTyped | backend/composition_runtime.py:479-513 | so it is before every step of a mission whose registry still matches |
| Mission.ChooseProject | backend/composition_runtime.py:133-151 | picks a project exactly when every entry is usable: most open tasks, ties by folded then raw name |
| Mission.SelectionUnique | backend/composition_runtime.py:133-151 | the selection rule determines one name |
| Mission.SelectionIsMost | backend/composition_runtime.py:133-151 | every entry has fewer open tasks than the selected one, or as many and a name that is not earlier in dictionary order |
| Mission.TransformsMean | backend/composition_runtime.py:154-172 | a transformed value is the copy, the selected project, a text that reads as the number, or the title naming project and number |
| Mission.MaterializeArguments | backend/composition_runtime.py:175-194 | builds arguments exactly when every binding can deliver, each with the value its binding means |
| Mission.MaterializedUnique | backend/composition_runtime.py:154-194 | the arguments are determined by the results so far |
| Mission.JudgeResult | backend/composition_runtime.py:647-699 | accepts a result exactly when it is admissible, with its declared outputs within the size limit, and fits what was known; a refused one leaves exactly the count it took over |
| Mission.FailedRunConsistent | backend/composition_runtime.py:411-451 | a record that stops early, padded with unattempted steps, passes every check its constructor makes before printing the summary |
| Mission.PendingRunConsistent | backend/composition_runtime.py:300-367 | the pending record passes every check its constructor makes before printing the summary |
| Mission.PrepareStep | backend/composition_runtime.py:479-513 | yields arguments under a matching registry, and otherwise proves that the registry differs or no arguments exist |
| Mission.BudgetNeverDenies | backend/composition_runtime.py:514-538 | the budget-denied branch is unreachable |
| Mission.PerformRead | backend/composition_runtime.py:607-735 | one read, recorded and cross-checked, ends or continues the mission as specified and keeps the budget's log in step |
| Mission.ReadKeeps | backend/composition_runtime.py:607-735 | whatever a read returns or raises, it ends the mission with a consistent record that has grounds in the world, or adds one accepted result borne out by what was observed |
| Mission.FreezeWrite | backend/composition_runtime.py:540-605 | the last step freezes the write or records the failure as specified |
| Mission.FreezeKeeps | backend/composition_runtime.py:540-605 | the write is frozen once with its validated arguments, never executed, and the record is consistent either way |
| Mission.RunIsVouched | backend/composition_runtime.py:454-737 | for all tools and registry changes the record is consistent, only registered reads run in order on their bound arguments, every step shows its call, result and status, at most one write is frozen and only after four accepted reads, and falling short has grounds in the world that the failure class names |
| Mission.CallsAreBound | backend/composition_runtime.py:607-735 | whatever becomes of a mission, each call ran on the arguments bound from the results before it and validated under the registry it met, and its step record holds them |
| Mission.RunCompositionMission | backend/composition_runtime.py:454-737 | the loop returns the specified run's record exactly when its constructor, summary limit included, accepts it, and raises otherwise |
| Mission.EvidenceAgrees | backend/composition_runtime.py:647-699 | four accepted results agree: selected project, summary count, list count and listed open tasks |
| Mission.EvidenceAdmissible | backend/composition_runtime.py:110-126 | every accepted result had its declared outputs and kept within the size limit |
| Mission.PendingMeansAgreement | backend/composition_runtime.py:454-737 | a pending record selected the project with most open tasks, all counts agree on it, every result was admissible, and reads and frozen write ran on arguments bound from the results |
| Printing.StrippedPrintsWithin | backend/composition_runtime.py:72-80 | bounded text without surrounding whitespace prints in at most twice its limit and the quotes |
| Printing.IntTextReads | backend/composition_runtime.py:160-166 | a number turned into text reads back as that number |
| MissionLimit.BoundedCountsPrint | backend/composition_runtime.py:368-409 | a record whose three counts print in a bounded number of bytes keeps the summary limit |
| MissionLimit.UnfailedAccepted | backend/composition_runtime.py:300-369 | the constructor accepts every pending and every blocked record, and a failed one whose counts print within bounds |
| MissionLimit.TextCountTakenOver | backend/composition_runtime.py:658-699 | a text in place of a count is refused, and is taken over into the record all the same |
| MissionLimit.DeclaredCountsSuffice | backend/composition_runtime.py:110-126 | a plan that declares its three counts with types of bounded print yields an accepted record whatever registry, tools and store do |
| MissionLimit.UndeclaredCountRefused | backend/composition_runtime.py:647-735 | if a plan that can succeed leaves one of the three counts undeclared, one tool answer makes the mission fail with a record its constructor refuses |
| MissionLimit.AcceptedExactlyWhenDeclared | backend/composition_runtime.py:300-369 | a plan that can succeed yields an accepted record against every registry, tool and store if and only if it declares its three counts with types of bounded print |
| MissionExample.ExampleSucceeds | backend/composition_runtime.py:454-737 | on the registered schemas, a concrete feasible plan ends pending when its tools answer as they should |
| MissionExample.DeclaredExampleAccepted | backend/composition_runtime.py:300-369 | with every count declared, as in the reviewed plan, its record is always accepted |
| MissionExample.UndeclaredExampleRefused | backend/composition_runtime.py:685-735 | without the search step's count declared, a failed run of it has a record its constructor refuses |
| DepthFirst.Search.Visit | backend/composition_proposal.py:252-264 | terminates; acceptance finishes the node after its dependencies, refusal exhibits a cycle |
| DepthFirst.RankedIsAcyclic | backend/composition_proposal.py:237-264 | a topological ranking excludes every cycle |
| DepthFirst.CheckAcyclic | backend/composition_proposal.py:249-264 | accepts a closed graph exactly when it has no cycle, and then ranks it, in whatever order nodes are listed |
| Proposals.ValidateGraph | backend/composition_proposal.py:237-264 | accepts exactly the well-referenced acyclic missions and names the right error otherwise |
| Proposals.AcceptProposal | backend/composition_proposal.py:285-337 | accepts exactly the sound missions, with one ranking of prerequisites and result sources together, and names the first condition that fails otherwise |
| Proposals.AcceptedMissionIsAcyclic | backend/composition_proposal.py:316-326 | prerequisites and result sources together are ranked, so data never flows around a loop |
| Proposals.GraphCheckIgnoresSources | backend/composition_proposal.py:237-264 | the graph check alone lets two steps read each other's results; the later source check is needed |
| Dependencies.CheckGraph | backend/continuous_builder/dependency_analysis.py:73-99 | returns the identifier map exactly when no dependency is missing and hard and soft edges together are acyclic |
| Dependencies.EvaluateSlice | backend/continuous_builder/dependency_analysis.py:120-156 | a slice is eligible exactly when every hard dependency has a passed authoritative receipt of its version |
| Dependencies.Derive | backend/continuous_builder/dependency_analysis.py:102-156 | results exist exactly when graph, candidates, sources and receipts check out, one per slice in order; otherwise the first failing check is named |
| Dependencies.EligibleMeansDischarged | backend/continuous_builder/dependency_analysis.py:120-150 | every hard dependency is accounted for once, by its receipt or by a reason |
| Dependencies.VerdictsAreRight | backend/continuous_builder/dependency_analysis.py:126-139 | every reason is true of a hard dependency, every undischarged one has its reason, and the bound receipts are exactly those that discharge one |
| Dependencies.MoreReceiptsNeverBlock | backend/continuous_builder/dependency_analysis.py:120-150 | a further receipt never makes an eligible slice ineligible |
| Validation.ValidateArguments | backend/tool_validation.py:29-61 | the validating loop, against its property-by-property specification |
| Validation.CheckedMeaning | backend/tool_validation.py:29-61 | arguments are accepted exactly when every property is satisfied, and the result is then determined |
| Validation.AcceptsExactly | backend/tool_validation.py:64-108 | a value is accepted exactly when it has the declared kind and its stripped form meets lengths, choices, limits and, for a datetime, can be normalised |
| Validation.RejectionIsRight | backend/tool_validation.py:64-108 | a refusal names a requirement the value fails |
| Validation.ValueRevalidates | backend/tool_validation.py:64-108 | an accepted value other than a datetime meets its bounds and validates to itself |
| Validation.DatetimeRevalidates | backend/tool_validation.py:76-87 | an accepted datetime validates to itself exactly when it is stable |
| Validation.ValidatingTwice | backend/tool_validation.py:29-108 | keys lie between required and declared; validation is a projection if and only if the datetimes are stable |
| Validation.ValidatingTwiceExactly | backend/tool_validation.py:29-108 | accepted arguments are accepted again unchanged if and only if the UTC form of every datetime text they provide keeps its property's length bounds and choices |
| Validation.OneSpellingExactly | backend/tool_validation.py:29-108 | accepted arguments have one spelling if and only if the schema takes no extra key, they give every declared property and none of their values is a text |
| Validation.PlainSchemaIsProjection | backend/tool_validation.py:29-108 | without datetimes validation is a projection and every value meets its bounds |
| Validation.TasksCreateIsProjection | backend/tools_reference.py:195-205 | for `tasks.create` validation is a projection |
| Validation.TightDatetimeFailsTwice | backend/tool_validation.py:76-87 | whenever a bound admits a datetime text but not its normal form, the second validation fails |
| MemoryRanking.TokenizeKeywords | backend/memory_retrieval.py:83-94 | at most forty different keywords in the order of their first occurrences, all of them if fewer |
| MemoryRanking.ExpandQueryConcepts | backend/memory_retrieval.py:97-109 | the literal tokens first, then different aliases of them, all unless the cap is met |
| MemoryRanking.MatchesExactly | backend/memory_retrieval.py:133-176 | a memory matches exactly when it shares a token with the expanded query, and then its score is positive |
| MemoryRanking.SortedUnique | backend/memory_retrieval.py:183-205 | the ranking key leaves one sorted order |
| MemoryRanking.RankMemories | backend/memory_retrieval.py:234-267 | the limited front of a list that holds every match by rank, then every allowed other memory by rank, each once |
| MemoryRanking.RankingIgnoresOrder | backend/memory_retrieval.py:234-267 | the ranking depends only on which memories there are, not on the order they are listed in |
| MemoryRanking.MatchesInOrder | backend/memory_retrieval.py:183-205 | matches of the own project come first, then those of no project; within a group the higher score, the later time, the larger identifier |
| MemoryRanking.FallbackInOrder | backend/memory_retrieval.py:208-231 | appended memories stay in scope, own project first, then the later time and the larger identifier |
| MemoryRanking.OneWordScore | backend/memory_retrieval.py:133-176 | what one literal word and one alias are worth in content, project and kind |
| MemoryRanking.MoreWordsScoreMore | backend/memory_retrieval.py:133-176 | a memory with all the words of another, and its phrase, scores at least as high |
| MemoryContext.SplitMemoryContext | backend/model_input.py:68-98 | the splitting loop, against its specification |
| MemoryContext.BlocksUnique | backend/model_input.py:84-93 | a text is a join of entries in at most one way |
| MemoryContext.EntriesRoundTrip | backend/model_input.py:84-93 | reading joined entries gives them back exactly when they are recoverable |
| MemoryContext.CutUndoesFrame | backend/model_input.py:75-82 | the cut is clean even when contents contain the header or footer text |
| MemoryContext.SplitUndoesRender | backend/main.py:227-246 | splitting rendered instructions gives back the fixed text and the entries in rank order if and only if they are recoverable |
| MemoryContext.EntryShows | backend/main.py:233-239 | an entry names project and kind, with defaults for blank ones, and ends with the content |
| MemoryContext.CutIsWhole | backend/model_input.py:75-82 | the pieces of a cut are the whole text |
| MemoryContext.TrailingTextIsKept | backend/model_input.py:94-98 | text after the footer is kept behind the text before the header |
| MemoryContext.PlainBaseIsClean | backend/main.py:128-137 | base instructions no line of which begins with the header's first letter meet the conditions of that round trip |
| ModelInput.SelectRecentHistory | backend/model_input.py:101-118 | keeps the longest suffix of the history within its budget |
| ModelInput.SelectRankedMemories | backend/model_input.py:121-138 | keeps the longest prefix of the memories whose joined text is within its budget |
| ModelInput.NothingIsSmallest | backend/model_input.py:141-165 | no request is smaller than fixed text and current message alone |
| ModelInput.Trim | backend/model_input.py:226-250 | drops oldest history first, then lowest memories; fails exactly when nothing fits |
| ModelInput.PrepareModelInput | backend/model_input.py:168-279 | a suffix of history, the whole current message and a prefix of memories, longest in that order; raises exactly when fixed text and current message do not fit |
| ModelInput.PreparedWithinBudgets | backend/model_input.py:168-279 | every prepared request is within total, history and memory budgets |
| ModelInput.CostsAreCharacters | backend/model_input.py:58-66 | the cost of messages is the number of characters of their roles and contents |
| ModelInput.InstructionsBegin | backend/model_input.py:141-165 | the instructions begin with the fixed text and hold the capability manifest |
| ModelInput.InstructionsHoldMemories | backend/model_input.py:141-165 | kept memories are in the instructions word for word within their frame |
| ModelInput.InstructionsEnd | backend/conversation_guidance.py:21-44 | the instructions end with the rules and the hint that fits the number of messages |
| ModelInput.SentMessagesAreSuffix | backend/model_input.py:168-279 | the messages sent are a suffix of those given and end with the last of them |
| ModelInput.MemoriesReachTheModel | backend/model_input.py:168-279 | from rendering to request: the kept memories, highest rank first, arrive framed and word for word after the base instructions |
| ModelInput.RenderedRequest | backend/main.py:227-246 | recoverable memories reach the budgeter entry by entry |
| ModelInput.ActualTextsFit | backend/conversation_guidance.py:21-44 | the actual hints and footer have the properties the budgeter relies on |
| Neighborhood.ExpandComponentNeighborhood | backend/continuous_builder/context_engine.py:1453-1484 | selects only components within the allowed hops of a seed, all of them unless truncated; seeds required, the rest supporting; a truncated selection is the seeds, or fewer components than the bound and the neighbours of one of them |
| Neighborhood.ClosedLevelStays | backend/continuous_builder/context_engine.py:1480-1482 | once nothing new is reached, more hops reach nothing new |
| Neighborhood.TruncatedExactly | backend/continuous_builder/context_engine.py:1461-1484 | truncation is reported exactly when at least the bound's number of components lie within reach |
| Packaging.PlanContextSelection | backend/continuous_builder/context_engine.py:1487-1777 | required paths are distinct, never secret or forbidden, include every owned seed and every other allowed path in the inventory, are nothing but these and the code of required components, and number at most the larger of declared paths and allowed excerpts |
| Packaging.Package.Admit | backend/continuous_builder/context_engine.py:2917-2922 | admits a piece exactly when it fits; the byte count is what was admitted |
| Packaging.Package.AddExcerpt | backend/continuous_builder/context_engine.py:2761-2851 | a showable required path with room gets an available excerpt or leaves the package critical |
| Packaging.Package.AddOptional | backend/continuous_builder/context_engine.py:2871-2981 | admits the whole list, or notes the omission because it does not fit |
| Packaging.Package.Judge | backend/continuous_builder/context_engine.py:3005-3030 | the exact verdict for every package; `conflicting` is unreachable |
| Packaging.AssembleContextPackage | backend/continuous_builder/context_engine.py:2631-3096 | bytes used equal the admitted sizes within the budget; no excerpt is of a secret or forbidden path; a package not incomplete holds envelope, editable paths and the first required excerpts; with ample room it is never incomplete |
| Packaging.PackageContext | backend/continuous_builder/context_engine.py:2631-3096 | a package not incomplete shows every required path if and only if there are no more of them than excerpts allowed |
| Packaging.DropSurplus | backend/continuous_builder/context_engine.py:2853-2856 | for every scope with more owned seeds than excerpts and bytes enough, and every neighbourhood and impact, the package is not incomplete although a required path is missing |
| Packaging.DropUnmarked | backend/continuous_builder/context_engine.py:2853-2856 | the same planned and assembled on one concrete scope: two seeds of one component, room for one component and one excerpt |
| CheckRunner.Collect | backend/continuous_builder/check_runtime.py:190-252 | captures at most one byte past a limit; clean exactly when the run was quiet |
| CheckRunner.Settle | backend/continuous_builder/check_runtime.py:301-317 | clean-up names every doubt, whatever happened before |
| CheckRunner.ExecuteOne | backend/continuous_builder/check_runtime.py:255-317 | every observation yields a consistent result; no code exactly when nothing went wrong; the first obstacle to a contained run is named |
| CheckRunner.RunChecks | backend/continuous_builder/check_runtime.py:320-333 | results are a plan-order prefix in which only the last may fail, each accepted by its constructor |
| CheckRunner.RunTrustedChecks | backend/continuous_builder/check_runner.py:455-512 | the receipt meets its constructor and passes exactly when every check was sound, the tree unchanged and the workspace removed |
| CheckRunner.StatusMeans | backend/continuous_builder/check_runner.py:455-512 | a pass has no code, any doubt makes it uncertain, a timeout or failure is reported as such only without doubt |
| Rollup.TallySplits | backend/project_insight.py:178-276 | figures of disjoint selections add up |
| Rollup.LastIsMaximum | backend/project_insight.py:122-129 | the activity time is the true maximum over the selected rows |
| Rollup.GroupsSum | backend/project_insight.py:189-240 | adding up groups equals adding up rows, for every selection |
| Rollup.MergeGroups | backend/project_insight.py:181-240 | merging keeps, under every folded key, the figures of its rows |
| Rollup.SumUnassigned | backend/project_insight.py:260-276 | rows of no known project are added up, never dropped |
| Rollup.TallyIsDirectCount | backend/project_insight.py:189-240 | the figures of any selection are the numbers of its active memories, open tasks, tasks and conversations, and the newest time any of them was touched |
| Rollup.SummarizeProjects | backend/project_insight.py:148-276 | each entry, and `unassigned`, is the direct count over the records that match under ASCII folding; refuses exactly an unknown project; truncation is flagged |
| Rollup.SummaryConserves | backend/project_insight.py:242-276 | in a complete unscoped summary entries and `unassigned` add up to the whole tables |
| PyText.FoldIdentifies | backend/project_insight.py:181-240 | the folding behind NOCASE identifies exactly the texts that differ in ASCII case alone |
| PyText.TextLessMeans | backend/composition_runtime.py:149-151 | text comparison is the dictionary order by code point |
| LoginThrottle.Throttle.LoginRetryAfter | backend/auth.py:93-104 | seconds left, and an ended block forgotten |
| LoginThrottle.Throttle.RecordFailedLogin | backend/auth.py:107-126 | counts a failure; the fifth starts a block |
| LoginThrottle.Throttle.Reset | backend/auth.py:129-135 | clears failures and block |
| LoginThrottle.Throttle.Login | backend/main.py:308-338 | one login request, from throttle check to recorded outcome; it gets in exactly with the right password while no block lasts |
| LoginThrottle.SixFailuresTakeAMinute | backend/auth.py:93-126 | on every run of sequential logins from the start, any six successive wrong passwords judged without a success between them span at least 60 seconds |
| LoginThrottle.AnswerMeans | backend/main.py:308-338 | only a right password judged outside a block gets in and clears the throttle; during a block the answer is to wait long enough |
| LoginThrottle.FifthFailureBlocks | backend/auth.py:107-126 | four wrong passwords from the start are told so, the fifth starts a block of a minute |
| LoginThrottle.WaitingEndsTheBlock | backend/auth.py:93-104 | the returned seconds are exactly enough: waiting them ends the block, one second less does not |
| LoginThrottle.BlockLastsTheCooldown | backend/auth.py:107-126 | a fresh block announces exactly the cooldown |
| LoginThrottle.OverlapIsPaced | backend/main.py:312-333 | with at most `k` requests between check and record, any `5 + k` successive wrong passwords judged without a success recorded between them span at least 60 seconds |
| LoginThrottle.OverlapBoundIsTight | backend/main.py:312-333 | for every `k`, a reachable interleaving judges `4 + k` wrong passwords at one instant |

## Left out

- HTTP routes, middleware, cookies, session tokens, static pages and the frontend: plumbing and user interface.
- The model provider client and the web search connector, except as an arbitrary provider: services outside the code.
- SQL text, migrations, backups and WAL retry: tables are maps or sequences, transactions atomic steps.
- Docker calls, filesystem staging and permission checks: only what they observed is an input.
- Digest sealing, construction tokens and authority flags of the receipt classes: field equality once SHA-256 is injective.
- Regular-expression tokenising, token normalisation, stop words and the alias table of memory retrieval: keyword lists and aliases are inputs.
- `add_message` of `backend/conversation.py`: it has no callers, and one call would break the pairing of messages.
- Field validation of a profile manifest and parsing of chat commands: flat checks before the modelled operations.
- Tool results that are not JSON: assumed not to occur.
- Sorting of plan items and package collections, source references, token estimates and reason codes: order and labels only.
- Which interfaces, dependency summaries, tests and architecture evidence are offered to a package: arbitrary lists.
- Line truncation inside one excerpt and secret classification: an excerpt's size, availability and secrecy are inputs.
- The container inspection fields and tree validation of the check runner: each is one observed yes or no.
- A conversation's title and timestamps other than message times: never read by the modelled code.
- Providers that announce tool calls without any: the router raises before the loop sees them, so `RunToolConversation` requires calls to be non-empty.
- A storage fault while recording a refused tool request ends a chat turn with an error; the tool loop models such faults only for executions and freezing.
- ToolConversation.RunToolConversation: the duplicate bound is 2 plus the executions whose request was respelled by validation, because the cap is looked up under the requested spelling; ToolConversation.CapHoldsExactly gives the exact condition.
- Mission.RunCompositionMission: exception class names, run identifiers and frozen-operation identifiers are assumed to be nonempty text within their byte limits; `MissionLimit` also assumes of them, and of a plan's identities, that they carry no surrounding whitespace, and of floats that they print in at most 24 bytes.
- MissionLimit.AcceptedExactlyWhenDeclared: stated for plans that end pending in some world on results of at most 131,070 bytes, where putting `n` letters in place of a count lengthens the encoded result by at most `n + 2` bytes; for all other plans the declaration suffices (MissionLimit.DeclaredCountsSuffice) but need not be necessary: a plan whose every run stops earlier never takes the count over.
- FeasibleTyping.FeasibleFailsOnlyOnBounds: stated for schemas whose kinds the validator knows; a property of any other kind is always refused as unsupported.
- LoginThrottle.SixFailuresTakeAMinute: logins are sequential; LoginThrottle.OverlapIsPaced gives the exact bound for overlapping ones, timed when the password is judged.
