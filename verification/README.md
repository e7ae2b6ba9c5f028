# A verified model of the orchestrator's protocols

The orchestrator is a set of crash-safe protocols built from small durable steps. Each committed transaction is one
step here, a crash may fall between any two, and the results below hold over every run of those steps. Where the
program works by changing things in place, a class with the same state has methods proved equal to the steps.

| part | files |
|---|---|
| bounded operation journals: staging, reservation, withdrawal, upgrade, succession | `Journals`, `JournalSteps`, `JournalRuns`, `JournalReads`, `JournalGap`, `JournalBreaks`, `JournalRace`, `JournalHost` |
| fenced execution by a broker, with a client and a recovering operator | `Broker`, `BrokerAlone`, `BrokerSite` |
| the workflow engine of one task | `EngineState`, `EngineSteps`, `EngineProof`, `EngineKeeps`, `EngineWork`, `EngineConclusion`, `EngineRuns`, `EnginePause`, `EngineAdvance`, `EngineProgress`, `EngineHost` |
| repository tasks and the pilots they run, in two databases | `Pilots`, `PilotProof`, `PilotRuns`, `PilotHost` |
| canonical bytes against the worker's structural comparison | `Doubles`, `Canonical`, `CanonicalText`, `CanonicalEqual`, `CanonicalReader` |
| pilot journals that continue one another | `PilotSuccession` |
| workspace reclamation and journal bounds | `Retention` |
| serial batches | `Batches` |
| offline recovery assessments from captured pages | `JiraReconcile`, `GithubRecovery` |

Conventions. Identifiers, paths and times are natural numbers, of which the program uses only equality or order. A digest is
modelled as the value it is taken of, so it is injective. A transaction is atomic, and triggers and unique indexes
are guards of the steps. A file lock is mutual exclusion that ends with its holder. What processes, containers, Git
and the network answer is an input. A history field (how often something was launched, started or entered) records
what the results speak of and guards nothing.

## Where the code does less than its documentation says

- `docs/journal-succession.md:74` says that the admission check cannot be outraced, because a predecessor admits
  nothing once retired. The recheck that `retire` makes of its heir (`orch/journal_succession.py:230-236`) asks that
  the heir is empty and follows nobody, but not that it has not itself been retired in between.
  `JournalGap.RecheckGap` is a run of thirteen steps after which one verified chain holds two reservations of
  one task. The omitted test is the condition: with it (`JournalReads.FreshHeirs`) the chain-wide results hold of every
  run in which a staging reads its predecessors one file after another, under the write lock of its own file only
  (`JournalReads.ReadGuarantee`, `JournalReads.ReadOneReservation`). Without it they need not:
  from every state in which a retirement claims an heir that was itself retired, while its own journal and the newest
  one chained behind the heir are open with room, a continuation ends in two reservations of one task in one chain
  (`JournalRace.RetiredHeirBreaks`). If admission were read at one instant, it would be enough that nothing chained
  behind the heir holds a row: `JournalSteps.HeirCommitExact` shows that condition exact for the invariant, and
  `JournalBreaks.UnclearHeirBreaks` that without it the chain guarantee itself can be broken.
- `perform` (`orch/broker_process.py:55`) is documented to execute at most once per operation. On its own it is not:
  it executes a second time exactly if an earlier execution died before its journal and nothing was retired until the
  next delivery (`BrokerAlone.SecondLaunchIff`, `BrokerAlone.PerformAloneRunsTwice`). Together with the client's
  durable request row it is (`Broker.LaunchedAtMostOnce`).
- A pilot bound to a task reads the task as implementing before it starts, but need not commit its start while that is
  still so: `PilotRuns.StartAfterBlock` is a run in which the task is blocked in between. It is still implementing
  exactly if no step since the admission found the task interrupted or gave its execution up, and it always is while
  the task's own `advance` is alive (`PilotRuns.StartImplementingIff`).
- `prepare` commits a pilot's row and only then reads it back (`orch/pilot.py:255-266`). The scope is stored as canonical
  bytes, which write a float of more than 53 bits and less than 10^21 as an integer, and an integer of more than 53 bits
  has no canonical bytes. So a check that expects such a float is admitted but cannot be read back
  (`CanonicalEqual.LargeFloatDoesNotReload`, the float 2^69), and its pilot stays prepared for good: nothing inspects,
  runs, abandons or reclaims it, and its journal can never be retired (`PilotRuns.UnreadableForever`). A scope can be read
  back exactly when no expectation in it holds a whole float from 2^53 to below 10^21 (`CanonicalEqual.ReloadsIff`,
  `CanonicalEqual.Load`). Wherever it can, host and worker agree on every check, although one compares canonical bytes
  and the other structure (`CanonicalEqual.Compare`).

## Model

| member | source | states |
|---|---|---|
| Journals.ChainUnique | orch/journal_succession.py:128-152 | the walk back from a journal has one outcome: two verified chains from it are the same |
| Journals.ChainDistinct | orch/journal_succession.py:128-152 | no journal is met twice on a verified chain, so the cycle test never refuses one |
| Journals.ChainsNested | orch/journal_succession.py:128-152 | of two verified chains with one root, the shorter is the tail of the longer |
| Journals.UnretiredIsNewest | orch/journal_succession.py:121-125 | a journal that is not retired can only be the newest of a verified chain |
| JournalSteps.StepKeepsInv | orch/journal_succession.py:181-258 | every transaction and every interruption, except the claim of an heir that has rows behind it, keeps: one live operation per task and one record per identifier in every file and across every verified chain |
| JournalSteps.StageKeeps | orch/journal_succession.py:155-178 | staging after the local admission check, all of it read at the instant of the commit, keeps the chain-wide agreement |
| JournalSteps.HeirCommitExact | orch/journal_succession.py:230-239 | with admission read at one instant, the heir's commit keeps the invariant exactly when nothing chained behind the heir holds a row |
| JournalSteps.UnretiredHeirIsClear | orch/journal_succession.py:205-206 | an heir that is not retired meets that condition |
| JournalSteps.CloseKeeps | orch/journal_succession.py:246-257 | closing the old journal extends its chain by the heir and keeps the invariant |
| JournalSteps.RowReplaced | orch/journal_revision.py:152-166 | changing the state of a live row frees or keeps its task, and nothing else |
| JournalRuns.RunKeepsInv | orch/journal_succession.py:181-258 | the invariant holds in every state of every run in which claimed heirs have nothing behind them |
| JournalRuns.ChainGuarantee | orch/journal_succession.py:155-178 | over every such run a verified chain holds each identifier in one journal and one live operation per task |
| JournalRuns.StepRefinesLedger | orch/github_journal.py:241-290 | a successful stage, reserve or withdraw anywhere in the chain is that step of one unbounded ledger; upgrade, retirement and interruption are no step of it |
| JournalRuns.RunStepRefines | orch/jira_journal.py:190-239 | the same for every step of every such run |
| JournalRuns.LedgerRemembers | orch/journal_revision.py:177-227 | over every such run the chain's ledger never loses a record, and no record's task or scope ever changes |
| JournalRuns.LedgerOneLive | orch/journal_revision.py:50 | the whole chain's ledger has one live operation per task |
| JournalRuns.OneReservationEver | orch/github_journal.py:275-290 | over every such run and for all time, two reservations of one task in one chain are the same record |
| JournalRuns.OneOpenJournal | orch/journal_succession.py:121-152 | at most one journal with a given root is open to new admission and verified |
| JournalRuns.InterruptedHeirIsOrphan | orch/journal_succession.py:223-247 | a retirement interrupted after the heir's commit leaves an orphan |
| JournalRuns.RetriedHeirIsOrphan | orch/journal_succession.py:246-257 | so does one whose journal was meanwhile retired to another heir |
| JournalRuns.OrphanNeverAdmits | orch/journal_succession.py:128-178 | neither an orphan nor any journal later chained behind it ever admits anything |
| JournalRuns.OrphanForever | orch/journal_succession.py:128-152 | an orphan stays one in every later state, whatever happens |
| JournalReads.CommitIsAdmitted | orch/journal_succession.py:155-178 | what a staging read of its predecessors, one file after another, is still true of all of them when it commits |
| JournalReads.StepRefines | orch/journal_succession.py:181-258 | while claimed heirs are not retired, every read, commit and retirement keeps that, and is a whole transaction or no change |
| JournalReads.RunKeepsStagings | orch/journal_succession.py:155-178 | every state of every such run keeps what each staging under way has read |
| JournalReads.RunRefines | orch/journal_succession.py:155-178 | every such run is one of whole transactions in which claimed heirs have nothing behind them |
| JournalReads.ReadGuarantee | orch/journal_succession.py:155-178 | so a verified chain holds each identifier in one journal and one live operation per task |
| JournalReads.ReadOneReservation | orch/github_journal.py:275-290 | and for all time a task consumes one reservation in a chain |
| JournalReads.ReadRefinesLedger | orch/github_journal.py:241-290 | and each commit anywhere in a chain is a step of one unbounded ledger, each read none |
| JournalReads.ReadOrphanNeverAdmits | orch/journal_succession.py:128-178 | no staging commits behind an orphan, however early it began to read |
| JournalGap.RecheckGap | orch/journal_succession.py:230-236 | a run whose heir was retired before it was claimed ends with two reservations of one task in one verified chain |
| JournalBreaks.UnclearHeirBreaks | orch/journal_succession.py:230-236 | from every state in which an open journal with room claims an heir with a row behind it, a continuation ends with one identifier in two journals of one verified chain |
| JournalBreaks.RetirementJoins | orch/journal_succession.py:238-257 | the two records of a retirement join the heir's chain to the journal's own |
| JournalRace.RetiredHeirBreaks | orch/journal_succession.py:230-236 | from every state in which an open journal with room claims an heir retired to an open journal with room, a continuation ends with two reservations of one task in one verified chain |
| JournalHost.Host.Create | orch/journal_succession.py:226 | opening a journal that does not exist creates an empty one of the first version |
| JournalHost.Host.Predecessors | orch/journal_succession.py:128-152 | the loop succeeds exactly when a verified chain within the bound exists, and returns it |
| JournalHost.Host.CheckAdmission | orch/journal_succession.py:155-178 | admission holds exactly for an open journal whose predecessors hold neither the identifier nor the task live |
| JournalHost.Host.StageScope | orch/github_journal.py:241-273 | staging succeeds exactly when the stage step is enabled, and is that step: after it the operation is held live under the scope asked for, and one held under another scope is refused |
| JournalHost.Host.ReserveSlot | orch/github_journal.py:275-290 | a reservation turns a prepared row of the expected scope uncertain, once, and changes no other row |
| JournalHost.Host.WithdrawOperation | orch/journal_revision.py:134-174 | a withdrawal takes a prepared row of a revisable journal and records its scope |
| JournalHost.Host.UpgradeSchema | orch/journal_revision.py:177-227 | an upgrade changes the version of the file and no row |
| JournalHost.Host.BeginRetirement | orch/journal_succession.py:188-207 | the checks made before anything is written |
| JournalHost.Host.ClaimHeir | orch/journal_succession.py:226-245 | the heir's commit: empty and following nobody, it now follows the journal, and nothing else changes |
| JournalHost.Host.CloseJournal | orch/journal_succession.py:246-257 | the old journal's commit: not yet retired, it now names the heir, and no row changes |
| JournalHost.OnlyOneWalk | orch/journal_succession.py:128-152 | the walk that the loop makes is the only one an admission could rest on |
| Broker.StepKeepsInv | orch/broker.py:356-466 | the launch permissions in hand, in transit and spent never exceed the durable request rows; lock, journal and tombstone stay consistent |
| Broker.RunKeepsInv | orch/broker.py:356-466 | that holds in every state of every run |
| Broker.LaunchedAtMostOnce | orch/broker.py:356-391 | with client and broker crashes, lost replies and late processes, an operation is launched at most once |
| Broker.OneAcceptedOutcome | orch/broker.py:412-450 | whatever is ever accepted is the one journaled outcome of the one launch |
| Broker.AcceptedWasLaunched | orch/broker_process.py:54-71 | a journal, and whatever is accepted, exists only after a launch |
| Broker.DoneNeverLaunches | orch/engine.py:372-387 | once the operation is done, by completion, failure or recovery, it is never launched again |
| Broker.RecoveryLeavesOneFate | orch/broker.py:452-466 | a committed recovery leaves either an envelope or a tombstone, never both |
| Broker.ReceivedIsAccepted | orch/broker.py:412-450 | what a client or an operator receives is the one thing that is ever accepted |
| Broker.RecoveredWasProved | orch/engine.py:486-502 | a recovered operation was proved stopped, or had a certain outcome, before the recovery was committed, and by the same operator process |
| BrokerAlone.LaunchesCounted | orch/broker_process.py:54-71 | over every run of the execution function alone, whatever is delivered how often, the work has run once for each death before a journal, and once more if it is journaled or still running |
| BrokerAlone.SecondLaunchIff | orch/broker_process.py:54-71 | so it runs a second time exactly when an earlier launch died before its journal and nothing was retired until the next launch |
| BrokerAlone.RunsAgainIff | orch/broker_process.py:54-71 | from any state with nothing running the work can run again exactly when nothing was journaled or retired |
| BrokerAlone.RedeliveryRelaunches | orch/broker_process.py:54-71 | a request that reaches the free lock is about to run exactly when nothing was journaled or retired |
| BrokerAlone.NoneAfterFate | orch/broker_process.py:54-71 | once an outcome is journaled or the operation retired, no delivery launches it, and the journal stays |
| BrokerAlone.PerformAloneRunsTwice | orch/broker_process.py:54-71 | a run in which one request, delivered twice, runs the work twice |
| BrokerSite.Site.RunClient | orch/broker.py:356-391 | the first call for a generation makes the one durable row and sends once; every later call only asks for the result, and returns the journaled envelope exactly when it is there for this request |
| BrokerSite.Site.Perform | orch/broker_process.py:54-71 | under the lock a tombstone refuses, a journal answers its own request, and otherwise the work runs and is journaled, with a death at either point; it replies with what is journaled, and exactly when it comes that far |
| BrokerSite.Site.Result | orch/broker.py:412-426 | a retained result is read under the lock and never launches |
| BrokerSite.Site.Retire | orch/broker.py:452-466 | the tombstone is written under the lock before the proof of absence |
| BrokerSite.Site.Recover | orch/engine.py:466-519 | recovery takes the retained result or fences the operation first, and commits exactly on a certain outcome or on proof of absence |
| EngineProof.BindsFrame | orch/engine.py:246-266 | an approval stays bound while its subject, evidence and decision stay |
| EngineProof.NoEffectYet | orch/engine.py:738-769 | before the action is authorized there is no effect and no receipt |
| EngineKeeps.ApproveStep | orch/engine.py:304-339 | a human decision keeps the invariant of the engine |
| EngineKeeps.RenewStep | orch/engine.py:268-302 | replacing an expired request keeps it, with the same subject and evidence |
| EngineKeeps.CancelStep | orch/engine.py:399-427 | cancellation keeps it, and leaves no success behind |
| EngineKeeps.RecoverStep | orch/engine.py:466-520 | recovery of a blocked worker operation keeps it |
| EngineKeeps.AttemptStep | orch/engine.py:625-636 | a new attempt drops the evidence of the previous one, and no stored result is taken for the new one's |
| EngineWork.EffectRecorded | orch/engine.py:744-761 | the effect and its receipt are one commit, and the first of the task |
| EngineWork.ReconcileStep | orch/engine.py:347-356 | an unfinished external slot is finished from its committed effect |
| EngineConclusion.ConcludeStep | orch/engine.py:644-769 | each stage's concluding transaction keeps the invariant: the result it consumes is bound to the current work |
| EngineRuns.RunKeepsInv | orch/engine.py:166-206 | the invariant holds in every state of every run, whatever crashes |
| EngineRuns.AtMostOneEffect | orch/engine.py:738-769 | a task never has two effects, nor two receipts, of any outcome |
| EngineRuns.SuccessesMatchPhase | orch/engine.py:399-427 | PR_CREATED and COMPLETED have exactly the one success they name; CANCELLED has none |
| EngineRuns.AuthorizedIsBound | orch/engine.py:166-206 | in READY_FOR_PR, PR_CREATED and COMPLETED specification, plan, work order, patch, passing test, independent acceptance and both approvals are mutually bound about one patch |
| EngineRuns.BodyEnteredOnce | orch/engine.py:341-397 | the body of each slot is entered at most once over every run |
| EngineRuns.ResultIsFinal | orch/engine.py:343-346 | a finished slot keeps its result for good, so later calls replay that one |
| EngineRuns.UnfinishedNeverReruns | orch/engine.py:343-360 | a slot that was entered is neither started nor entered again |
| EngineRuns.AttemptsBounded | orch/engine.py:625-638 | no run reaches a fourth attempt |
| EngineRuns.TerminalForever | orch/engine.py:37-44 | a failed, completed or cancelled task stays as it ended |
| EngineRuns.RepeatsAreRecognized | orch/engine.py:276-278 | a renewal, a cancellation and a recovery are recognized when they are repeated |
| EngineRuns.CancelIsRemembered | orch/engine.py:408-410 | a cancellation is recognized in every later state of the run |
| EnginePause.RunKeepsPauses | orch/engine.py:237-244 | in every state of every run a pending request is the current one, over the current subject and evidence, only the current slot can be unfinished, and an invocation left active has given the current stage no result |
| EnginePause.PauseIsDecidable | orch/engine.py:304-339 | in every reachable approval pause an unexpired request can be approved and can be rejected |
| EnginePause.PauseIsRenewable | orch/engine.py:268-302 | in every reachable approval pause an expired request can be renewed, which grants nothing |
| EnginePause.PauseIsCancellable | orch/engine.py:399-427 | in every reachable approval pause the task can be cancelled |
| EnginePause.BlockedIsRecoverable | orch/engine.py:466-520 | a reachable blocked task can be recovered exactly when a worker operation blocked it and its plan approval is live |
| EngineAdvance.AdvancedKeeps | orch/engine.py:611-772 | whatever every committed step keeps, a whole call of advance keeps |
| EngineAdvance.AdvanceNearer | orch/engine.py:611-772 | a call that is not refused pauses the task or lowers a measure of at most 15 |
| EngineProgress.CallGoes | orch/engine.py:611-772 | from every state in which identifiers are fresh and the needed approvals live, a call is not refused and leads where its answer says: forward, back, or to the block that a lost worker leaves |
| EngineProgress.CallTakesUp | orch/engine.py:655-769 | every call that is not refused and blocks nothing moves the task on exactly if its slot's result is what the stage hoped for, and makes it the stage's evidence |
| EngineProgress.CallResumes | orch/engine.py:341-360 | what a call makes of a slot that an earlier one left: replay, the committed effect, or a block |
| EngineProgress.WorkRuns | orch/engine.py:774-779 | four calls with good answers take a task from implementation to the pause for its action's approval |
| EngineProgress.PlanRuns | orch/engine.py:774-779 | two calls with good answers plan a specified task |
| EngineProgress.ActionRuns | orch/engine.py:774-779 | two calls, the first with a good answer, take an approved action to the end of the task |
| EngineHost.Engine.constructor | orch/engine.py:48-67 | a new process finds what is durable, and nothing of what an earlier one was running |
| EngineHost.Engine.Transition | orch/engine.py:166-206 | the move is made exactly when every guard of the target passes |
| EngineHost.Engine.Operation | orch/engine.py:341-397 | replay, reconciliation, block or one new execution, as the slot's row says |
| EngineHost.Engine.Consult | orch/engine.py:574-585 | an invocation is active from before the model is asked until its receipt is stored |
| EngineHost.Engine.Resume | orch/engine.py:347-360 | a started slot is finished from its effect or blocks the task |
| EngineHost.Engine.Advance | orch/engine.py:611-772 | one call of advance: if nothing hinders it, its answer alone decides the phase it leads to; a slot found done is taken up as it is, one found unfinished is finished from its effect or blocks the task |
| EngineHost.Engine.Run | orch/engine.py:774-779 | run pauses or surfaces a refusal within 15 calls; with good answers four calls take a task ready for implementation to the pause for its action, two plan it, and two complete an approved action |
| EngineHost.Engine.Approve | orch/engine.py:304-339 | a repeated decision is returned, a contradicted one refused, a current one recorded with its move: to implementation or back to planning, to the action or back to changes |
| EngineHost.Engine.Renew | orch/engine.py:268-302 | only an expired, current and unchanged request is replaced, with no operation or invocation active; a repeated call returns what it did |
| EngineHost.Engine.Cancel | orch/engine.py:399-427 | cancellation happens exactly without an active or unresolved operation, an active invocation or a success; a repeated call returns what it did |
| EngineHost.Engine.Recover | orch/engine.py:466-520 | recovery retires the one unresolved operation and its attempt, on proof alone; a repeated call returns what it did |
| PilotProof.KernelKeeps | orch/repository_tasks.py:64-69 | every kernel transaction keeps the invariant across both databases |
| PilotProof.PilotKeeps | orch/pilot.py:343-468 | every journal transaction, including a reclamation's, and every death keeps it |
| PilotRuns.RunKeepsInv | orch/pilot.py:366-468 | it holds in every state of every run |
| PilotRuns.RowsPassInspection | orch/pilot.py:268-323 | every row any run reaches, reclamations included, passes the lifecycle, worker and receipt checks; so it can be inspected exactly if its scope can be read back, as that of every row past preparation can |
| PilotRuns.UnreadableForever | orch/pilot.py:255-281 | a pilot whose scope cannot be read back stays prepared and unreadable in every later state, is never started, abandoned or reclaimed, and its journal never retired |
| PilotRuns.ReclaimedIsSettled | orch/pilot_retention.py:156-217 | a workspace under deletion is of a settled pilot, exactly as recorded at its review, with nothing running and a bound pilot's task ended |
| PilotRuns.ReclaimedForever | orch/pilot_retention.py:193-216 | from the review on the pilot's row, worker journal, record and starts stay as they are for good |
| PilotRuns.ReclaimAbandonsUnstarted | orch/pilot_retention.py:112-114 | what a reclamation abandons has never started and never will |
| PilotRuns.PlanNotReclaimed | orch/pilot_retention.py:81-103 | while a task has not ended, the workspace of its pilot has not been deleted |
| PilotRuns.ReclaimableIff | orch/pilot_retention.py:81-114 | with nothing running, exactly which pilots can be reclaimed: the settled without an unresolved worker, and of the bound ones the plan's once its task has ended |
| PilotRuns.StartedOnce | orch/pilot.py:366-387 | no pilot starts twice, and of the bound ones only the plan's ever starts |
| PilotRuns.AdmissionPrecedes | orch/pilot.py:366-387 | a start in progress was admitted earlier, by the same run |
| PilotRuns.StartIsAdmitted | orch/repository_tasks.py:298-313 | a bound pilot starts only after it read its task as implementing, under a live approval and a started operation, which still is started at the commit |
| PilotRuns.StartImplementingIff | orch/pilot.py:366-387 | when it commits its start the task is still implementing exactly if no step since the admission blocked it, and always while the task's own advance is alive |
| PilotRuns.NoStartAfterTheEnd | orch/repository_tasks.py:242-281 | once the task is terminal no pilot of it ever starts |
| PilotRuns.CompletedIsBacked | orch/repository_tasks.py:132-168 | COMPLETED has a passed pilot, its replacements as retained snapshots, and both human approvals |
| PilotRuns.StartAfterBlock | orch/repository_tasks.py:298-313 | a start can commit after its task was found interrupted and blocked |
| PilotHost.Site.Prepare | orch/pilot.py:232-266 | a new pilot is prepared at revision 0, and the call answers only if the scope can be read back |
| PilotHost.Site.Abandon | orch/pilot.py:343-358 | only a prepared pilot at the expected revision is abandoned |
| PilotHost.Site.Reconcile | orch/pilot.py:437-468 | a reserved pilot ends interrupted on proof of absence, or stays reserved at a higher revision |
| PilotHost.Site.Intend | orch/pilot_retention.py:163-197 | the review, the abandonment it implies and the intent are one commit |
| PilotHost.Site.Reclaim | orch/pilot_retention.py:156-217 | a reclamation is recorded complete only after its intent, if the process lived |
| PilotHost.Site.ReserveRun | orch/pilot.py:366-387 | the reservation and the worker journal are one commit, after admission |
| PilotHost.Site.Edit | orch/pilot.py:422-435 | the edit's entry is durable before its dispatch, and observed after it |
| PilotHost.Site.Test | orch/pilot.py:422-435 | the same for the test |
| PilotHost.Site.Finish | orch/pilot.py:414-419 | the receipt is bound to the final worker journal, in the commit that ends the run |
| PilotHost.Site.Run | orch/pilot.py:366-420 | a whole run: with no trouble it ends passed or failed by its own checks and with its receipt, and otherwise reserved, with the worker journal saying what was dispatched and observed |
| PilotHost.Site.FinishTask | orch/repository_tasks.py:193-211 | the result, the end of the operation and the next request are one commit, or the task is blocked |
| PilotHost.Site.Advance | orch/repository_tasks.py:170-214 | a ready task runs its pilot once, and goes to the pause for its result, to failure, or is blocked, as the pilot ended; one found implementing is blocked |
| PilotHost.Site.ApproveResult | orch/repository_tasks.py:144-168 | a result is accepted only as it was requested, passing and with its snapshots intact |
| PilotHost.Site.Recover | orch/repository_tasks.py:242-268 | the journal is settled in its own commit before the kernel fails the task |
| PilotHost.BlockedCanBeSettled | orch/pilot.py:437-468 | a reachable blocked task with nothing running can be recovered on proof of absence, exactly unless its pilot has used up its reconciliations |
| CanonicalText.NumberTextsAgree | orch/contracts.py:57-58 | two numbers have the same canonical text exactly when they are equal |
| Doubles.SpelledReadsBack | orch/contracts.py:57-58 | the shortest digits of a whole float read back as the same float |
| Doubles.NearestIsNearest | orch/contracts.py:57-58 | no double is nearer to a number than the one it rounds to |
| Doubles.SpelledShortest | orch/contracts.py:57-58 | no number that ends in more zeros reads back as the same double |
| Doubles.SpelledLarge | orch/contracts.py:57-58 | a whole float is written without an exponent exactly below 10^21 |
| Doubles.TwoTo69 | orch/contracts.py:57-58 | the shortest digits of 2^69 spell another integer, below 10^21 |
| CanonicalText.EscapedUnique | orch/contracts.py:57-58 | an escaped string ends where its quote is, and is written in one way |
| CanonicalText.ListUnique | orch/contracts.py:57-58 | a bracketed list of self-delimiting texts can be read in one way |
| CanonicalEqual.Utf16Unique | orch/contracts.py:57-58 | the member order tells any two keys apart |
| CanonicalEqual.SortedAscending | orch/contracts.py:57-58 | members are written in strictly ascending order of their keys |
| CanonicalEqual.AscendingUnique | orch/contracts.py:57-58 | that order is determined by the members, whatever order they were read in |
| CanonicalEqual.CanonApart | orch/contracts.py:57-58 | canonical text is self-delimiting before any separator |
| CanonicalEqual.CanonicalIffEqual | orch/pilot_worker.py:26-32 | on every two values the host admits, canonical bytes are equal exactly when the worker's comparison holds |
| CanonicalReader.CanonRead | orch/contracts.py:57-58 | a reader of JSON text takes canonical bytes, before any separator, for the value as it is reread, with its members in the order of their keys |
| CanonicalReader.ArrangedReorders | orch/contracts.py:57-58 | nothing but the order of members has changed in what is read |
| CanonicalReader.ArrangedAscends | orch/contracts.py:57-58 | and the members come in strictly ascending order of their keys |
| CanonicalReader.BeforeIff | orch/contracts.py:57-58 | which is decided by the first UTF-16 unit in which two keys differ |
| CanonicalReader.NumberRead | orch/contracts.py:57-58 | a number's text is read as the number that comes back from it |
| CanonicalReader.TextRead | orch/contracts.py:57-58 | an escaped string is read as the string it was written from |
| CanonicalEqual.RereadNumber | orch/pilot_worker.py:26-32 | a number equals a reread one exactly when it equals it and its own digits do not spell another integer below 10^21 |
| CanonicalEqual.WorkerEqualIff | orch/pilot_worker.py:26-32 | a value equals an expectation that was read back exactly when it equals the expectation and its own digits spell no other integer below 10^21 |
| CanonicalEqual.ReloadsIff | orch/pilot.py:268-281 | what was stored as canonical bytes is admitted again when read back exactly if it holds no whole float from 2^53 to below 10^21 |
| CanonicalEqual.ReloadStays | orch/pilot.py:281 | then its canonical bytes, and so its digest, are those that were stored, and reading back again changes nothing |
| CanonicalEqual.ExpectableIff | orch/pilot.py:140-151 | a value can pass some check that was read back exactly when it could itself be stored and read back |
| CanonicalEqual.LargeFloatDoesNotReload | orch/pilot.py:268-281 | the float 2^69 is admitted, is stored as another integer, and is not admitted when read back |
| CanonicalEqual.Load | orch/pilot.py:268-281 | reading the checks back fails exactly when one expects such a float, and keeps their canonical bytes |
| CanonicalEqual.SameVerdict | orch/pilot.py:140-151 | a check read back from the stored scope passes in the worker exactly when it passes on the host, and exactly when the approved check does |
| CanonicalEqual.PassedIsFaithful | orch/pilot.py:140-151 | whatever a check that was read back finds equal spells no other integer, and could itself be read back |
| CanonicalEqual.Follow | orch/pilot.py:144-150 | the loop over a check's keys finds the value they lead to, or that one is missing |
| CanonicalEqual.Evaluate | orch/pilot.py:140-151 | the host's list of verdicts |
| CanonicalEqual.WorkerTest | orch/pilot_worker.py:62-71 | the worker's list of verdicts over the checks it is sent |
| CanonicalEqual.Compare | orch/pilot.py:366-435 | over every stored scope that can be read back, the host's list and the worker's are the same, and are the verdicts of the approved checks |
| PilotSuccession.ForwardUnique | orch/pilot_succession.py:149-183 | the walk forward from a journal is determined |
| PilotSuccession.BackwardUnique | orch/pilot_succession.py:191-232 | the walk back from a journal is determined |
| PilotSuccession.WalksReverse | orch/pilot_succession.py:149-232 | a walk forward from a journal without predecessor is, reversed, the walk back from its end, and conversely |
| PilotSuccession.Forward | orch/pilot_succession.py:149-183 | on any graph the loop ends, and succeeds exactly when a verified walk of at most 64 journals exists |
| PilotSuccession.Chain | orch/pilot_succession.py:191-232 | the same for the walk back |
| PilotSuccession.ThereAndBack | orch/pilot_succession.py:149-232 | whenever the walk forward succeeds, the walk back from its end succeeds and lists its reverse, exactly unless the journal was not created yet |
| PilotSuccession.RunKeeps | orch/pilot_succession.py:89-146 | over every run of retirements and crashes a retired journal's successor exists and names it, and successors are created after their predecessors |
| PilotSuccession.OnlyLengthRefuses | orch/pilot_succession.py:149-183 | so from any journal of any run the walk forward exists, and only its length can refuse it |
| PilotSuccession.OrphanHasNoChain | orch/pilot_succession.py:215-226 | an heir its predecessor does not name has no chain |
| PilotSuccession.Host.Retire | orch/pilot_succession.py:89-146 | two commits with a crash between, refused for nested directories; a completed one extends every walk that ended here by the heir |
| Retention.Inventory | orch/pilot_retention.py:42-63 | the walk lists every entry once |
| Retention.DeepestFirst | orch/pilot_retention.py:210 | the directories are ordered from the deepest up |
| Retention.DeepestIsEmpty | orch/pilot_retention.py:210-211 | in that order each directory is empty when it is removed |
| Retention.DeleteFiles | orch/pilot_retention.py:205-209 | a deletion that dies leaves a part of the same tree |
| Retention.DeleteDirectories | orch/pilot_retention.py:210-211 | only empty directories are removed, and all of them if the process lives |
| Retention.Delete | orch/pilot_retention.py:203-212 | the workspace is gone exactly when the process lives for every deletion; otherwise as many entries are left as it did not come to, and directories only after all files |
| Retention.Journal.Prepare | orch/pilot.py:255-265 | admission keeps unreclaimed pilots within 128 and rows within 1024, and a retired journal admits nothing |
| Retention.Journal.Intend | orch/pilot_retention.py:163-197 | the review and the intent with its inventory are one commit before any deletion |
| Retention.Journal.Reclaim | orch/pilot_retention.py:156-217 | only what the record lists with the same hash is deleted, no row is ever removed, and the end is a reclaimed record without a workspace |
| Retention.Resume | orch/pilot_retention.py:175-181 | repeating after crashes at any points passes review against the same inventory and reaches the end |
| Batches.StepKeeps | orch/batches.py:174-219 | every save, advance, crash and abandonment keeps the batch in order |
| Batches.OneTroubledEntry | orch/batches.py:180-200 | at most one entry is running or stopped for review; what follows has not begun or was given up |
| Batches.AdvancesUnbroken | orch/batches.py:48-94 | every entry passes the checks of _load, and its advances form an unbroken chain from the reviewed snapshot |
| Batches.OneRunPerEntry | orch/batches.py:182-199 | no entry is ever advanced by two calls of run |
| Batches.Host.constructor | orch/batches.py:114-145 | a new batch is pending throughout, at the reviewed snapshots |
| Batches.Host.Once | orch/batches.py:187-194 | one advance against the last checkpoint, and its checkpoint; a refused, lost or mismatched one ends the run |
| Batches.Host.Work | orch/batches.py:187-196 | one entry until it pauses, is refused, is lost or has used its 40 steps, with its saved advances the replies in turn |
| Batches.Host.Run | orch/batches.py:174-200 | a whole run passes every entry up to the one it ends at, and says why it ended there; it is refused exactly when another runs, the revision is stale, something needs review, or the window or binding has passed |
| Batches.SmoothPassesAll | orch/batches.py:181-199 | when every reply moves its task to a pause without need of review, no entry is left pending, and each is stopped at its reply |
| Batches.Host.Abandon | orch/batches.py:202-219 | an entry is given up only against the snapshot just looked at, with no active work in it |
| JiraReconcile.ReadRows | orch/jira_reconcile.py:70-86 | the comments of a page add their identifiers, their matches and their faults |
| JiraReconcile.ReadPage | orch/jira_reconcile.py:43-88 | one page is read or the whole capture refused |
| JiraReconcile.Assess | orch/jira_reconcile.py:33-99 | captures are refused exactly when they are not well paged, and each blocker is reported exactly when it holds |
| JiraReconcile.AssessHonest | orch/jira_reconcile.py:33-99 | for a real list in any honest paging a candidate is observed exactly when the pages show it all and one comment matches |
| GithubRecovery.Links | orch/github_recovery_reads.py:47-75 | the relations of a header, exactly when they are unambiguous, in scope and consistent |
| GithubRecovery.Decode | orch/github_recovery_reads.py:78-99 | a transcript decodes exactly when its pages were read in turn and each but the last names a next one |
| GithubRecovery.FurthestIsBeyond | orch/github_recovery_reads.py:91-98 | the furthest page tells exactly whether any relation names a page beyond the capture |
| GithubRecovery.Classify | orch/github_reconcile.py:42-66 | the requests of a page: which match, and whether all do |
| GithubRecovery.Reconcile | orch/github_reconcile.py:25-76 | there is a candidate exactly when every page is in place and readable and shows, with the others, one request, which matches |
| GithubRecovery.Assess | orch/github_recovery_reads.py:78-99 | from transcript to verdict: pages 1 to n all read, none naming a page beyond n, exactly one pull request, and it matches |

## Left out

- JournalReads.ReadGuarantee: assumes `FreshHeirs`, as do the other results of `JournalReads`, because without it the code does not have the property (`JournalRace.RetiredHeirBreaks`).
- JournalRuns.ChainGuarantee: assumes `ClearHeirs` and reads admission at one instant; `JournalReads` has the runs as they are read.
- JournalRuns.RunKeepsInv: the same.
- JournalRuns.StepRefinesLedger: the same, for one step.
- JournalRuns.RunStepRefines: the same.
- JournalRuns.LedgerRemembers: the same.
- JournalRuns.OneReservationEver: the same.
- JournalSteps.StepKeepsInv: the same, for one step.
- JournalSteps.StageKeeps: reads the predecessors at the instant of the insertion; `JournalReads.CommitIsAdmitted` shows that what was read earlier still holds then.
- JournalSteps.HeirCommitExact: exact for the invariant, with admission read at one instant.
- The command line, both HTTP servers, message authentication, secrets, sockets and dispatch: a message is delivered or lost.
- Docker, Git, process capture and the container oracles behind `reconcile`: their answers are inputs.
- JSON Schema validation, redaction and SHA-256: records are well formed and digests injective.
- Storage internals, task ownership, leases and the bound on active tasks: the task lock is the exclusion they give.
- Evidence catalogs, previews, backups, release reports, consultations, operator sessions and rosters: easy members.
- Journals: files of the other family, missing or damaged files, and the removal of a file. Every reading of them refuses. The snapshot comparison that `retire` and `upgrade` ask for is not modelled: it only refuses more.
- Journals: scopes themselves are their digests, so the round trip of `bound_scope` and `validated_intent` is the identity; `audit` is a reading of the same rows.
- Broker: the launch is the moment the broker starts the container client; that the container is absent is an input to recovery. The unverifiable envelopes that `_accept` refuses are lost messages.
- Engine: one task, as its operations belong to it alone. The audit events, the error field and workspace clean-up after recovery are not modelled; nor is `container_id`, which cancel and renew test but nothing ever sets. A repeated recovery also retries a pending workspace clean-up.
- Engine: the fixture path that creates a confirmed specification in one transaction is the same as drafting and confirming it.
- Engine: guardian and policy decisions only refuse more; a refusal inside an operation body is the answer `Raises`.
- Pilots: other tasks. A pilot bound to another task is one that is bound here and is not the plan's.
- Pilots: workspace bytes are compared by the program before it writes a receipt, so a receipt's files are the replacements; what the task reads afterwards is an input, checked when the result is approved. Whether a scope can be read back and what its checks say are fields of it here; `CanonicalEqual` says what they are.
- CanonicalEqual: a float that is not whole is named by its canonical text, so that its text is injective and reads back is taken from section 3.2.2.3 of RFC 8785; whole floats are concrete. The overflow of a double, and text that is not valid Unicode, are not modelled.
- Canonical: the text is a sequence of characters; its UTF-8 encoding, which is injective, is not modelled.
- PilotSuccession.Host.Retire: records that fail their integrity check are not modelled.
- Retention.Inventory: links, special files and the caps on entries and sizes, which refuse the review, are not modelled.
- Retention: nobody else changes a workspace while a reclamation runs. `Pilots` has the steps of a reclamation among all others, and `Retention` its files.
- PilotRuns.ReclaimableIff: what the review reads of the workspace itself, such as unexpected files, only refuses more.
- Batches: the review window and the binding to source, store and runtime are one input of a run; between two advances their refusal is the reply `Refused`.
- JiraReconcile and GithubRecovery: an address that names the right request, and text that matches the intent, are single fields. Transcript size budgets only refuse more.
