# Verified model of the AgentDock run lifecycle

AgentDock keeps every Run as an event log. A reducer projects the log into a `State`, a decider picks the single next
command from it, two event stores accept appends, a lease and receipt manager fences workers, a leased reconcile
protocol plans, executes, records and completes actions across crashes and takeovers, a Docker sandbox tracks the
containers it may have created, and a normalized stream feeds a coding agent with a cumulative token budget. This
project models those six layers in Dafny and proves what they keep over every log, every history of transactions and
every schedule of steps.

`dafny verify dfyconfig.toml` checks the whole project.

## How the model is laid out

| file | layer |
|---|---|
| `Types`, `Decider`, `Reducer`, `Projection` | vocabulary, `Decide`, the effect of one event, and `Reduce` as the source's loop and as a fold |
| `Lifecycle`, `Effects`, `Acceptance` | the invariant of every reachable state, what each family of events does to it, and exactly which events it accepts |
| `CancelIntent`, `PlanOnce`, `SuccessTrace`, `PauseErasure`, `AwaitingOperator`, `TwoModels`, `Evidence` | theorems about every valid log |
| `EventStore`, `MemoryStore`, `LegacyController`, `Checkpoints` | appends, the in-memory store, the compatibility reconcile, disposable snapshots |
| `Witnesses` | concrete logs at which the exceptions of the theorems are met |
| `Scans`, `ReceiptScan` | the lease manager's two log queries against the projection |
| `Database`, `StoreInvariants`, `LeaseLaws`, `StoreLaws`, `Postgres` | transactions as atomic steps on one Run's rows, what every history keeps, mutual exclusion, what each transaction answers field by field, and the same transactions statement by statement on a mutable object |
| `Managed`, `Reconcile`, `Executions`, `FailureCauses`, `UnsafeOnce` | the leased protocol as a machine of interleaved processes, the calls that are passes of it, and its safety under every schedule |
| `Chain`, `Leader`, `CrashTransparency`, `Recovery` | crash transparency and recovery |
| `Daemon`, `Sandbox` | a daemon that may fail or delay any call and records the calls it got, and the sandbox against it |
| `Stream`, `StreamLaws`, `CodingAgent`, `Transcript` | the reasoner stream, recorded turns, what a stream refuses, the agent's turn loop, and what its transcript and totals are |

Modelling decisions that matter for reading the statements:

- A Go enumeration is a datatype with a value for the empty text and a family for unknown texts, so malformed input stays expressible.
- SHA-256, canonical JSON, JSON validity, schema validation, the credential scan, the safety policy and database time text are arbitrary constants of function type; where a theorem needs more of them, it says so in a `requires`.
- A transaction is one atomic step on the rows of one Run; its lock order makes it so. Database time is a number that never goes back, and it may stand still or jump between any two steps.
- In the protocol machine every transaction and every executor call of `ReconcileLeased` is a separate step. A process is named by its fencing token: one sequential reconciler per lease. Crashes, takeovers, late processes, operators and the legacy controller may act between any two steps.
- Recovery, receipt recording and completion use the state the process holds in memory, not the current one, exactly where the source does.

## What does not hold, and exactly when

- A cancel planned for a paused Run whose resume state is already terminal can never complete: valid evidence is reducible exactly unless `CancelBlocked` (`Evidence.EvidenceReducible`; `Witnesses.BlockedCancelExists` builds such a Run).
- Planning and completing a cancel reaches Cancelled exactly when the Run is not Paused (`CancelIntent.CancelConverges`); a Run cancelled while paused never leaves Paused unless the legacy `RunCancelled` is appended (`CancelIntent.PausedCancelNeverEnds`). `Witnesses.CancelsPausedExists` builds such a Run.
- The two event models agree from every reachable state with nothing pending exactly unless a paused Run is being cancelled (`TwoModels.ModelsAgree`), as the Run of `Witnesses.CancelsPausedExists` is.
- `Rebuild` equals a full reduction exactly unless a trusted snapshot hides a repeated idempotency key (`Checkpoints.Rebuild`). `Witnesses.HiddenRepetitionExists` gives two such events; no store can hold them, because the event table's keys are unique, and then no checkpoint matters (`Checkpoints.UniqueKeysHideNothing`).
- `RecordReceipt`'s plan query needs the action to have no result anywhere in the log, so it is exact for pending actions only under the controller's plan keys (`ReceiptScan.ReceiptScanAgrees`, `ReceiptScan.PlanKeysMakeScanExact`). `Witnesses.MissedPlanExists` builds a log, with another key for a repeated plan, whose pending action the query misses.

- A lease excludes every other worker until its expiry exactly as long as its own holder never renews for less: renewing for a shorter time moves the expiry back (`LeaseLaws.LeaseExcludes`; `LeaseLaws.ShorteningHandsOver` shows the handover before the granted expiry).

## Model

| member | source | states |
|---|---|---|
| `Projection.Reduce` | internal/domain/reducer.go:19-69 | the source's loop over a log returns exactly the recursive fold, with the first error in log order |
| `Projection.ReduceFromCheckpoint` | internal/domain/reducer.go:71-137 | the resuming loop returns exactly the fold that starts from the checkpoint |
| `Projection.ErrorIsFinal` | internal/domain/reducer.go:23-66 | a rejected prefix decides the result of every longer log |
| `Projection.PrefixValid` | internal/domain/reducer.go:23-66 | every prefix of an accepted log is accepted |
| `Lifecycle.ApplyKeeps` | internal/domain/reducer.go:139-336 | every accepted event of either vocabulary keeps the invariant tying pending action, logical status, intent and progress flags |
| `Lifecycle.AdvanceEffect` | internal/domain/reducer.go:629-705 | advancing moves only the logical status, paused or not, and a paused Run stays paused |
| `Lifecycle.ProjectionReachable` | internal/domain/reducer.go:19-69 | every accepted log projects into a state with the invariant, whose version is the log's length |
| `Lifecycle.StepAt` | internal/domain/reducer.go:23-66 | each event of an accepted log has the next number, a new key, the same Run, and was applied to a non-terminal reachable state |
| `Effects.ResultEffect` | internal/domain/reducer.go:554-627 | a managed result leads to the status of its kind and touches failure and verification only as its kind does |
| `Effects.CompletionEffect` | internal/domain/reducer.go:454-479 | a completion matches and clears the pending action; its effect is lost exactly when cancel wins |
| `Effects.LegacyEffect` | internal/domain/reducer.go:194-336 | a legacy event is accepted only in the status of its stage and leads to the next one, with pending managed type untouched |
| `Effects.FailureEffect` | internal/domain/reducer.go:515-535 | a failure clears the pending action and records its reason; the logical status becomes WaitingApproval exactly for an ambiguous outcome without cancel intent, and otherwise stays |
| `Effects.DesiredEffect` | internal/domain/reducer.go:365-411 | operator intent changes neither the logical status nor any work, and nothing follows a cancel |
| `Effects.PlanEffect` | internal/domain/reducer.go:413-452 | an accepted plan is the decided command with nothing pending and changes only the pending fields |
| `Acceptance.DecideLaw` | internal/domain/decide.go:9-60 | the command of every reachable state from intent, failure, stage and verification, and no command exactly when the Run rests |
| `Acceptance.DecideIdentity` | internal/domain/decide.go:33-71 | its action id digests Run, kind and attempt unless a legacy action of the stage is pending; a new attempt is numbered next |
| `Acceptance.FailureDecidesFailRun` | internal/domain/decide.go:9-31 | a reachable Running state with a failure reason decides FailRun exactly unless it is terminal or waits for approval |
| `Acceptance.CreationLaw` | internal/domain/reducer.go:150-168 | creation is accepted exactly once and leaves a Queued Run of its event and nothing else |
| `Acceptance.LeaseFactLaw` | internal/domain/reducer.go:176-183 | a lease fact needs a worker and a token and changes nothing |
| `Acceptance.IntentLaw` | internal/domain/reducer.go:365-411 | pause, resume and cancel are accepted exactly in turn, and change intent, observed and resume status exactly so |
| `Acceptance.PlanLaw` | internal/domain/reducer.go:413-452 | a plan is accepted exactly if nothing is pending and it is the decided command |
| `Acceptance.FailureLaw` | internal/domain/reducer.go:515-535 | exactly which failures are accepted, and every field they leave |
| `Acceptance.CompletionAcceptance` | internal/domain/reducer.go:454-627 | exactly which completions are accepted: the pending action, the payload of its kind, and no cancel below a pause that ended |
| `Acceptance.CompletionLaw` | internal/domain/reducer.go:454-627 | every field an accepted completion leaves, with and without cancel intent |
| `Acceptance.LegacyAcceptance` | internal/domain/reducer.go:194-336 | exactly which legacy events a state accepts, by stage, intent and pending action |
| `Acceptance.LegacyLaw` | internal/domain/reducer.go:194-336 | every field an accepted legacy event leaves |
| `Acceptance.NoMixing` | internal/domain/reducer.go:139-148 | a managed action pending shuts out the whole legacy vocabulary |
| `Acceptance.GuardLaw` | internal/domain/reducer.go:23-66 | the loop's guards answer in order: sequence, envelope, repeated key, foreign Run, terminal state, and then the event's own rule |
| `CancelIntent.CancelIrrevocable` | internal/domain/reducer.go:365-411 | after cancel intent every accepted extension keeps it, leaves observed or moves it to Cancelled, and freezes attempt, reasoning, patch and verification |
| `CancelIntent.PausedCancelNeverEnds` | internal/domain/reducer.go:619-654 | a Run cancelled while paused stays Paused in every extension without the legacy RunCancelled |
| `CancelIntent.CancelConverges` | internal/domain/reducer.go:619-623 | plan and completion of the decided cancel reach Cancelled if and only if the Run is not Paused |
| `PlanOnce.UsedForever` | internal/domain/reducer.go:413-535 | once planned, a forward kind is pending, overtaken or undecidable in every later prefix |
| `PlanOnce.PlannedAtMostOnce` | internal/domain/decide.go:9-60 | each of the six forward commands is planned at most once in any accepted log |
| `SuccessTrace.SuccessHasTrace` | internal/domain/reducer.go:194-308 | a log that reduces to Succeeded contains the five stage results in order, in legacy or managed form, with exactly one attempt |
| `PauseErasure.PausesErase` | internal/domain/reducer.go:365-411 | without cancel and lease facts, deleting every pause and resume and renumbering gives an accepted log with the unpaused projection |
| `PauseErasure.ResultsCommuteWithPause` | internal/domain/reducer.go:673-705 | logs that differ only in where they pause project the same state up to the pause, version, time and last event type |
| `AwaitingOperator.WaitingStep` | internal/domain/reducer.go:139-336 | a Run waiting for approval accepts only pause, resume, cancel, lease facts and its legacy failure, and otherwise keeps waiting |
| `AwaitingOperator.WaitsForOperator` | internal/domain/decide.go:22-27 | from a waiting prefix on, without operator cancel no extension plans or resolves any action, and every prefix of it decides Noop |
| `AwaitingOperator.AmbiguousFailureWaits` | internal/domain/reducer.go:515-535 | an ambiguous failure without cancel intent starts such a wait |
| `TwoModels.PlanAccepted` | internal/domain/reducer.go:413-452 | from every reachable state with nothing pending the decided command can be planned |
| `TwoModels.DecisionFits` | internal/domain/decide.go:9-60 | a decided forward command fits the observed stage, with failure and verification as its kind needs |
| `TwoModels.ModelsAgree` | internal/controller/controller.go:197-261 | managed plan and completion give the same projection as the legacy facts for the same command, exactly unless a paused Run is cancelled |
| `TwoModels.FailuresAgree` | internal/controller/controller.go:317-331 | a reasoner failure gives the same projection in both vocabularies |
| `Evidence.CompletionAccepted` | internal/domain/reducer.go:454-513 | output that passes validation is accepted for the pending action in every reachable state, paused, cancelled or not, exactly unless a cancel is blocked |
| `Evidence.EvidenceReducible` | internal/domain/receipt.go:31-82 | valid receipt evidence for the pending managed action is reducible on every accepted log, exactly unless a cancel is blocked |
| `Witnesses.BlockedCancelExists` | internal/domain/reducer.go:619-654 | a concrete accepted log whose planned cancel can never complete |
| `Witnesses.CancelsPausedExists` | internal/domain/reducer.go:365-411 | a concrete accepted log of a Run cancelled while paused, where the two event models part ways and the managed cancel never ends the Run |
| `Witnesses.MissedPlanExists` | internal/lease/postgres.go:376-401 | a concrete accepted log whose pending action RecordReceipt's query misses |
| `Witnesses.HiddenRepetitionExists` | internal/store/postgres.go:152-160 | two events under one key and a snapshot Rebuild trusts, which a full reduction rejects |
| `Checkpoints.ResumeComposes` | internal/domain/reducer.go:71-137 | resuming from the projection of a prefix agrees with reducing the whole log when prefix and suffix keys are disjoint |
| `Checkpoints.RepeatedKeyRejected` | internal/domain/reducer.go:43-46 | an accepted log repeats no key across any cut |
| `Checkpoints.Rebuild` | internal/store/postgres.go:124-160 | for every stored checkpoint content the answer is the full reduction, if and only if no trusted snapshot hides a repeated key |
| `Checkpoints.UniqueKeysHideNothing` | internal/store/postgres.go:124-160 | with unique keys no checkpoint content, valid, stale or forged, changes the answer |
| `Scans.LegacyScanAgrees` | internal/lease/postgres.go:548-600 | Acquire's query finds an action exactly when the projection has a pending id without managed type, and it is that one |
| `ReceiptScan.ReceiptScanAgrees` | internal/lease/postgres.go:376-401 | RecordReceipt's query matches exactly the pending action, type and scope that have no result in the log, and returns the pending attempt |
| `ReceiptScan.PlanKeysMakeScanExact` | internal/lease/postgres.go:376-401 | under the controller's plan keys the query matches exactly the pending action |
| `Lifecycle.KeysDistinct` | internal/domain/reducer.go:43-46 | two events of an accepted log have different keys |
| `MemoryStore.MemoryEventStore.constructor` | internal/store/memory.go:20-26 | a new store holds the empty log for every Run |
| `MemoryStore.MemoryEventStore.Load` | internal/store/memory.go:28-42 | the stored log, or not found exactly when it is empty |
| `MemoryStore.MemoryEventStore.Rebuild` | internal/store/memory.go:44-51 | a stored Run always reduces, and the answer is its projection |
| `MemoryStore.MemoryEventStore.Append` | internal/store/memory.go:53-104 | answer and new log are a function of the old log; other Runs are untouched; every log reduces and the key index is exactly its keys |
| `MemoryStore.AppendOnly` | internal/store/memory.go:53-104 | any sequence of appends extends the log and keeps it reducible |
| `MemoryStore.RetryReturnsOriginal` | internal/store/memory.go:106-115 | a repeated append returns the original event whatever happened in between |
| `MemoryStore.Numbered` | internal/store/memory.go:92-101 | sequence numbers of an accepted log are 1..n |
| `LegacyController.EventsProject` | internal/domain/reducer.go:194-336 | appending the legacy facts of a command to a log projects what applying them to its state does, bookkeeping aside |
| `LegacyController.FactsAgree` | internal/controller/controller.go:197-261 | a log extended by the facts of its decided command projects what every managed plan and completion of that command reaches |
| `LegacyController.KeysTellKinds` | internal/controller/controller.go:197-331 | two facts of one action have the same key only if they are of the same kind |
| `LegacyController.ResumesAfterPlan` | internal/controller/controller.go:283-291 | a call that stopped after planning is resumed by the same command and exactly the facts still missing |
| `LegacyController.RefusedForCause` | internal/controller/controller.go:168-195 | facts are refused only for a credential, for a key another event uses, or by the reducer, and what was appended before stays |
| `LegacyController.Controller.Submit` | internal/controller/controller.go:168-181 | with one version retry the answer is the store's at the current version |
| `LegacyController.Controller.AppendEvent` | internal/controller/controller.go:168-195 | answer, log and replay flag are those of the store at the current version; without a refusal the event is durable under its key, and a refusal appends nothing |
| `LegacyController.Controller.AppendAll` | internal/controller/controller.go:197-261 | facts are appended in order until one is refused; refusal, log and replays are those of playing the facts one by one |
| `LegacyController.Controller.Reconcile` | internal/controller/controller.go:137-331 | one call extends the log by facts of the decided command in their order up to the first the store refuses, which is the answer; Runs with a managed action pending are refused; with nothing pending the projection it leaves is the one the managed model reaches for the same command |
| `StoreInvariants.AppendAdmits` | internal/store/postgres.go:237-319 | a stored event passed fencing, mode, receipt and reduction checks, and the rows are those of the new projection |
| `StoreInvariants.CompletionAttempts` | internal/store/postgres.go:367-385 | an attempt row is due exactly when a StartAttempt completion takes effect; one that loses to cancel starts none |
| `StoreInvariants.AcquireEffect` | internal/lease/postgres.go:154-208 | acquiring never lowers the token, gives a new worker a new one, and starts managed mode only with no legacy action pending |
| `StoreInvariants.RecordedHasPlan` | internal/lease/postgres.go:376-461 | a recorded receipt is new, signed by the current holder, and has a plan under a token no later than its own |
| `StoreInvariants.AlwaysConsistent` | internal/store/postgres.go:187-421 | every history of transactions keeps derived rows, fencing, modes and evidence |
| `StoreInvariants.NothingRewritten` | internal/lease/postgres.go:358-375 | no transaction rewrites an event, an attempt or a receipt, lowers the token or changes its worker |
| `StoreInvariants.DerivedRowsEqualFold` | internal/store/postgres.go:328-416 | after every history the run row equals the projection and attempt rows number exactly the current attempt |
| `StoreInvariants.FencingOrder` | internal/store/postgres.go:464-502 | fenced events carry tokens in 1..2^63-1, non-decreasing in sequence order, and equal tokens mean the same worker |
| `StoreInvariants.ModesSplit` | internal/store/postgres.go:237-275 | apart from operator intent the log is an unfenced legacy prefix followed by a fenced managed suffix |
| `StoreInvariants.NoActionSplit` | internal/lease/postgres.go:158-180 | a leased Run never has an unresolved legacy action |
| `StoreInvariants.EvidenceSandwich` | internal/store/postgres.go:504-652 | each completion repeats a durable receipt of its action and follows its plan, with plan token <= receipt token <= completion token |
| `LeaseLaws.CurrentIsHolder` | internal/store/postgres.go:464-502 | being current is being named in the unexpired lease row |
| `LeaseLaws.AcquireLaw` | internal/lease/postgres.go:117-209 | every answer of an acquisition and what it changes, by worker, Run, lease row, legacy action and clock |
| `LeaseLaws.UnexpiredExcludes` | internal/lease/postgres.go:185-197 | an unexpired lease shuts every other worker out and is handed back unchanged to its own |
| `LeaseLaws.GrantHolds` | internal/lease/postgres.go:117-209 | every granted acquisition makes its worker the holder of an unexpired lease |
| `LeaseLaws.RenewLaw` | internal/lease/postgres.go:211-266 | renewal sets exactly the expiry, for exactly the holder |
| `LeaseLaws.AuthorityLaw` | internal/lease/postgres.go:717-730 | a presented lease is refused as invalid, missing, stale or expired exactly in these cases |
| `LeaseLaws.LeaseStable` | internal/lease/postgres.go:184-208 | no transaction changes worker or token of an unexpired lease, and only its holder moves its expiry |
| `LeaseLaws.WritesNeedHolder` | internal/store/postgres.go:237-275 | fenced and managed events, and receipts, are stored only for the holder of that moment |
| `LeaseLaws.LeaseExcludes` | internal/lease/postgres.go:117-266 | through any transactions of anyone, until the granted expiry exactly the granted worker and token are current, unless that worker itself renewed for less |
| `LeaseLaws.ShorteningHandsOver` | internal/lease/postgres.go:233-245 | a holder that renews for less can be replaced before the expiry it was granted |
| `StoreLaws.EvidenceLaw` | internal/domain/receipt.go:31-82 | evidence is valid exactly for the attempt, payload, digest and artifact its kind needs |
| `StoreLaws.CheckReceiptLaw` | internal/store/postgres.go:504-652 | exactly how the evidence of a completion is judged: the named receipt, the attempt last planned, the registered row, its bytes, and every repeated field |
| `StoreLaws.CompletionsWereEvidenced` | internal/store/postgres.go:504-652 | over every history, when a completion was stored its receipt proved the attempt last planned, was repeated in every field, and its artifact row was of this Run, attempt, kind and digest with intact bytes |
| `StoreLaws.SameEventLaw` | internal/store/memory.go:106-115 | a replay is the same event in every field the store does not assign |
| `StoreLaws.AppendGates` | internal/store/postgres.go:187-275 | exactly what is refused before the log is looked at, in the source's order |
| `StoreLaws.AppendLaw` | internal/store/postgres.go:276-421 | past those gates: the original or a conflict by key, then the version, then the evidence, then the reducer; what is stored is the request, numbered and dated |
| `StoreLaws.MemoryAppendLaw` | internal/store/memory.go:53-115 | the in-memory store answers alike, without leases and evidence |
| `StoreLaws.ReceiptLaw` | internal/lease/postgres.go:328-462 | a first receipt is recorded exactly for the open plan of its action with valid evidence, and kept as claimed under the holder's name |
| `StoreLaws.ReceiptReplayLaw` | internal/lease/postgres.go:358-375 | a second receipt of an action gets the original if it claims the same in every field, and a conflict otherwise |
| `StoreLaws.RecordedWereProven` | internal/lease/postgres.go:402-461 | whatever receipt is stored proved the pending attempt of that moment and came from the holder |
| `StoreLaws.SavedIsTrusted` | internal/store/postgres.go:654-742 | a saved snapshot is one that Rebuild trusts |
| `Postgres.RunDatabase.constructor` | internal/store/postgres.go:32-46 | an empty database is consistent |
| `Postgres.RunDatabase.ValidateFencingToken` | internal/store/postgres.go:464-502 | accepts exactly the unexpired current holder with a token in range |
| `Postgres.RunDatabase.CheckExecutionMode` | internal/store/postgres.go:237-275 | refuses exactly stale fencing and legacy events in a managed Run |
| `Postgres.RunDatabase.Store` | internal/store/postgres.go:328-416 | writes event, attempt and run rows of the new projection, or nothing |
| `Postgres.RunDatabase.Append` | internal/store/postgres.go:187-421 | the statements are the atomic append of the model, whose every answer AppendGates and AppendLaw state, and keep the database consistent |
| `Postgres.RunDatabase.Rebuild` | internal/store/postgres.go:84-161 | whatever the checkpoint columns hold, a stored Run reads as the projection of its log |
| `Postgres.RunDatabase.SaveCheckpoint` | internal/store/postgres.go:654-742 | the statements are the atomic snapshot of the model, with the source's refusals in its order, and change nothing else |
| `Postgres.SavesAtItsLength` | internal/store/postgres.go:654-742 | a consistent store takes a snapshot exactly when the expected version is the log's length |
| `Postgres.RunDatabase.Acquire` | internal/lease/postgres.go:117-209 | the statements are the atomic acquisition of the model, whose every answer AcquireLaw states |
| `Postgres.RunDatabase.Validate` | internal/lease/postgres.go:296-326 | refuses with the error leaseAuthorityError gives, and accepts exactly the current holder |
| `Postgres.RunDatabase.Renew` | internal/lease/postgres.go:211-266 | extends the lease of exactly the current holder and changes nothing else; a lifetime that is not positive is refused first |
| `Postgres.RunDatabase.RecordReceipt` | internal/lease/postgres.go:328-462 | the statements are the atomic receipt of the model: recorded once, replayed if identical, refused otherwise |
| `Postgres.RunDatabase.WriteArtifact` | internal/store/artifact.go:69-176 | an artifact row is written once and never replaced; the write succeeds exactly unless a different row is registered under the id |
| `Reconcile.Controller.GetRun` | internal/controller/controller.go:75-82 | reading gives the projection of the stored log |
| `Reconcile.Controller.Interfere` | internal/controller/managed.go:80-146 | between two transactions of a call any finite run of others' moves may happen; the call's process, events and place in its pass stay |
| `Reconcile.LostRaceRetries` | internal/controller/managed.go:164-174 | a result append that passes every earlier check conflicts, and goes to the retry, exactly when another writer moved the version |
| `Reconcile.Controller.Submit` | internal/controller/managed.go:158-189 | one append to whatever database it meets: the store's answer, the event list and the durable event, as one move of the process |
| `Reconcile.Controller.RetryAppend` | internal/controller/managed.go:164-174 | after another writer won, the answer is that of one more append at the reread version, again among others' moves |
| `Reconcile.Controller.AppendResultEvent` | internal/controller/managed.go:158-189 | whoever interferes, the answer is the store's, or after one lost race that at the reread version; no refusal means the event is in the log, a refusal that this call appended nothing |
| `Reconcile.Controller.FailAction` | internal/controller/managed.go:385-408 | without a refusal the log holds this process's failure of the command with this outcome and reason under the controller's key |
| `Reconcile.Controller.CompleteAction` | internal/controller/managed.go:369-383 | without a refusal the log holds this process's completion that repeats the receipt in every field under the controller's key |
| `Reconcile.VerificationLaw` | internal/controller/managed.go:311-360 | a receipt is verified exactly if it proves the pending attempt, the reducer would take it, and its artifact is registered for it and intact |
| `Reconcile.Controller.Conclude` | internal/controller/managed.go:290-303 | a receipt verified on the database met is completed, any other fails the action as ambiguous; that append's answer is the answer |
| `Reconcile.Controller.RecordExecuted` | internal/controller/managed.go:279-309 | a receipt refused by the database met, as after a takeover, is the answer and appends nothing; otherwise the receipt kept claims the same and is concluded |
| `Reconcile.Controller.RunExecutor` | internal/controller/managed.go:264-276 | the executor's own error, a conflict with another registered artifact, or its receipt addressed to the action decides where the process goes |
| `Reconcile.Controller.ExecuteManagedAction` | internal/controller/managed.go:256-309 | an executor error leaves a plain failure with its reason, a receipt is concluded; the answer is that of the executor, the receipt table and the store, in this order |
| `Reconcile.Controller.RecoverPendingAction` | internal/controller/managed.go:192-254 | which result recovery leaves, by intent, receipt and scope found: cancel intent a plain failure, a verified receipt its completion, an unverified one or an unsafe action without one an ambiguous failure, a scoped action its execution; a paused Run is left alone |
| `Reconcile.Controller.LookUp` | internal/controller/managed.go:220-242 | the recovery decision is taken on the receipts of one moment of the call |
| `Reconcile.Controller.Reread` | internal/controller/managed.go:183-188 | a plan found already stored continues at the version of one moment of the call |
| `Reconcile.Controller.ExecutePlanned` | internal/controller/managed.go:141-145 | the planned command is executed on the Run read at one moment of the call |
| `Reconcile.Controller.LoadRun` | internal/controller/managed.go:94-97 | the Run worked on is the projection of one moment of the call |
| `Reconcile.Controller.AppendPlan` | internal/controller/managed.go:117-137 | the plan is appended at the loaded version to whatever database it meets, and the answer decides where the process goes |
| `Reconcile.Controller.PlanAction` | internal/controller/managed.go:105-146 | a plan that lost the race is no refusal and appends nothing; an invalid scope is refused; a plan stored or found stored is executed, and what that leaves and answers is the result |
| `Reconcile.Controller.Dispatch` | internal/controller/managed.go:100-146 | pending action, pause and decision of the loaded state fix answer and events as `Handled` lists |
| `Reconcile.Controller.ReconcileLeased` | internal/controller/managed.go:80-146 | one call, whatever others do meanwhile, is exactly one pass of its process in any machine over the database, keeps the guard of every schedule, and its answer, its events and the result it leaves are fixed by what it met at moments since it began, as `Outcome` lists |
| `Reconcile.CallsStayTransparent` | internal/controller/managed.go:80-146 | calls with a deterministic conforming executor, among quiet moves of others, keep the crash transparency invariant |
| `Executions.ExecutionsAccounted` | internal/controller/managed.go:256-309 | under every schedule an action was executed once for its receipt, once per result lost to a crash, to fencing, to an executor error or to a receipt not recorded, and once per result still held |
| `FailureCauses.AlwaysCaused` | internal/controller/managed.go:192-309 | under every schedule each plain failure in the log or on its way has an executor error or cancel intent before it |
| `FailureCauses.UnexplainedFailuresAreAmbiguous` | internal/controller/managed.go:242-253 | under every schedule each failure of an action whose executor never failed, and that no cancel intent preceded, is ambiguous |
| `UnsafeOnce.RecoveredMayRun` | internal/controller/managed.go:242-253 | recovery re-executes only actions planned as scoped |
| `UnsafeOnce.NeverReplanned` | internal/controller/managed.go:117-137 | a process never finds its own plan of a forward action already stored |
| `UnsafeOnce.SoleRunner` | internal/controller/managed.go:242-253 | two processes never hold the same unsafe action |
| `UnsafeOnce.GuardedAlong` | internal/controller/managed.go:80-309 | whatever the moves, a machine in which an unsafe plan can run only in the process that wrote it stays one |
| `UnsafeOnce.AlwaysGuarded` | internal/controller/managed.go:80-309 | every schedule, with operators, legacy controllers and lease facts, keeps the invariant that an unsafe plan can run only in the process that wrote it, and only if it never ran |
| `UnsafeOnce.UnsafeRunsOnce` | internal/controller/managed.go:242-253 | a forward action planned as unsafe is executed at most once under every schedule of crashes, takeovers, late processes and operator intent |
| `Chain.DeterministicConforms` | internal/controller/managed.go:479-502 | the deterministic executor conforms for every Run whose three outputs pass the credential scan |
| `Recovery.DeterministicHarmless` | internal/controller/managed.go:479-524 | and is harmless for every Run whose own twelve payloads pass it |
| `Chain.ChainSteady` | internal/controller/managed.go:80-309 | along the chain of forced events each event advances the Run by exactly one position |
| `Chain.ChainPlanKeys` | internal/controller/managed.go:117-126 | every plan of a chain carries its action's plan key |
| `Chain.ChainsAgree` | internal/controller/managed.go:80-309 | two chains with the same creation carry the same events and project the same state, up to signer and time |
| `Leader.StaleRefused` | internal/store/postgres.go:464-502 | every append of a process that lost its token is refused and changes nothing |
| `Leader.StaleReceipt` | internal/lease/postgres.go:355-357 | every receipt of such a process is refused and changes nothing |
| `Leader.AppendedPlan` | internal/controller/managed.go:117-146 | a stored plan extends the chain and is of an action no receipt exists for |
| `Leader.AppendedCompletion` | internal/controller/managed.go:301-303 | a stored completion extends the chain |
| `Leader.LeaderRecords` | internal/controller/managed.go:279-286 | with current authority the receipt of the pending action is always recorded |
| `Leader.EvidenceVerified` | internal/controller/managed.go:311-360 | the recorded receipt of the pending action always verifies |
| `CrashTransparency.AlwaysTransparent` | internal/controller/managed.go:80-309 | every quiet schedule keeps the log a chain and the lease holder's memory equal to the database |
| `CrashTransparency.CrashesFollowChain` | internal/controller/managed.go:80-309 | whatever crashes and takeovers happen, the log is the chain, at most thirteen events, Succeeded exactly at thirteen |
| `CrashTransparency.SchedulesAgree` | internal/controller/managed.go:21-27 | any two schedules for Runs created alike write the same events and, at equal length, the same state up to timestamps |
| `CrashTransparency.ExecutionsExact` | internal/controller/managed.go:264-289 | an action was executed once for its receipt plus once per crash after execution, per result fenced out and per result still held |
| `CrashTransparency.CompletedExecutions` | internal/controller/managed.go:264-309 | a completed action was executed exactly one time more than its results were lost to crashes and fencing or are still held |
| `Recovery.PlanStored` | internal/controller/managed.go:117-137 | the lease holder's plan is always stored |
| `Recovery.CompletionStored` | internal/controller/managed.go:301-303 | the lease holder's completion is always stored |
| `Recovery.StepProgresses` | internal/controller/managed.go:80-309 | every step of a worker that stays up brings the Run closer to Succeeded |
| `Recovery.HolderFinishes` | internal/controller/managed.go:77-79 | whatever else happens, every holder that keeps its lease, is not crashed and takes as many steps as are left has driven the Run to Succeeded |
| `Recovery.RecoveryCompletes` | internal/controller/managed.go:77-79 | after any schedule of crashes and takeovers one more worker can take over and drive the Run to Succeeded |
| `Recovery.DeterministicRun` | internal/controller/managed.go:477-524 | a Run created by the controller and worked by the deterministic executor writes its chain under every schedule of crashes and takeovers and can be finished, given only what can be checked of the Run beforehand |
| `Recovery.CreationIsFresh` | internal/controller/controller.go:61-68 | creating a Run gives the start the protocol theorems speak of |
| `Daemon.DockerDaemon.Create` | internal/sandbox/docker.go:684-766 | success names a landed container; failure leaves the create absent, in flight or landed |
| `Daemon.DockerDaemon.InspectName` | internal/sandbox/docker.go:851-891 | a truthful snapshot by name, or an error |
| `Daemon.DockerDaemon.InspectId` | internal/sandbox/docker.go:851-891 | a truthful snapshot by id, or an error |
| `Daemon.DockerDaemon.Remove` | internal/sandbox/docker.go:1012-1030 | success means gone, failure tells nothing; the call and its answer are recorded |
| `Daemon.LeftIsGone` | internal/sandbox/docker.go:948-994 | once a landed container has left, its name never stands for one again |
| `Sandbox.TrackedStays` | internal/sandbox/docker.go:768-779 | tracking survives anything the daemon does by itself |
| `Sandbox.TrackedCreate` | internal/sandbox/docker.go:411-435 | a create under a fresh tracked name keeps everything tracked, whatever came of it |
| `Sandbox.TrackedSettles` | internal/sandbox/docker.go:976-980 | an owned container under a tracked name is the one that name stands for |
| `Sandbox.TrackedForgets` | internal/sandbox/docker.go:967-975 | forgetting is safe exactly for names that no container can have any more |
| `Sandbox.DestroyedForGood` | internal/sandbox/docker.go:1163-1188 | once nothing is tracked, nothing remains and nothing lands later |
| `Sandbox.DockerSandbox.constructor` | internal/sandbox/docker.go:123-141 | a new sandbox tracks nothing and is owned |
| `Sandbox.DockerSandbox.RemoveOwnedContainer` | internal/sandbox/docker.go:1012-1030 | calls and answer: inspected by id, absent is removed, a stranger is left, an owned container is removed if the daemon says so; removed means gone |
| `Sandbox.DockerSandbox.SettleName` | internal/sandbox/docker.go:953-980 | the answer fixes what is tracked: an id is learned, a stranger settles the create as failed, absence and errors keep the name |
| `Sandbox.DockerSandbox.RemoveTrackedContainer` | internal/sandbox/docker.go:948-994 | calls and answer by name or by id; a name is untracked exactly if its last call settled it, and no other name is touched |
| `Sandbox.DockerSandbox.KillTrackedContainer` | internal/sandbox/docker.go:924-946 | only an owned container with a known id is killed; the answer is told by the calls; tracking stays |
| `Sandbox.DockerSandbox.StartOwnedContainer` | internal/sandbox/docker.go:900-922 | ownership is checked before the container is started, and only an owned one is |
| `Sandbox.DockerSandbox.CreateTracked` | internal/sandbox/docker.go:410-435 | the name is fresh and tracked before the create, with the id on success and uncertain otherwise |
| `Sandbox.DockerSandbox.CleanupFailedCreate` | internal/sandbox/docker.go:1092-1122 | up to five looks, stopping at the first error or container found; five absences release nothing |
| `Sandbox.DockerSandbox.Execute` | internal/sandbox/docker.go:387-435 | denied without touching the daemon once destruction started; otherwise created, started, killed if interrupted and removed in this order, and only its own name's tracking changes |
| `Sandbox.DockerSandbox.RunContainer` | internal/sandbox/docker.go:436-560 | the calls of a container that was created: started if owned, killed if interrupted, removed, and untracked if removed |
| `Sandbox.DockerSandbox.CleanupWorkspace` | internal/sandbox/docker.go:1247-1281 | a container of its own is created, started and removed; it succeeds exactly if the command ran well and its container is gone |
| `Sandbox.CleanupRan` | internal/sandbox/docker.go:1247-1281 | a cleanup that succeeded created its container, ran it well, and saw it gone or removed |
| `Sandbox.DockerSandbox.Untrack` | internal/sandbox/docker.go:1082-1087 | forgetting a removed container by name and id forgets no other |
| `Sandbox.DockerSandbox.RemoveRow` | internal/sandbox/docker.go:1055-1088 | a listed row is removed if it is this sandbox's, left alone otherwise; names are forgotten exactly for a removed one |
| `Sandbox.DockerSandbox.RemoveProviderOwnedContainers` | internal/sandbox/docker.go:1032-1090 | every listed row is handled, in order; it succeeds exactly if each did, and then none it listed is left; exactly the removed rows' names are forgotten |
| `Sandbox.DockerSandbox.RemoveAll` | internal/sandbox/docker.go:1148-1162 | every tracked name is swept once; it succeeds exactly if each sweep did; exactly the settled names are gone, and success leaves nothing, or in the first loop only names whose create is unsettled |
| `Sandbox.DockerSandbox.SweepName` | internal/sandbox/docker.go:1148-1162 | one name of a sweep: in the first loop killed before it is removed, and there an unsettled create is no failure |
| `Sandbox.DockerSandbox.ClearContainers` | internal/sandbox/docker.go:1147-1177 | sweep, scan, sweep, each on what the one before left, and a cleanup container exactly if all is clear and the workspace was provisioned |
| `Sandbox.DockerSandbox.RemoveAndAudit` | internal/sandbox/docker.go:1178-1200 | the git pointer is restored before the worktree goes and hidden again if it stays; removal converges whatever the restore said, and the answer needs restore and audit |
| `Sandbox.DockerSandbox.RemoveWorktree` | internal/sandbox/docker.go:1182-1182 | the worktree is only ever removed when no container of this sandbox remains or can land |
| `Sandbox.DockerSandbox.RecordDestroy` | internal/sandbox/docker.go:1230-1245 | audited only after destroyed |
| `Sandbox.DockerSandbox.ForgetProviderOwnership` | internal/sandbox/docker.go:1202-1208 | ownership is forgotten only after a destroyed and audited state |
| `Sandbox.DockerSandbox.Destroy` | internal/sandbox/docker.go:1124-1200 | one-way; repeated after an audited destruction it succeeds and asks nothing, after an unaudited one it only audits; otherwise calls, host calls, state and answer are those of clearing, cleaning, removing and auditing in this order; until destroyed, ownership is retained |
| `Stream.NormalizedStream.Recv` | internal/reasoner/stream.go:63-101 | yields exactly the normalized sequence, one event a call, then only end of file |
| `Stream.NormalizedStream.Close` | internal/reasoner/stream.go:103-108 | after Close only end of file |
| `Stream.StreamGrammar` | internal/reasoner/stream.go:110-192 | for any source: well-shaped non-terminal events with at most one Usage, then one Finish or Error; with tools Finish follows exactly one Usage; usage respects a positive limit |
| `StreamLaws.ShapeLaw` | internal/reasoner/stream.go:141-192 | exactly the well-shaped events pass, each with only its own variant; a refusal names the arguments exactly if they alone are wrong |
| `StreamLaws.RefusalLaw` | internal/reasoner/stream.go:110-139 | which class a request refuses a well-shaped event with, by contract, arguments, budget and usage seen, and which it accepts |
| `StreamLaws.NormalizeLaw` | internal/reasoner/stream.go:63-101 | events pass unchanged up to the first item that ends the turn, and the last event is that item or its error, with class and retryability |
| `Stream.ValidateRecordedTurn` | internal/reasoner/replay.go:120-149 | accepts exactly the well-formed turns |
| `Stream.ReplayFidelity` | internal/reasoner/replay.go:72-87 | a recorded turn comes out unchanged if and only if its calls and usage fit the request |
| `Stream.ReplayReasoner.Reason` | internal/reasoner/replay.go:72-87 | plays each turn once, in order, then one error |
| `CodingAgent.Collect` | internal/reasoner/reasoner.go:161-196 | for a stream in any state, fresh, half read or closed, the collected turn is the gathered view of what it still yields, or its terminal error |
| `CodingAgent.ValidatePhase5Request` | internal/reasoner/reasoner.go:234-284 | accepts exactly requests whose budget, tools and messages follow the rules |
| `StreamLaws.AuthorityLaw` | internal/reasoner/reasoner.go:256-282 | the only system authority in an accepted request is the agent's own contract at the front, and every tool message names its call |
| `CodingAgent.Run` | internal/reasoner/coding_agent.go:51-114 | the loop is the conversation defined turn by turn, for every model, tool service and caller |
| `CodingAgent.GatheredIsGood` | internal/reasoner/reasoner.go:181-194 | a collected turn has non-negative usage and well-formed calls |
| `Transcript.GatherLaw` | internal/reasoner/reasoner.go:161-196 | a collected turn's output joins the text deltas, its calls are in order, its usage and finish reason are the last reported |
| `Transcript.CollectedLaw` | internal/reasoner/reasoner.go:161-196 | a stream's turn collects to the error that ends it, or to its text, calls, usage and finish reason |
| `Transcript.InvokingLaw` | internal/reasoner/coding_agent.go:93-111 | a turn's calls are made in order up to the first that fails, and each answer names the call it answers |
| `Transcript.ConversationAccount` | internal/reasoner/coding_agent.go:62-113 | every conversation is accounted for turn by turn: asked with the transcript and budget left, answered call by call, and ended for the first reason to end |
| `Transcript.AnswerAddsUp` | internal/reasoner/coding_agent.go:62-113 | an answer's text, usage and call count are the concatenation and sums over its turns, and its transcript is theirs |
| `CodingAgent.ConversationWithinBudget` | internal/reasoner/coding_agent.go:64-113 | from any turn on, an answer is within the limit, no tool ran past it, and the transcript keeps the message rules |
| `CodingAgent.CumulativeBudget` | internal/reasoner/coding_agent.go:62-113 | a successful run spends at most the initial limit and no tool is invoked once it is exceeded |
| `CodingAgent.ZeroMeansNoLimit` | internal/reasoner/stream.go:126-132 | a stream asked with nothing remaining passes any well-shaped usage, so only the agent's own check enforces the budget |

## Left out

- Context cancellation and deadlines, except where the agent's loop reads its caller's context.
- Integer widths: versions, counts and token totals are unbounded, with the bigint bounds on versions and fencing tokens written out; a log of 2^63 events is not modelled.
- In-place mutation of `State` through a pointer: the reducer's helpers are functions from the state before to the state after, because the source discards the state on failure; aliasing of slices and maps is not captured, and the clone functions have no counterpart.
- `ValidateTransition` from a terminal status wraps two errors in the source; the model names the terminal one.
- SQL text, pools, isolation levels and lock mechanics; a transaction that fails for infrastructure reasons is one that did not happen.
- Rows of other Runs: foreign keys and uniqueness across Runs, worker heartbeats and lease listing.
- Checkpoint creation time, receipt and artifact timestamps, artifact paths and sizes; artifact bytes matter only through being intact.
- Error texts: refusals carry their class, and the reasons of verification failures are fixed texts.
- A crash inside the artifact executor between the artifact write and its return counts as a crash after execution.
- The managed-Run preflight of the compatibility Reconcile: the in-memory store has no lease table to inspect, and a controller with a lease manager refuses before reading.
- Crash transparency with lease facts, operator intent, unsafe scopes, failing executors, FailRun and CancelRun; those schedules are covered by the safety theorems only.
- CrashTransparency.SchedulesAgree: and the other crash transparency theorems assume that the safety policy scopes every command and that the executor conforms on the states this Run reaches: valid outputs, no negative cost, nothing the credential scan flags.
- Recovery.RecoveryCompletes: and `Recovery.HolderFinishes` assume besides that this Run's plans and completions pass the credential scan, that its action identities differ between its forward commands, and for taking over that the fencing token is not exhausted.
- CodingAgent.Collect: models normalized streams over finite sources, because a source that never ends keeps `Collect` waiting in the source as well.
- Sandbox.DockerSandbox.KillTrackedContainer: and starting are only their success or failure, because the model does not track whether a container runs.
- The retry loop of SetDesiredState, the CLI, demos, worker tickers and goroutines, the migration runner.
- Git worktree materialization, file permissions, Docker command lines, output limits and audit record contents.
- Tool schemas, policy rules, apply-patch guards, the Eino adapter, provider error classification and cassette metadata checks.
- Unsupported events (repair, approval resolution, tool call planning) are rejected by the reducer and have no further model.
