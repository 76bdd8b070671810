/**
  The durable vocabulary of a Run (internal/domain/types.go): intent, status,
  events, commands and the projected State. Every Go string enumeration is a
  datatype with one value for the empty string and one family for texts the
  source does not know, so malformed input stays expressible.
*/
module Types {

  datatype DesiredState =
    | DesiredUnset | DesiredRunning | DesiredPaused | DesiredCancelled
    | DesiredUnknown(code: nat)
  {
    predicate Valid() {
      DesiredRunning? || DesiredPaused? || DesiredCancelled?
    }
  }

  datatype Status =
    | NoStatus | Queued | Provisioning | Reasoning | Acting | Verifying | Repairing
    | WaitingApproval | Paused | Succeeded | Failed | Cancelled
  {
    predicate Terminal() {
      Succeeded? || Failed? || Cancelled?
    }
  }

  datatype CommandType =
    | NoCommand | Noop | StartAttempt | ProvisionWorkspace | RunReasoner | ApplyPatch
    | Verify | SucceedRun | FailRun | CancelRun
    | UnknownCommand(code: nat)

  datatype IdempotencyScope =
    | NoScope | ScopedIdempotent | Unsafe
    | UnknownScope(code: nat)
  {
    predicate Valid() {
      ScopedIdempotent? || Unsafe?
    }
  }

  datatype ActionOutcome =
    | NoOutcome | OutcomeFailed | OutcomeAmbiguous
    | UnknownOutcome(code: nat)

  datatype EventType =
    | RunCreated | DesiredStateChanged
    | LeaseAcquired | LeaseRenewed | LeaseExpired
    | AttemptStarted | WorkspaceProvisionPlanned | WorkspaceProvisioned
    | ReasoningPlanned | ReasoningCompleted
    | ToolCallPlanned | ToolCallCompleted | ToolCallFailed
    | PatchProduced
    | VerificationPlanned | VerificationPassed | VerificationFailed
    | RepairScheduled | ApprovalRequested | ApprovalResolved | CheckpointSaved
    | ActionPlanned | ActionCompleted | ActionFailed
    | RunSucceeded | RunFailed | RunCancelled
    | NoEvent | UnknownEvent(code: nat)
  {
    predicate LeaseFact() {
      LeaseAcquired? || LeaseRenewed? || LeaseExpired?
    }
  }

  datatype EventData = EventData(
    scenarioId: string, specHash: string, desired: DesiredState,
    attemptId: string, actionId: string, actionType: CommandType, scope: IdempotencyScope,
    receiptId: string, outcome: ActionOutcome,
    output: string, outputDigest: string, artifactId: string, artifactDigest: string,
    toolName: string, toolArguments: string, reason: string)

  const NO_DATA := EventData("", "", DesiredUnset, "", "", NoCommand, NoScope, "", NoOutcome,
                             "", "", "", "", "", "", "")

  datatype Event = Event(
    runId: string, seqNo: nat, kind: EventType, payloadVersion: int, data: EventData,
    key: string, causationId: string, correlationId: string,
    worker: string, token: nat, createdAt: string)

  const PAYLOAD_VERSION := 1

  datatype Run = Run(
    id: string, scenarioId: string, specHash: string,
    desired: DesiredState, observed: Status, currentAttempt: nat,
    version: nat, createdAt: string, updatedAt: string)

  /** `present` is the source's Exists flag. */
  datatype State = State(
    present: bool, run: Run, attemptId: string, resume: Status,
    pendingId: string, pendingType: CommandType, pendingAttempt: string, pendingScope: IdempotencyScope,
    lastCompletedId: string, lastReceiptId: string,
    reasoningOutput: string, toolName: string, toolArguments: string,
    patchProduced: bool, verificationPassed: bool,
    failureReason: string, lastEvent: EventType)

  const INITIAL := State(
    false, Run("", "", "", DesiredUnset, NoStatus, 0, 0, "", ""), "", NoStatus,
    "", NoCommand, "", NoScope, "", "", "", "", "", false, false, "", NoEvent)

  datatype Command = Command(kind: CommandType, runId: string, actionId: string, attemptId: string)

  datatype DomainError =
    | InvalidSequence | DuplicateIdempotencyKey | InvalidTransition | TerminalState
    | UnsupportedEvent | InvalidEvent

  type Text = s: string | s != "" witness "0"

  /** Truncated SHA-256 of the action identity material: an arbitrary function into non-empty text. */
  const ActionDigest: (string, CommandType, nat, string) -> Text

  /** SHA-256 over the canonical JSON of an inline output. */
  const DataDigest: EventData -> Text

  function Decimal(n: nat): (text: string)
    ensures text != ""
  {
    var digit := ['0' + (n % 10) as char];
    if n < 10 then digit else Decimal(n / 10) + digit
  }

  /** A Paused Run is judged by the state it will resume into. */
  function Logical(s: State): Status {
    if s.run.observed == Paused then s.resume else s.run.observed
  }
}
