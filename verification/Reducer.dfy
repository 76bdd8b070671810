/**
  Applying one event to the projection (internal/domain/reducer.go). The source
  mutates a State it discards on failure, so each helper is a function from the
  state before to the state after or an error.
*/
module Reducer {
  import opened Types
  import opened Decider

  /** The projection after an accepted event, or why it was rejected. */
  datatype Applied = Ok(value: State) | Err(error: DomainError)

  /** A rule an event has to satisfy. */
  datatype Check = Pass | Fail(error: DomainError)

  function Guard(condition: bool, error: DomainError): Check {
    if condition then Pass else Fail(error)
  }

  function Checked(check: Check, t: State): Applied {
    match check
    case Pass => Ok(t)
    case Fail(error) => Err(error)
  }

  predicate Allowed(from: Status, to: Status) {
    match from
    case NoStatus => to == Queued
    case Queued => to.Provisioning? || to.Paused? || to.WaitingApproval? || to.Failed? || to.Cancelled?
    case Provisioning => to.Reasoning? || to.Paused? || to.WaitingApproval? || to.Failed? || to.Cancelled?
    case Reasoning => to.Acting? || to.Paused? || to.WaitingApproval? || to.Failed? || to.Cancelled?
    case Acting => to.Verifying? || to.Paused? || to.WaitingApproval? || to.Failed? || to.Cancelled?
    case Verifying => to.Succeeded? || to.Repairing? || to.Paused? || to.WaitingApproval? || to.Failed? || to.Cancelled?
    case Repairing => to.Reasoning? || to.WaitingApproval? || to.Paused? || to.Failed? || to.Cancelled?
    case WaitingApproval => to.Reasoning? || to.Paused? || to.Failed? || to.Cancelled?
    case Paused => to != NoStatus && to != Paused
    case Succeeded => false
    case Failed => false
    case Cancelled => false
  }

  function ValidateTransition(from: Status, to: Status): Check {
    if from.Terminal() then Fail(TerminalState)
    else if Allowed(from, to) then Pass
    else Fail(InvalidTransition)
  }

  function Moved(s: State, next: Status): State {
    s.(run := s.run.(observed := next))
  }

  function Transition(s: State, next: Status): Applied {
    Checked(ValidateTransition(s.run.observed, next), Moved(s, next))
  }

  /** A Paused Run advances the state it will resume into. */
  function Advanced(s: State, next: Status): State {
    if s.run.observed == Paused then s.(resume := next) else Moved(s, next)
  }

  /** advanceManagedState, and advancePlannedResult for a legacy result. */
  function Advance(s: State, next: Status): Applied {
    Checked(ValidateTransition(Logical(s), next), Advanced(s, next))
  }

  predicate Active(s: State, expected: Status) {
    s.present && s.run.desired == DesiredRunning && s.run.observed == expected
  }

  /** requirePlannedResultState: active, or paused out of the expected status. */
  predicate AwaitsResult(s: State, expected: Status) {
    || Active(s, expected)
    || (s.present && s.run.desired == DesiredPaused && s.run.observed == Paused && s.resume == expected)
  }

  /** requirePendingAction. */
  predicate PendingIs(s: State, actionId: string) {
    actionId != "" && actionId == s.pendingId
  }

  predicate LegacyResult(kind: EventType) {
    || kind.AttemptStarted? || kind.WorkspaceProvisionPlanned? || kind.WorkspaceProvisioned?
    || kind.ReasoningPlanned? || kind.ReasoningCompleted?
    || kind.ToolCallPlanned? || kind.ToolCallCompleted? || kind.ToolCallFailed?
    || kind.PatchProduced?
    || kind.VerificationPlanned? || kind.VerificationPassed? || kind.VerificationFailed?
    || kind.RepairScheduled? || kind.ApprovalRequested? || kind.ApprovalResolved? || kind.CheckpointSaved?
    || kind.RunSucceeded? || kind.RunFailed? || kind.RunCancelled?
  }

  function ApplyCreated(s: State, e: Event): Applied {
    if s.present then Err(InvalidTransition)
    else
      Ok(INITIAL.(present := true,
                  run := Run(e.runId, e.data.scenarioId, e.data.specHash, DesiredRunning, Queued, 0, 0,
                             e.createdAt, "")))
  }

  function ApplyDesired(s: State, desired: DesiredState): Applied {
    if !s.present then Err(InvalidTransition)
    else if !desired.Valid() then Err(InvalidEvent)
    else if s.run.observed.Terminal() then Err(TerminalState)
    else
      match desired
      case DesiredPaused =>
        if s.run.desired == DesiredPaused || s.run.observed == Paused || s.run.desired == DesiredCancelled then
          Err(InvalidTransition)
        else
          Checked(ValidateTransition(s.run.observed, Paused),
                  s.(resume := s.run.observed, run := s.run.(observed := Paused, desired := DesiredPaused)))
      case DesiredRunning =>
        if s.run.desired != DesiredPaused || s.run.observed != Paused || s.resume == NoStatus then
          Err(InvalidTransition)
        else
          Checked(ValidateTransition(s.run.observed, s.resume),
                  s.(resume := NoStatus, run := s.run.(observed := s.resume, desired := DesiredRunning)))
      case _ =>
        if s.run.desired == DesiredCancelled then Err(InvalidTransition)
        else Ok(s.(run := s.run.(desired := DesiredCancelled)))
  }

  function ApplyLeaseFact(s: State, e: Event): Applied {
    if !s.present then Err(InvalidTransition)
    else if e.worker == "" || e.token == 0 then Err(InvalidEvent)
    else Ok(s)
  }

  predicate MatchesDecision(s: State, d: EventData) {
    var command := Decide(s);
    && command.kind != Noop
    && command.kind == d.actionType
    && command.actionId == d.actionId
    && (command.kind == StartAttempt ==> d.attemptId == command.attemptId)
  }

  function ApplyActionPlanned(s: State, d: EventData): Applied {
    if !s.present then Err(InvalidTransition)
    else if d.actionId == "" || d.actionType == NoCommand || !d.scope.Valid() then Err(InvalidEvent)
    else if s.pendingId != "" then Err(InvalidTransition)
    else if !MatchesDecision(s, d) then Err(InvalidTransition)
    else Ok(s.(pendingId := d.actionId, pendingType := d.actionType,
               pendingAttempt := d.attemptId, pendingScope := d.scope))
  }

  function ClearPending(s: State): State {
    s.(pendingId := "", pendingType := NoCommand, pendingAttempt := "", pendingScope := NoScope)
  }

  predicate ManagedPending(s: State, d: EventData) {
    d.actionId != "" && d.actionId == s.pendingId && d.actionType != NoCommand && d.actionType == s.pendingType
  }

  /** Cancel intent supersedes the effect, not the resolution, of an in-flight action. */
  predicate CancelWins(s: State, d: EventData) {
    s.run.desired == DesiredCancelled && d.actionType != CancelRun
  }

  function Recorded(s: State, d: EventData): State {
    ClearPending(s).(lastCompletedId := d.actionId, lastReceiptId := d.receiptId)
  }

  function ApplyActionCompleted(s: State, d: EventData): Applied {
    if d.receiptId == "" then Err(InvalidEvent)
    else if !ManagedPending(s, d) then Err(InvalidTransition)
    else if CancelWins(s, d) then Ok(Recorded(s, d))
    else
      match ApplyResult(s, d)
      case Ok(t) => Ok(Recorded(t, d))
      case Err(error) => Err(error)
  }

  function Reasoned(s: State, d: EventData): State {
    s.(reasoningOutput := d.output, toolName := d.toolName, toolArguments := d.toolArguments)
  }

  function Attempted(s: State, attemptId: string): State {
    s.(run := s.run.(currentAttempt := s.run.currentAttempt + 1), attemptId := attemptId)
  }

  /** applyCompletedActionResult. */
  function ApplyResult(s: State, d: EventData): Applied {
    match d.actionType
    case StartAttempt =>
      if d.attemptId == "" then Err(InvalidEvent)
      else if Logical(s) != Queued then Err(InvalidTransition)
      else Advance(Attempted(s, d.attemptId), Provisioning)
    case ProvisionWorkspace =>
      if Logical(s) != Provisioning then Err(InvalidTransition)
      else Advance(s, Reasoning)
    case RunReasoner =>
      if Logical(s) != Reasoning then Err(InvalidTransition)
      else if d.toolName == "" then Err(InvalidEvent)
      else Advance(Reasoned(s, d), Acting)
    case ApplyPatch =>
      if Logical(s) != Acting then Err(InvalidTransition)
      else Advance(s.(patchProduced := true), Verifying)
    case Verify =>
      if Logical(s) != Verifying then Err(InvalidTransition)
      else Ok(s.(verificationPassed := true))
    case SucceedRun =>
      if Logical(s) != Verifying || !s.verificationPassed then Err(InvalidTransition)
      else Advance(s, Succeeded)
    case FailRun =>
      if s.failureReason == "" && d.reason == "" then Err(InvalidEvent)
      else Advance(s.(failureReason := if d.reason != "" then d.reason else s.failureReason), Failed)
    case CancelRun =>
      if s.run.desired != DesiredCancelled then Err(InvalidTransition)
      else Advance(s, Cancelled)
    case _ => Err(InvalidEvent)
  }

  function ApplyActionFailed(s: State, d: EventData): Applied {
    if !ManagedPending(s, d) then Err(InvalidTransition)
    else if d.reason == "" || (d.outcome != OutcomeFailed && d.outcome != OutcomeAmbiguous) then Err(InvalidEvent)
    else
      var t := ClearPending(s).(failureReason := d.reason);
      if d.outcome == OutcomeAmbiguous && s.run.desired != DesiredCancelled then Advance(t, WaitingApproval)
      else Ok(t)
  }

  /** The legacy vocabulary: results named by lifecycle stage rather than by action. */
  function ApplyLegacy(s: State, kind: EventType, d: EventData): Applied {
    match kind
    case AttemptStarted =>
      if !Active(s, Queued) then Err(InvalidTransition)
      else if d.attemptId == "" then Err(InvalidEvent)
      else Transition(Attempted(s, d.attemptId), Provisioning)
    case WorkspaceProvisioned =>
      if !Active(s, Provisioning) then Err(InvalidTransition)
      else Transition(s, Reasoning)
    case ReasoningPlanned =>
      if !Active(s, Reasoning) then Err(InvalidTransition)
      else if d.actionId == "" then Err(InvalidEvent)
      else if s.pendingId != "" then Err(InvalidTransition)
      else Ok(s.(pendingId := d.actionId))
    case ReasoningCompleted =>
      if !AwaitsResult(s, Reasoning) || !PendingIs(s, d.actionId) then Err(InvalidTransition)
      else if d.toolName == "" then Err(InvalidEvent)
      else Advance(Reasoned(s, d).(pendingId := ""), Acting)
    case ToolCallFailed =>
      if !AwaitsResult(s, Reasoning) || !PendingIs(s, d.actionId) then Err(InvalidTransition)
      else if d.reason == "" then Err(InvalidEvent)
      else Ok(s.(pendingId := "", failureReason := d.reason))
    case PatchProduced =>
      if !Active(s, Acting) then Err(InvalidTransition)
      else if d.actionId == "" then Err(InvalidEvent)
      else Transition(s.(patchProduced := true), Verifying)
    case VerificationPlanned =>
      if !Active(s, Verifying) || s.verificationPassed then Err(InvalidTransition)
      else if d.actionId == "" then Err(InvalidEvent)
      else if s.pendingId != "" then Err(InvalidTransition)
      else Ok(s.(pendingId := d.actionId))
    case VerificationPassed =>
      if !AwaitsResult(s, Verifying) || !PendingIs(s, d.actionId) then Err(InvalidTransition)
      else Ok(s.(pendingId := "", verificationPassed := true))
    case RunSucceeded =>
      if !Active(s, Verifying) || !s.verificationPassed || s.pendingId != "" then Err(InvalidTransition)
      else Transition(s, Succeeded)
    case RunFailed =>
      if !s.present || s.run.desired != DesiredRunning then Err(InvalidTransition)
      else if d.reason == "" && s.failureReason == "" then Err(InvalidEvent)
      else Transition(s.(failureReason := if d.reason != "" then d.reason else s.failureReason, pendingId := ""), Failed)
    case RunCancelled =>
      if !s.present || s.run.desired != DesiredCancelled then Err(InvalidTransition)
      else Transition(s.(pendingId := ""), Cancelled)
    case _ => Err(UnsupportedEvent)
  }

  function ApplyEvent(s: State, e: Event): Applied {
    if s.pendingType != NoCommand && LegacyResult(e.kind) then Err(InvalidTransition)
    else if e.kind == RunCreated then ApplyCreated(s, e)
    else if e.kind == DesiredStateChanged then ApplyDesired(s, e.data.desired)
    else if e.kind.LeaseFact() then ApplyLeaseFact(s, e)
    else if e.kind == ActionPlanned then ApplyActionPlanned(s, e.data)
    else if e.kind == ActionCompleted then ApplyActionCompleted(s, e.data)
    else if e.kind == ActionFailed then ApplyActionFailed(s, e.data)
    else ApplyLegacy(s, e.kind, e.data)
  }

  /** What Reduce records about every accepted event besides its effect. */
  function Stamp(s: State, e: Event): State {
    s.(run := s.run.(version := e.seqNo,
                     updatedAt := if e.createdAt != "" then e.createdAt else s.run.updatedAt),
       lastEvent := e.kind)
  }

  function ValidateActionCompletion(s: State, d: EventData): Check {
    match ApplyActionCompleted(s, d)
    case Ok(_) => Pass
    case Err(error) => Fail(error)
  }
}
