/**
  What each family of events does to a reachable state, told by logical status.
  Later modules use these summaries instead of the bodies.
*/
module Effects {
  import opened Types
  import opened Decider
  import opened Reducer
  import opened Lifecycle

  /** The logical status an effective completion of this kind leads to. */
  function StatusAfter(kind: CommandType): Status {
    match kind
    case StartAttempt => Provisioning
    case ProvisionWorkspace => Reasoning
    case RunReasoner => Acting
    case ApplyPatch => Verifying
    case Verify => Verifying
    case SucceedRun => Succeeded
    case FailRun => Failed
    case CancelRun => Cancelled
    case _ => NoStatus
  }

  lemma ResultEffect(s: State, d: EventData)
    requires Reachable(s) && ManagedPending(s, d) && ApplyResult(s, d).Ok?
    ensures
      var t := ApplyResult(s, d).value;
      && Logical(t) == StatusAfter(d.actionType)
      && t.run.desired == s.run.desired
      && t.failureReason == (if d.actionType == FailRun && d.reason != "" then d.reason else s.failureReason)
      && t.verificationPassed == (s.verificationPassed || d.actionType == Verify)
  {
    hide Allowed;
  }

  /** A completion clears the pending action and, unless cancel wins, moves the logical status of its kind. */
  lemma CompletionEffect(s: State, d: EventData)
    requires Reachable(s) && ApplyActionCompleted(s, d).Ok?
    ensures
      var t := ApplyActionCompleted(s, d).value;
      && ManagedPending(s, d)
      && t.pendingId == "" && t.pendingType == NoCommand
      && Logical(t) == (if CancelWins(s, d) then Logical(s) else StatusAfter(d.actionType))
      && t.run.desired == s.run.desired
      && (t.failureReason == "" <==> s.failureReason == "")
      && t.verificationPassed == (s.verificationPassed || (d.actionType == Verify && !CancelWins(s, d)))
  {
    hide ApplyResult;
    if !CancelWins(s, d) {
      ResultEffect(s, d);
    }
  }

  /** The status a legacy event requires, and the one it leads to. */
  function LegacyFrom(kind: EventType): Status {
    match kind
    case AttemptStarted => Queued
    case WorkspaceProvisioned => Provisioning
    case ReasoningPlanned => Reasoning
    case ReasoningCompleted => Reasoning
    case ToolCallFailed => Reasoning
    case PatchProduced => Acting
    case VerificationPlanned => Verifying
    case VerificationPassed => Verifying
    case RunSucceeded => Verifying
    case _ => NoStatus
  }

  function LegacyTo(kind: EventType): Status {
    match kind
    case AttemptStarted => Provisioning
    case WorkspaceProvisioned => Reasoning
    case ReasoningCompleted => Acting
    case PatchProduced => Verifying
    case RunSucceeded => Succeeded
    case RunFailed => Failed
    case RunCancelled => Cancelled
    case _ => LegacyFrom(kind)
  }

  ghost predicate LegacyStep(s: State, kind: EventType, d: EventData, t: State) {
    && LegacyResult(kind)
    && (kind == RunFailed || kind == RunCancelled || (LegacyFrom(kind) != NoStatus && Logical(s) == LegacyFrom(kind)))
    && Logical(t) == LegacyTo(kind)
    && t.run.desired == s.run.desired
    && (s.failureReason != "" ==> t.failureReason != "")
    && t.verificationPassed == (s.verificationPassed || kind == VerificationPassed)
    && t.pendingType == s.pendingType
    && (kind == ReasoningCompleted ==> d.toolName != "")
    && (kind == RunSucceeded ==> s.verificationPassed)
  }

  lemma LegacyStageEffect(s: State, kind: EventType, d: EventData)
    requires ApplyLegacy(s, kind, d).Ok?
    requires kind.AttemptStarted? || kind.WorkspaceProvisioned? || kind.PatchProduced? || kind.RunSucceeded?
             || kind.RunFailed? || kind.RunCancelled?
    ensures LegacyStep(s, kind, d, ApplyLegacy(s, kind, d).value)
  {
    hide Allowed;
  }

  lemma LegacyResultEffect(s: State, kind: EventType, d: EventData)
    requires ApplyLegacy(s, kind, d).Ok?
    requires !(kind.AttemptStarted? || kind.WorkspaceProvisioned? || kind.PatchProduced? || kind.RunSucceeded?
               || kind.RunFailed? || kind.RunCancelled?)
    ensures LegacyStep(s, kind, d, ApplyLegacy(s, kind, d).value)
  {
    hide Allowed;
  }

  lemma LegacyEffect(s: State, kind: EventType, d: EventData)
    requires ApplyLegacy(s, kind, d).Ok?
    ensures LegacyStep(s, kind, d, ApplyLegacy(s, kind, d).value)
  {
    hide ApplyLegacy, LegacyStep;
    if kind.AttemptStarted? || kind.WorkspaceProvisioned? || kind.PatchProduced? || kind.RunSucceeded?
       || kind.RunFailed? || kind.RunCancelled? {
      LegacyStageEffect(s, kind, d);
    } else {
      LegacyResultEffect(s, kind, d);
    }
  }

  lemma FailureEffect(s: State, d: EventData)
    requires Reachable(s) && ApplyActionFailed(s, d).Ok?
    ensures
      var t := ApplyActionFailed(s, d).value;
      && ManagedPending(s, d)
      && t.pendingId == "" && t.pendingType == NoCommand
      && Logical(t) == (if d.outcome == OutcomeAmbiguous && s.run.desired != DesiredCancelled then WaitingApproval else Logical(s))
      && t.run.desired == s.run.desired
      && t.failureReason == d.reason != ""
      && t.verificationPassed == s.verificationPassed
  {
    hide Allowed;
  }

  /** Operator intent never changes the logical status or the work done. */
  lemma DesiredEffect(s: State, desired: DesiredState)
    requires Reachable(s) && ApplyDesired(s, desired).Ok?
    ensures
      var t := ApplyDesired(s, desired).value;
      && Logical(t) == Logical(s)
      && t.run.desired == desired
      && t == s.(run := s.run.(desired := desired, observed := t.run.observed), resume := t.resume)
      && s.run.desired != DesiredCancelled
  {
    hide Allowed;
  }

  lemma PlanEffect(s: State, d: EventData)
    requires Reachable(s) && ApplyActionPlanned(s, d).Ok?
    ensures
      var t := ApplyActionPlanned(s, d).value;
      && t == s.(pendingId := d.actionId, pendingType := d.actionType,
                 pendingAttempt := d.attemptId, pendingScope := d.scope)
      && s.present && s.pendingId == "" && s.pendingType == NoCommand && d.actionId != "" && d.actionType != NoCommand
      && Decide(s).kind == d.actionType && Decide(s).actionId == d.actionId
  {
  }

  lemma PlanApplies(s: State, e: Event)
    requires e.kind == ActionPlanned
    ensures ApplyEvent(s, e) == ApplyActionPlanned(s, e.data)
  {
    hide ApplyActionPlanned;
  }

  lemma CompletionApplies(s: State, e: Event)
    requires e.kind == ActionCompleted
    ensures ApplyEvent(s, e) == ApplyActionCompleted(s, e.data)
  {
    hide ApplyActionCompleted;
  }
}
