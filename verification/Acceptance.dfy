/**
  Exactly which events a reachable state accepts, and exactly what each leaves,
  told by logical status, intent and flags rather than by the reducer's helpers.
*/
module Acceptance {
  import opened Types
  import opened Decider
  import opened Reducer
  import opened Projection
  import opened Lifecycle
  import opened Effects

  // ----- the decision -----

  /** Nothing to do, or nothing may be done without the operator. */
  predicate Resting(s: State) {
    || !s.present || s.run.observed.Terminal()
    || (s.run.desired != DesiredCancelled && (s.run.desired == DesiredPaused || s.run.observed == WaitingApproval))
  }

  /** The command of every reachable state, from intent, failure, stage and verification. */
  lemma DecideLaw(s: State)
    requires Reachable(s)
    ensures
      var c := Decide(s);
      if Resting(s) then c == Command(Noop, "", "", "")
      else if s.run.desired == DesiredCancelled then c.kind == CancelRun
      else if s.failureReason != "" then c.kind == FailRun
      else ForwardKind(c.kind) && StageOf(c.kind) == s.run.observed && (c.kind == SucceedRun <==> s.verificationPassed)
  {
  }

  /** Its identity: a digest of Run, kind and attempt, unless a legacy action of the stage is pending. */
  lemma DecideIdentity(s: State)
    requires Reachable(s) && Decide(s).kind != Noop
    ensures
      var c := Decide(s);
      && c.runId == s.run.id
      && c.attemptId == (if c.kind == StartAttempt then s.run.id + ":attempt:" + Decimal(s.run.currentAttempt + 1) else s.attemptId)
      && c.actionId == (if s.pendingId != "" && (c.kind == RunReasoner || c.kind == Verify) then s.pendingId
                        else ActionDigest(s.run.id, c.kind, s.run.currentAttempt, s.attemptId))
  {
  }

  /** A failure reason always ends in FailRun: nothing else is decided for a Run the operator lets run. */
  lemma FailureDecidesFailRun(s: State)
    requires Reachable(s) && s.present && s.run.desired == DesiredRunning && s.failureReason != ""
    ensures Decide(s).kind == FailRun <==> !s.run.observed.Terminal() && s.run.observed != WaitingApproval
  {
  }

  // ----- operator intent, creation and lease facts -----

  lemma CreationLaw(s: State, e: Event)
    ensures ApplyCreated(s, e).Ok? <==> !s.present
    ensures ApplyCreated(s, e).Ok? ==>
              var t := ApplyCreated(s, e).value;
              && t == INITIAL.(present := true, run := t.run)
              && t.run == Run(e.runId, e.data.scenarioId, e.data.specHash, DesiredRunning, Queued, 0, 0, e.createdAt, "")
  {
  }

  lemma LeaseFactLaw(s: State, e: Event)
    ensures ApplyLeaseFact(s, e).Ok? <==> s.present && e.worker != "" && e.token != 0
    ensures ApplyLeaseFact(s, e).Ok? ==> ApplyLeaseFact(s, e).value == s
  {
  }

  predicate IntentAccepted(s: State, desired: DesiredState) {
    && s.present && !s.run.observed.Terminal()
    && match desired
       case DesiredPaused => s.run.desired == DesiredRunning
       case DesiredRunning => s.run.desired == DesiredPaused
       case DesiredCancelled => s.run.desired != DesiredCancelled
       case _ => false
  }

  /** Running and Paused alternate; cancel comes once, from either. */
  lemma IntentLaw(s: State, desired: DesiredState)
    requires Reachable(s)
    ensures ApplyDesired(s, desired).Ok? <==> IntentAccepted(s, desired)
    ensures ApplyDesired(s, desired).Ok? ==>
              var t := ApplyDesired(s, desired).value;
              && t == s.(run := s.run.(desired := desired, observed := t.run.observed), resume := t.resume)
              && (desired == DesiredPaused ==> t.run.observed == Paused && t.resume == s.run.observed)
              && (desired == DesiredRunning ==> t.run.observed == s.resume && t.resume == NoStatus)
              && (desired == DesiredCancelled ==> t.run.observed == s.run.observed && t.resume == s.resume)
  {
  }

  // ----- managed actions -----

  /** A plan is accepted exactly if nothing is pending and it is the decided command. */
  lemma PlanLaw(s: State, d: EventData)
    requires Reachable(s)
    ensures ApplyActionPlanned(s, d).Ok? <==>
              var c := Decide(s);
              && s.pendingId == "" && d.scope.Valid() && c.kind != Noop
              && d.actionType == c.kind && d.actionId == c.actionId
              && (c.kind == StartAttempt ==> d.attemptId == c.attemptId)
  {
  }

  /** The status after, under the pause if there is one. */
  predicate Shifted(s: State, t: State, next: Status) {
    if s.run.observed == Paused then t.run.observed == Paused && t.resume == next
    else t.run.observed == next && t.resume == s.resume
  }

  /** What a failure keeps: everything but the pending action, the reason and the status. */
  lemma FailureLaw(s: State, d: EventData)
    requires Reachable(s)
    ensures ApplyActionFailed(s, d).Ok? <==>
              && s.pendingType != NoCommand && d.actionType == s.pendingType && d.actionId == s.pendingId
              && d.reason != "" && (d.outcome == OutcomeFailed || d.outcome == OutcomeAmbiguous)
    ensures ApplyActionFailed(s, d).Ok? ==>
              var t := ApplyActionFailed(s, d).value;
              && t == s.(pendingId := "", pendingType := NoCommand, pendingAttempt := "", pendingScope := NoScope,
                         failureReason := d.reason, run := s.run.(observed := t.run.observed), resume := t.resume)
              && Shifted(s, t, if d.outcome == OutcomeAmbiguous && s.run.desired != DesiredCancelled then WaitingApproval
                               else Logical(s))
  {
  }

  /** The payload a kind of result cannot do without. */
  predicate Carries(s: State, d: EventData) {
    match d.actionType
    case StartAttempt => d.attemptId != ""
    case RunReasoner => d.toolName != ""
    case FailRun => d.reason != "" || s.failureReason != ""
    case _ => true
  }

  /** A paused Run that already ended below its pause can be cancelled no more. */
  predicate EndedBelowPause(s: State) {
    s.pendingType == CancelRun && s.run.observed == Paused && s.resume.Terminal()
  }

  lemma CompletionAcceptance(s: State, d: EventData)
    requires Reachable(s)
    ensures ApplyActionCompleted(s, d).Ok? <==>
              && d.receiptId != "" && s.pendingType != NoCommand && d.actionType == s.pendingType && d.actionId == s.pendingId
              && (CancelWins(s, d) || (Carries(s, d) && !EndedBelowPause(s)))
  {
    hide Decide;
  }

  /** What an effective completion leaves, field by field. */
  ghost predicate Completed(s: State, d: EventData, t: State) {
    && t == s.(pendingId := "", pendingType := NoCommand, pendingAttempt := "", pendingScope := NoScope,
               lastCompletedId := d.actionId, lastReceiptId := d.receiptId,
               attemptId := if d.actionType == StartAttempt then d.attemptId else s.attemptId,
               reasoningOutput := if d.actionType == RunReasoner then d.output else s.reasoningOutput,
               toolName := if d.actionType == RunReasoner then d.toolName else s.toolName,
               toolArguments := if d.actionType == RunReasoner then d.toolArguments else s.toolArguments,
               patchProduced := s.patchProduced || d.actionType == ApplyPatch,
               verificationPassed := s.verificationPassed || d.actionType == Verify,
               failureReason := if d.actionType == FailRun && d.reason != "" then d.reason else s.failureReason,
               run := s.run.(observed := t.run.observed,
                             currentAttempt := if d.actionType == StartAttempt then s.run.currentAttempt + 1
                                               else s.run.currentAttempt),
               resume := t.resume)
    && Shifted(s, t, StatusAfter(d.actionType))
  }

  lemma CompletionLaw(s: State, d: EventData)
    requires Reachable(s) && ApplyActionCompleted(s, d).Ok?
    ensures
      var t := ApplyActionCompleted(s, d).value;
      if s.run.desired == DesiredCancelled && d.actionType != CancelRun then
        t == s.(pendingId := "", pendingType := NoCommand, pendingAttempt := "", pendingScope := NoScope,
                lastCompletedId := d.actionId, lastReceiptId := d.receiptId)
      else Completed(s, d, t)
  {
    hide Allowed, ProgressRules;
  }

  // ----- the legacy vocabulary -----

  predicate Operating(s: State, status: Status) {
    s.present && s.run.desired == DesiredRunning && s.run.observed == status
  }

  /** A result of what was planned is accepted under a pause too. */
  predicate AwaitedAt(s: State, status: Status, actionId: string) {
    s.present && s.run.desired != DesiredCancelled && Logical(s) == status && actionId != "" && actionId == s.pendingId
  }

  predicate LegacyAccepted(s: State, kind: EventType, d: EventData) {
    match kind
    case AttemptStarted => Operating(s, Queued) && d.attemptId != ""
    case WorkspaceProvisioned => Operating(s, Provisioning)
    case ReasoningPlanned => Operating(s, Reasoning) && d.actionId != "" && s.pendingId == ""
    case ReasoningCompleted => AwaitedAt(s, Reasoning, d.actionId) && d.toolName != ""
    case ToolCallFailed => AwaitedAt(s, Reasoning, d.actionId) && d.reason != ""
    case PatchProduced => Operating(s, Acting) && d.actionId != ""
    case VerificationPlanned => Operating(s, Verifying) && !s.verificationPassed && d.actionId != "" && s.pendingId == ""
    case VerificationPassed => AwaitedAt(s, Verifying, d.actionId)
    case RunSucceeded => Operating(s, Verifying) && s.verificationPassed
    case RunFailed =>
      s.present && s.run.desired == DesiredRunning && !s.run.observed.Terminal() && (d.reason != "" || s.failureReason != "")
    case RunCancelled => s.present && s.run.desired == DesiredCancelled && !s.run.observed.Terminal()
    case _ => false
  }

  /** Events that name a stage or an end rather than the result of a planned step. */
  predicate StageEvent(kind: EventType) {
    || kind.AttemptStarted? || kind.WorkspaceProvisioned? || kind.PatchProduced? || kind.RunSucceeded?
    || kind.RunFailed? || kind.RunCancelled?
  }

  lemma StageAcceptance(s: State, kind: EventType, d: EventData)
    requires Reachable(s) && s.pendingType == NoCommand && StageEvent(kind)
    ensures ApplyLegacy(s, kind, d).Ok? <==> LegacyAccepted(s, kind, d)
  {
  }

  lemma StepAcceptance(s: State, kind: EventType, d: EventData)
    requires Reachable(s) && s.pendingType == NoCommand && !StageEvent(kind)
    ensures ApplyLegacy(s, kind, d).Ok? <==> LegacyAccepted(s, kind, d)
  {
  }

  lemma LegacyAcceptance(s: State, kind: EventType, d: EventData)
    requires Reachable(s) && s.pendingType == NoCommand
    ensures ApplyLegacy(s, kind, d).Ok? <==> LegacyAccepted(s, kind, d)
  {
    hide ApplyLegacy, LegacyAccepted, Reachable;
    if StageEvent(kind) {
      StageAcceptance(s, kind, d);
    } else {
      StepAcceptance(s, kind, d);
    }
  }

  /** What a legacy event leaves, field by field. */
  ghost predicate LegacyDone(s: State, kind: EventType, d: EventData, t: State) {
    && t == s.(pendingId := match kind
                            case ReasoningPlanned => d.actionId
                            case VerificationPlanned => d.actionId
                            case ReasoningCompleted => ""
                            case ToolCallFailed => ""
                            case VerificationPassed => ""
                            case RunFailed => ""
                            case RunCancelled => ""
                            case _ => s.pendingId,
               attemptId := if kind == AttemptStarted then d.attemptId else s.attemptId,
               reasoningOutput := if kind == ReasoningCompleted then d.output else s.reasoningOutput,
               toolName := if kind == ReasoningCompleted then d.toolName else s.toolName,
               toolArguments := if kind == ReasoningCompleted then d.toolArguments else s.toolArguments,
               patchProduced := s.patchProduced || kind == PatchProduced,
               verificationPassed := s.verificationPassed || kind == VerificationPassed,
               failureReason := if (kind == ToolCallFailed || kind == RunFailed) && d.reason != "" then d.reason else s.failureReason,
               run := s.run.(observed := t.run.observed,
                             currentAttempt := if kind == AttemptStarted then s.run.currentAttempt + 1 else s.run.currentAttempt),
               resume := t.resume)
    && (if kind == RunFailed || kind == RunCancelled then t.run.observed == LegacyTo(kind) && t.resume == s.resume
        else Shifted(s, t, LegacyTo(kind)))
  }

  lemma StageLaw(s: State, kind: EventType, d: EventData)
    requires Reachable(s) && s.pendingType == NoCommand && StageEvent(kind) && ApplyLegacy(s, kind, d).Ok?
    ensures LegacyDone(s, kind, d, ApplyLegacy(s, kind, d).value)
  {
    hide Allowed;
  }

  lemma StepLaw(s: State, kind: EventType, d: EventData)
    requires Reachable(s) && s.pendingType == NoCommand && !StageEvent(kind) && ApplyLegacy(s, kind, d).Ok?
    ensures LegacyDone(s, kind, d, ApplyLegacy(s, kind, d).value)
  {
    hide Allowed;
  }

  lemma LegacyLaw(s: State, kind: EventType, d: EventData)
    requires Reachable(s) && s.pendingType == NoCommand && ApplyLegacy(s, kind, d).Ok?
    ensures LegacyDone(s, kind, d, ApplyLegacy(s, kind, d).value)
  {
    hide ApplyLegacy, LegacyDone, Reachable;
    if StageEvent(kind) {
      StageLaw(s, kind, d);
    } else {
      StepLaw(s, kind, d);
    }
  }

  // ----- the loop's own guards -----

  /** A managed action pending shuts out the whole legacy vocabulary. */
  lemma NoMixing(s: State, e: Event)
    requires s.pendingType != NoCommand && LegacyResult(e.kind)
    ensures ApplyEvent(s, e).Err?
  {
  }

  /** Nothing follows a terminal status, and the guards answer in the loop's order. */
  lemma GuardLaw(log: seq<Event>, e: Event)
    requires ValidLog(log)
    ensures
      var s, r := Final(log), Fold(log + [e]);
      && (e.seqNo != |log| + 1 ==> r == Err(InvalidSequence))
      && (e.seqNo == |log| + 1 && (e.runId == "" || e.key == "" || e.payloadVersion != 1) ==> r == Err(InvalidEvent))
      && (e.seqNo == |log| + 1 && e.runId != "" && e.key != "" && e.payloadVersion == 1 ==>
            if e.key in Keys(log) then r == Err(DuplicateIdempotencyKey)
            else if log != [] && e.runId != s.run.id then r == Err(InvalidEvent)
            else if s.run.observed.Terminal() then r == Err(TerminalState)
            else r.Ok? <==> ApplyEvent(s, e).Ok?)
  {
    hide ApplyEvent, Fold;
    FoldSnoc(log, e);
    ProjectionReachable(log);
  }
}
