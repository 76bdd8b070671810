/**
  The invariant of every reachable projection. It ties the pending action to the
  logical status, the operator intent and the progress flags, and is what the
  remaining modules use about states.
*/
module Lifecycle {
  import opened Types
  import opened Reducer
  import opened Projection

  /** The status in which a managed action of this kind is planned and completed. */
  function StageOf(kind: CommandType): Status {
    match kind
    case StartAttempt => Queued
    case ProvisionWorkspace => Provisioning
    case RunReasoner => Reasoning
    case ApplyPatch => Acting
    case Verify => Verifying
    case SucceedRun => Verifying
    case _ => NoStatus
  }

  predicate ForwardKind(kind: CommandType) {
    StageOf(kind) != NoStatus
  }

  ghost predicate StatusRules(s: State) {
    && s.run.desired.Valid()
    && s.run.observed != NoStatus && s.run.observed != Repairing
    && (s.run.desired == DesiredRunning ==> s.run.observed != Paused)
    && (s.run.desired == DesiredPaused ==> s.run.observed == Paused)
    && (s.run.observed == Cancelled ==> s.run.desired == DesiredCancelled)
    && (s.run.observed == Paused ==> s.resume != NoStatus && s.resume != Paused && s.resume != Repairing)
    && (s.run.observed != Paused && s.run.observed != Cancelled ==> s.resume == NoStatus)
    && (s.resume == Cancelled ==> s.run.desired == DesiredCancelled)
  }

  ghost predicate ProgressRules(s: State) {
    var at := Logical(s);
    && s.run.currentAttempt <= 1
    && (s.run.currentAttempt == 0 <==> s.attemptId == "")
    && (at == Queued ==> s.run.currentAttempt == 0)
    && ((at.Provisioning? || at.Reasoning? || at.Acting? || at.Verifying? || at.Succeeded?) ==> s.run.currentAttempt == 1)
    && ((at.Acting? || at.Verifying? || at.Succeeded?) ==> s.toolName != "")
    && ((at.Queued? || at.Provisioning? || at.Reasoning?) ==> s.toolName == "" && s.toolArguments == "" && s.reasoningOutput == "")
    && ((at.Verifying? || at.Succeeded?) ==> s.patchProduced)
    && ((at.Queued? || at.Provisioning? || at.Reasoning? || at.Acting?) ==> !s.patchProduced && !s.verificationPassed)
    && (at == Succeeded ==> s.verificationPassed)
    && (at == WaitingApproval ==> s.failureReason != "")
  }

  ghost predicate PendingRules(s: State) {
    var at := Logical(s);
    && (s.pendingType == NoCommand ==> s.pendingScope == NoScope && s.pendingAttempt == "")
    && (s.pendingType != NoCommand ==> s.pendingId != "" && s.pendingScope.Valid())
    && (s.pendingType == NoCommand && s.pendingId != "" ==>
          at == Reasoning || (at == Verifying && !s.verificationPassed))
    && (s.pendingType != NoCommand ==>
          ForwardKind(s.pendingType) || s.pendingType == FailRun || s.pendingType == CancelRun)
    && (ForwardKind(s.pendingType) ==> at == StageOf(s.pendingType) && s.failureReason == "")
    && (s.pendingType == StartAttempt ==> s.pendingAttempt != "")
    && (s.pendingType == Verify ==> !s.verificationPassed)
    && (s.pendingType == SucceedRun ==> s.verificationPassed)
    && (s.pendingType == FailRun ==> (at.Queued? || at.Provisioning? || at.Reasoning? || at.Acting? || at.Verifying?) && s.failureReason != "")
    && (s.pendingType == CancelRun ==> s.run.desired == DesiredCancelled)
    && (s.run.observed.Terminal() ==> s.pendingId == "")
    && (at.Terminal() && s.pendingId != "" ==> s.pendingType == CancelRun)
  }

  /** Which Run a projection describes never changes. */
  ghost predicate SameRun(s: State, t: State) {
    t.present && t.run.id == s.run.id && t.run.createdAt == s.run.createdAt
  }

  ghost predicate Reachable(s: State) {
    if s.present then s.run.id != "" && StatusRules(s) && ProgressRules(s) && PendingRules(s)
    else s == INITIAL
  }

  lemma CreatedKeeps(s: State, e: Event)
    requires Reachable(s) && e.runId != "" && ApplyCreated(s, e).Ok?
    ensures Reachable(ApplyCreated(s, e).value) && ApplyCreated(s, e).value.present && !s.present
  {
  }

  lemma DesiredKeeps(s: State, desired: DesiredState)
    requires Reachable(s) && ApplyDesired(s, desired).Ok?
    ensures Reachable(ApplyDesired(s, desired).value) && SameRun(s, ApplyDesired(s, desired).value)
  {
  }

  lemma PlannedKeeps(s: State, d: EventData)
    requires Reachable(s) && ApplyActionPlanned(s, d).Ok?
    ensures Reachable(ApplyActionPlanned(s, d).value) && SameRun(s, ApplyActionPlanned(s, d).value)
  {
  }

  /** Advancing moves only the logical status, paused or not. */
  lemma AdvanceEffect(s: State, next: Status)
    requires StatusRules(s) && Advance(s, next).Ok?
    requires next != NoStatus && next != Paused && next != Repairing
    requires next == Cancelled ==> s.run.desired == DesiredCancelled
    ensures
      var t := Advance(s, next).value;
      && t == s.(run := s.run.(observed := t.run.observed), resume := t.resume)
      && StatusRules(t)
      && Logical(t) == next
      && (t.run.observed != s.run.observed ==> t.run.observed == next && s.run.observed != Paused)
  {
  }

  lemma CompletedKeeps(s: State, d: EventData)
    requires Reachable(s) && ApplyActionCompleted(s, d).Ok?
    ensures Reachable(ApplyActionCompleted(s, d).value) && SameRun(s, ApplyActionCompleted(s, d).value)
  {
    hide ApplyResult;
    if CancelWins(s, d) {
      ClearingKeeps(s, d);
    } else {
      ResultKeeps(s, d);
      RecordedReachable(ApplyResult(s, d).value, d);
    }
  }

  /** Cancel wins: only the pending action is gone. */
  lemma ClearingKeeps(s: State, d: EventData)
    requires Reachable(s) && s.present
    ensures Reachable(Recorded(s, d)) && SameRun(s, Recorded(s, d))
  {
  }

  lemma RecordedReachable(t: State, d: EventData)
    requires Resolved(t)
    ensures Reachable(Recorded(t, d)) && SameRun(t, Recorded(t, d))
  {
  }

  /** The state between a result and the clearing of its pending action. */
  ghost predicate Resolved(t: State) {
    t.present && t.run.id != "" && StatusRules(t) && ProgressRules(t)
  }

  lemma ForwardResultKeeps(s: State, d: EventData)
    requires Reachable(s) && ManagedPending(s, d) && ApplyResult(s, d).Ok?
    requires ForwardKind(d.actionType) && d.actionType != SucceedRun
    ensures Resolved(ApplyResult(s, d).value) && SameRun(s, ApplyResult(s, d).value)
  {
    hide Advance;
    match d.actionType
    case StartAttempt => AdvanceEffect(Attempted(s, d.attemptId), Provisioning);
    case ProvisionWorkspace => AdvanceEffect(s, Reasoning);
    case RunReasoner => AdvanceEffect(Reasoned(s, d), Acting);
    case ApplyPatch => AdvanceEffect(s.(patchProduced := true), Verifying);
    case Verify =>
  }

  lemma ResultKeeps(s: State, d: EventData)
    requires Reachable(s) && ManagedPending(s, d) && ApplyResult(s, d).Ok?
    ensures Resolved(ApplyResult(s, d).value) && SameRun(s, ApplyResult(s, d).value)
  {
    hide Advance;
    match d.actionType
    case SucceedRun => AdvanceEffect(s, Succeeded);
    case FailRun => AdvanceEffect(s.(failureReason := if d.reason != "" then d.reason else s.failureReason), Failed);
    case CancelRun => AdvanceEffect(s, Cancelled);
    case _ => ForwardResultKeeps(s, d);
  }

  lemma FailedKeeps(s: State, d: EventData)
    requires Reachable(s) && ApplyActionFailed(s, d).Ok?
    ensures Reachable(ApplyActionFailed(s, d).value) && SameRun(s, ApplyActionFailed(s, d).value)
  {
    hide Advance;
    var t := ClearPending(s).(failureReason := d.reason);
    assert StatusRules(t);
    if Advance(t, WaitingApproval).Ok? {
      AdvanceEffect(t, WaitingApproval);
    }
  }

  lemma LegacyStageKeeps(s: State, kind: EventType, d: EventData)
    requires Reachable(s) && s.pendingType == NoCommand
    requires kind.AttemptStarted? || kind.WorkspaceProvisioned? || kind.PatchProduced? || kind.RunSucceeded?
    requires ApplyLegacy(s, kind, d).Ok?
    ensures Reachable(ApplyLegacy(s, kind, d).value) && SameRun(s, ApplyLegacy(s, kind, d).value)
  {
  }

  lemma LegacyResultKeeps(s: State, kind: EventType, d: EventData)
    requires Reachable(s) && s.pendingType == NoCommand
    requires kind.ReasoningCompleted? || kind.ToolCallFailed? || kind.VerificationPassed?
    requires ApplyLegacy(s, kind, d).Ok?
    ensures Reachable(ApplyLegacy(s, kind, d).value) && SameRun(s, ApplyLegacy(s, kind, d).value)
  {
  }

  lemma LegacyOtherKeeps(s: State, kind: EventType, d: EventData)
    requires Reachable(s) && s.pendingType == NoCommand
    requires kind.ReasoningPlanned? || kind.VerificationPlanned? || kind.RunFailed? || kind.RunCancelled?
    requires ApplyLegacy(s, kind, d).Ok?
    ensures Reachable(ApplyLegacy(s, kind, d).value) && SameRun(s, ApplyLegacy(s, kind, d).value)
  {
  }

  lemma LegacyKeeps(s: State, kind: EventType, d: EventData)
    requires Reachable(s) && ApplyLegacy(s, kind, d).Ok?
    requires LegacyResult(kind) ==> s.pendingType == NoCommand
    ensures Reachable(ApplyLegacy(s, kind, d).value) && SameRun(s, ApplyLegacy(s, kind, d).value)
  {
    if kind.AttemptStarted? || kind.WorkspaceProvisioned? || kind.PatchProduced? || kind.RunSucceeded? {
      LegacyStageKeeps(s, kind, d);
    } else if kind.ReasoningCompleted? || kind.ToolCallFailed? || kind.VerificationPassed? {
      LegacyResultKeeps(s, kind, d);
    } else {
      LegacyOtherKeeps(s, kind, d);
    }
  }

  lemma LeaseFactKeeps(s: State, e: Event)
    requires ApplyLeaseFact(s, e).Ok?
    ensures ApplyLeaseFact(s, e).value == s && s.present
  {
  }

  lemma ApplyKeeps(s: State, e: Event)
    requires Reachable(s) && e.runId != "" && ApplyEvent(s, e).Ok?
    ensures Reachable(ApplyEvent(s, e).value) && ApplyEvent(s, e).value.present
    ensures s.present ==> SameRun(s, ApplyEvent(s, e).value)
  {
    hide ApplyCreated, ApplyDesired, ApplyLeaseFact, ApplyActionPlanned, ApplyActionCompleted, ApplyActionFailed, ApplyLegacy;
    if e.kind == RunCreated {
      CreatedKeeps(s, e);
    } else if e.kind == DesiredStateChanged {
      DesiredKeeps(s, e.data.desired);
    } else if e.kind == ActionPlanned {
      PlannedKeeps(s, e.data);
    } else if e.kind == ActionCompleted {
      CompletedKeeps(s, e.data);
    } else if e.kind == ActionFailed {
      FailedKeeps(s, e.data);
    } else if e.kind.LeaseFact() {
      LeaseFactKeeps(s, e);
    } else {
      LegacyKeeps(s, e.kind, e.data);
    }
  }

  lemma StepKeeps(s: State, e: Event, seen: set<string>, expected: nat)
    requires Reachable(s) && Step(s, e, seen, expected).Ok?
    ensures
      var t := Step(s, e, seen, expected).value;
      Reachable(t) && t.present && t.run.version == expected && (s.present ==> SameRun(s, t))
  {
    hide ApplyEvent;
    ApplyKeeps(s, e);
  }

  /** Every valid log projects into a reachable state. */
  lemma {:induction false} ProjectionReachable(log: seq<Event>)
    requires ValidLog(log)
    ensures Reachable(Final(log))
    ensures Final(log).present <==> log != []
    ensures Final(log).run.version == |log|
  {
    hide Step;
    if log != [] {
      var n := |log| - 1;
      ProjectionReachable(log[..n]);
      StepKeeps(Final(log[..n]), log[n], Keys(log[..n]), n + 1);
    }
  }

  /** Reading one event of a valid log: the state before it, and how it was applied. */
  lemma StepAt(log: seq<Event>, n: nat)
    requires ValidLog(log) && n < |log|
    ensures ValidLog(log[..n]) && ValidLog(log[..n + 1])
    ensures
      var s, e := Final(log[..n]), log[n];
      && Reachable(s) && (s.present <==> n > 0)
      && (s.present ==> !s.run.observed.Terminal() && e.runId == s.run.id)
      && e.key !in Keys(log[..n]) && e.seqNo == n + 1 && e.runId != ""
      && ApplyEvent(s, e).Ok?
      && Final(log[..n + 1]) == Stamp(ApplyEvent(s, e).value, e)
  {
    hide ApplyEvent;
    PrefixValid(log, n);
    PrefixValid(log, n + 1);
    assert log[..n + 1] == log[..n] + [log[n]];
    FoldSnoc(log[..n], log[n]);
    ProjectionReachable(log[..n]);
  }

  /** Two events of a valid log have different keys. */
  lemma KeysDistinct(log: seq<Event>, i: nat, j: nat)
    requires ValidLog(log) && i < j < |log|
    ensures log[i].key != log[j].key
  {
    hide ApplyEvent, Fold, Stamp, Reachable;
    StepAt(log, j);
    assert log[..j][i] == log[i];
  }
}
