/** Every forward action is planned at most once in a valid log. */
module PlanOnce {
  import opened Types
  import opened Decider
  import opened Reducer
  import opened Projection
  import opened Lifecycle
  import opened Effects

  function Rank(status: Status): nat {
    match status
    case Queued => 0
    case Provisioning => 1
    case Reasoning => 2
    case Acting => 3
    case Verifying => 4
    case _ => 5
  }

  /** An action of this kind is pending, was overtaken, or can never be decided again. */
  ghost predicate Used(s: State, kind: CommandType) {
    || s.pendingType == kind
    || Rank(Logical(s)) > Rank(StageOf(kind))
    || s.failureReason != "" || s.run.desired == DesiredCancelled
    || (kind == Verify && s.verificationPassed)
  }

  lemma UsedAfterLegacy(s: State, e: EventType, d: EventData, kind: CommandType)
    requires Reachable(s) && s.pendingType == NoCommand && ForwardKind(kind) && Used(s, kind)
    requires ApplyLegacy(s, e, d).Ok?
    ensures Used(ApplyLegacy(s, e, d).value, kind)
  {
    hide ApplyLegacy, ProgressRules;
    LegacyEffect(s, e, d);
  }

  lemma UsedAfterCompletion(s: State, d: EventData, kind: CommandType)
    requires Reachable(s) && ForwardKind(kind) && Used(s, kind) && ApplyActionCompleted(s, d).Ok?
    ensures Used(ApplyActionCompleted(s, d).value, kind)
  {
    hide ApplyActionCompleted;
    CompletionEffect(s, d);
  }

  lemma UsedAfterDesired(s: State, desired: DesiredState, kind: CommandType)
    requires Reachable(s) && Used(s, kind) && ApplyDesired(s, desired).Ok?
    ensures Used(ApplyDesired(s, desired).value, kind)
  {
  }

  lemma UsedAfterFailure(s: State, d: EventData, kind: CommandType)
    requires Reachable(s) && ApplyActionFailed(s, d).Ok?
    ensures Used(ApplyActionFailed(s, d).value, kind)
  {
    hide ApplyActionFailed;
    FailureEffect(s, d);
  }

  lemma UsedAfterPlan(s: State, d: EventData, kind: CommandType)
    requires Reachable(s) && ForwardKind(kind) && Used(s, kind) && ApplyActionPlanned(s, d).Ok?
    ensures Used(ApplyActionPlanned(s, d).value, kind)
  {
    hide ApplyActionPlanned, Decide;
    PlanEffect(s, d);
  }

  lemma UsedStep(s: State, e: Event, kind: CommandType)
    requires Reachable(s) && s.present && ForwardKind(kind) && Used(s, kind) && ApplyEvent(s, e).Ok?
    ensures Used(ApplyEvent(s, e).value, kind)
  {
    hide ApplyLegacy, ApplyActionCompleted, ApplyDesired, ApplyActionPlanned, ApplyActionFailed, Used, Reachable;
    if e.kind == ActionCompleted {
      UsedAfterCompletion(s, e.data, kind);
    } else if e.kind == DesiredStateChanged {
      UsedAfterDesired(s, e.data.desired, kind);
    } else if e.kind == ActionPlanned {
      UsedAfterPlan(s, e.data, kind);
    } else if e.kind == ActionFailed {
      UsedAfterFailure(s, e.data, kind);
    } else if ApplyLegacy(s, e.kind, e.data).Ok? {
      LegacyEffect(s, e.kind, e.data);
      UsedAfterLegacy(s, e.kind, e.data, kind);
    }
  }

  lemma PlanUses(s: State, d: EventData)
    requires Reachable(s) && ForwardKind(d.actionType) && ApplyActionPlanned(s, d).Ok?
    ensures !Used(s, d.actionType) && Used(ApplyActionPlanned(s, d).value, d.actionType)
  {
  }

  ghost predicate Plans(e: Event, kind: CommandType) {
    e.kind == ActionPlanned && e.data.actionType == kind
  }

  lemma {:induction false} UsedForever(log: seq<Event>, i: nat, n: nat, kind: CommandType)
    requires ValidLog(log) && i < n <= |log| && ForwardKind(kind) && Plans(log[i], kind)
    ensures ValidLog(log[..n]) && Used(Final(log[..n]), kind)
    decreases n
  {
    hide ApplyEvent, ApplyActionPlanned, Used, Fold, Stamp, Reachable;
    StepAt(log, n - 1);
    var s, e := Final(log[..n - 1]), log[n - 1];
    if n - 1 == i {
      PlanApplies(s, e);
      PlanUses(s, e.data);
    } else {
      UsedForever(log, i, n - 1, kind);
      UsedStep(s, e, kind);
    }
    UsedStamp(ApplyEvent(s, e).value, e, kind);
  }

  lemma UsedStamp(s: State, e: Event, kind: CommandType)
    requires Used(s, kind)
    ensures Used(Stamp(s, e), kind)
  {
  }

  /** StartAttempt, ProvisionWorkspace, RunReasoner, ApplyPatch, Verify and SucceedRun are planned at most once. */
  lemma PlannedAtMostOnce(log: seq<Event>, i: nat, j: nat, kind: CommandType)
    requires ValidLog(log) && i <= j < |log| && ForwardKind(kind)
    requires Plans(log[i], kind) && Plans(log[j], kind)
    ensures i == j
  {
    hide ApplyEvent, ApplyActionPlanned, Used, Fold;
    if i < j {
      UsedForever(log, i, j, kind);
      StepAt(log, j);
      PlanApplies(Final(log[..j]), log[j]);
      PlanUses(Final(log[..j]), log[j].data);
    }
  }
}
