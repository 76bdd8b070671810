/** A Run that succeeded went through every stage of the lifecycle, in order. */
module SuccessTrace {
  import opened Types
  import opened Reducer
  import opened Projection
  import opened Lifecycle
  import opened Effects

  predicate Completes(e: Event, kind: CommandType) {
    e.kind == ActionCompleted && e.data.actionType == kind
  }

  /** The five stage results, in legacy or managed form. */
  predicate Milestone(stage: nat, e: Event) {
    match stage
    case 0 => e.kind == AttemptStarted || Completes(e, StartAttempt)
    case 1 => e.kind == WorkspaceProvisioned || Completes(e, ProvisionWorkspace)
    case 2 => (e.kind == ReasoningCompleted || Completes(e, RunReasoner)) && e.data.toolName != ""
    case 3 => e.kind == PatchProduced || Completes(e, ApplyPatch)
    case 4 => e.kind == VerificationPassed || Completes(e, Verify)
    case _ => false
  }

  /** How many stages the projection has behind it, while it is still progressing or has succeeded. */
  function Level(s: State): nat {
    match Logical(s)
    case Provisioning => 1
    case Reasoning => 2
    case Acting => 3
    case Verifying => if s.verificationPassed then 5 else 4
    case Succeeded => 5
    case _ => 0
  }

  /** The event sets the level back, keeps it, or is the milestone that raises it by one. */
  ghost predicate Climbs(s: State, e: Event, t: State) {
    Level(t) <= Level(s) || (Level(t) == Level(s) + 1 && Milestone(Level(s), e))
  }

  lemma LegacyClimbs(s: State, e: Event)
    requires Reachable(s) && ApplyLegacy(s, e.kind, e.data).Ok?
    ensures Climbs(s, e, ApplyLegacy(s, e.kind, e.data).value)
  {
    hide ApplyLegacy;
    LegacyEffect(s, e.kind, e.data);
  }

  lemma CompletionClimbs(s: State, e: Event)
    requires Reachable(s) && e.kind == ActionCompleted && ApplyActionCompleted(s, e.data).Ok?
    ensures Climbs(s, e, ApplyActionCompleted(s, e.data).value)
  {
    hide ApplyActionCompleted;
    CompletionEffect(s, e.data);
    if e.data.actionType == RunReasoner && !CancelWins(s, e.data) {
      ReasonerNamesTool(s, e.data);
    }
  }

  lemma ReasonerNamesTool(s: State, d: EventData)
    requires ApplyActionCompleted(s, d).Ok? && d.actionType == RunReasoner && !CancelWins(s, d)
    ensures d.toolName != ""
  {
    hide Advance;
  }

  lemma OtherClimbs(s: State, e: Event)
    requires Reachable(s) && ApplyEvent(s, e).Ok?
    requires e.kind == DesiredStateChanged || e.kind == ActionPlanned || e.kind == ActionFailed || e.kind.LeaseFact()
          || e.kind == RunCreated
    ensures Climbs(s, e, ApplyEvent(s, e).value)
  {
    hide ApplyDesired, ApplyActionPlanned, ApplyActionFailed, ApplyLegacy;
    if e.kind == DesiredStateChanged {
      DesiredEffect(s, e.data.desired);
    } else if e.kind == ActionPlanned {
      PlanEffect(s, e.data);
    } else if e.kind == ActionFailed {
      FailureEffect(s, e.data);
    }
  }

  lemma StepClimbs(s: State, e: Event)
    requires Reachable(s) && ApplyEvent(s, e).Ok?
    ensures Climbs(s, e, ApplyEvent(s, e).value)
  {
    hide ApplyLegacy, ApplyActionCompleted, ApplyDesired, ApplyActionPlanned, ApplyActionFailed, Climbs;
    if e.kind == ActionCompleted {
      CompletionClimbs(s, e);
    } else if e.kind == DesiredStateChanged || e.kind == ActionPlanned || e.kind == ActionFailed || e.kind.LeaseFact()
      || e.kind == RunCreated {
      OtherClimbs(s, e);
    } else {
      LegacyClimbs(s, e);
    }
  }

  lemma StampLevel(s: State, e: Event)
    ensures Level(Stamp(s, e)) == Level(s)
  {
  }

  ghost predicate InOrder(log: seq<Event>, at: seq<nat>) {
    && (forall k :: 0 <= k < |at| ==> at[k] < |log| && Milestone(k, log[at[k]]))
    && (forall k :: 0 < k < |at| ==> at[k - 1] < at[k])
  }

  /** The positions of the milestones behind any valid log. */
  lemma {:induction false} Climb(log: seq<Event>) returns (at: seq<nat>)
    requires ValidLog(log)
    ensures InOrder(log, at) && |at| >= Level(Final(log))
  {
    hide ApplyEvent, Fold, Level, Milestone, Stamp, Reachable;
    if log == [] {
      EmptyLevel();
      at := [];
    } else {
      var n := |log| - 1;
      assert log[..n + 1] == log;
      StepAt(log, n);
      var s, e := Final(log[..n]), log[n];
      at := Climb(log[..n]);
      assert InOrder(log, at);
      StepClimbs(s, e);
      StampLevel(ApplyEvent(s, e).value, e);
      if |at| == Level(s) && Milestone(|at|, e) {
        at := at + [n];
      }
    }
  }

  lemma EmptyLevel()
    ensures ValidLog([]) && Level(Final([])) == 0
  {
  }

  /**
    Any log that reduces to Succeeded contains, in order, an attempt start, a
    provision, a reasoning result that names a tool, a patch and a passed
    verification, and exactly one attempt was made.
  */
  lemma SuccessHasTrace(log: seq<Event>) returns (at: seq<nat>)
    requires ValidLog(log) && Final(log).run.observed == Succeeded
    ensures |at| >= 5 && InOrder(log, at)
    ensures Final(log).run.currentAttempt == 1
  {
    ProjectionReachable(log);
    at := Climb(log);
  }
}
