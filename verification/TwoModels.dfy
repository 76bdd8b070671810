/**
  The legacy Reconcile (internal/controller/controller.go) and the managed plan
  and completion describe the same lifecycle.
*/
module TwoModels {
  import opened Types
  import opened Decider
  import opened Reducer
  import opened Projection
  import opened Lifecycle
  import opened Effects

  datatype Fact = Fact(kind: EventType, data: EventData)

  /** The facts Reconcile appends for a command, given the reasoner's result. */
  function LegacyFacts(s: State, c: Command, result: EventData): seq<Fact> {
    var d := NO_DATA.(actionId := c.actionId);
    match c.kind
    case StartAttempt => [Fact(AttemptStarted, d.(attemptId := c.attemptId, reason := "initial"))]
    case ProvisionWorkspace => [Fact(WorkspaceProvisioned, d)]
    case RunReasoner =>
      [Fact(ReasoningPlanned, d),
       Fact(ReasoningCompleted, d.(output := result.output, toolName := result.toolName,
                                   toolArguments := result.toolArguments))]
    case ApplyPatch => [Fact(PatchProduced, d)]
    case Verify => [Fact(VerificationPlanned, d), Fact(VerificationPassed, d)]
    case SucceedRun => [Fact(RunSucceeded, d)]
    case FailRun => [Fact(RunFailed, d.(reason := s.failureReason))]
    case CancelRun => [Fact(RunCancelled, d)]
    case _ => []
  }

  /** What ExecuteDeterministicAction and the reasoner executor put into a receipt. */
  function ManagedOutput(s: State, c: Command, result: EventData): EventData {
    match c.kind
    case StartAttempt => NO_DATA.(attemptId := c.attemptId, reason := "initial")
    case RunReasoner =>
      NO_DATA.(output := result.output, toolName := result.toolName, toolArguments := result.toolArguments)
    case FailRun => NO_DATA.(reason := s.failureReason)
    case _ => NO_DATA
  }

  function ManagedFacts(s: State, c: Command, scope: IdempotencyScope, receiptId: string, result: EventData): seq<Fact> {
    [Fact(ActionPlanned, PlanData(c, scope)),
     Fact(ActionCompleted, ManagedOutput(s, c, result).(actionId := c.actionId, actionType := c.kind,
                                                        scope := scope, receiptId := receiptId))]
  }

  function ApplyFact(s: State, f: Fact): Applied {
    ApplyEvent(s, Event(s.run.id, 0, f.kind, PAYLOAD_VERSION, f.data, "", "", "", "", 0, ""))
  }

  function ApplyFacts(s: State, facts: seq<Fact>): Applied
    requires |facts| <= 2
  {
    if facts == [] then Ok(s)
    else
      match ApplyFact(s, facts[0])
      case Err(error) => Err(error)
      case Ok(t) => if |facts| == 1 then Ok(t) else ApplyFact(t, facts[1])
  }

  function RunLegacy(s: State, c: Command, result: EventData): Applied {
    ApplyFacts(s, LegacyFacts(s, c, result))
  }

  function RunManaged(s: State, c: Command, scope: IdempotencyScope, receiptId: string, result: EventData): Applied {
    ApplyFacts(s, ManagedFacts(s, c, scope, receiptId, result))
  }

  /** The one disagreement: RunCancelled ends a paused Run, a managed cancel only changes its resume state. */
  predicate CancelsPaused(s: State, c: Command) {
    c.kind == CancelRun && s.run.observed == Paused
  }

  lemma PlanAccepted(s: State, scope: IdempotencyScope)
    requires Reachable(s) && s.present && s.pendingId == "" && scope.Valid() && Decide(s).kind != Noop
    ensures
      var c := Decide(s);
      ApplyFact(s, Fact(ActionPlanned, PlanData(c, scope)))
      == Ok(s.(pendingId := c.actionId, pendingType := c.kind, pendingAttempt := c.attemptId, pendingScope := scope))
  {
    hide ApplyLegacy, ApplyActionCompleted, ApplyDesired, ApplyActionFailed;
  }

  /** The projection both vocabularies are meant to reach. */
  function Outcome(s: State, c: Command, result: EventData): State {
    var t := Moved(s, StatusAfter(c.kind));
    match c.kind
    case StartAttempt => Attempted(t, c.attemptId)
    case RunReasoner => Reasoned(t, result)
    case ApplyPatch => t.(patchProduced := true)
    case Verify => t.(verificationPassed := true)
    case _ => t
  }

  ghost predicate Ready(s: State, c: Command, result: EventData) {
    && Reachable(s) && s.present && s.pendingId == ""
    && c == Decide(s) && c.kind != Noop
    && (c.kind == RunReasoner ==> result.toolName != "")
  }

  lemma ForwardOutcome(s: State, c: Command, pending: State, d: EventData, result: EventData)
    requires Ready(s, c, result) && d.receiptId != "" && ForwardKind(c.kind)
    requires pending == s.(pendingId := c.actionId, pendingType := c.kind, pendingAttempt := c.attemptId,
                           pendingScope := pending.pendingScope)
    requires d == ManagedOutput(s, c, result).(actionId := c.actionId, actionType := c.kind,
                                               scope := d.scope, receiptId := d.receiptId)
    ensures
      var managed := ApplyActionCompleted(pending, d);
      if CancelsPaused(s, c) then managed.Ok? ==> managed.value.run.observed == Paused
      else managed == Ok(Outcome(s, c, result).(lastCompletedId := c.actionId, lastReceiptId := d.receiptId))
  {
    hide ValidateTransition, Reachable, Decide;
    DecisionFits(s);
  }

  lemma EndOutcome(s: State, c: Command, pending: State, d: EventData, result: EventData)
    requires Ready(s, c, result) && d.receiptId != "" && !ForwardKind(c.kind)
    requires pending == s.(pendingId := c.actionId, pendingType := c.kind, pendingAttempt := c.attemptId,
                           pendingScope := pending.pendingScope)
    requires d == ManagedOutput(s, c, result).(actionId := c.actionId, actionType := c.kind,
                                               scope := d.scope, receiptId := d.receiptId)
    ensures
      var managed := ApplyActionCompleted(pending, d);
      if CancelsPaused(s, c) then managed.Ok? ==> managed.value.run.observed == Paused
      else managed == Ok(Outcome(s, c, result).(lastCompletedId := c.actionId, lastReceiptId := d.receiptId))
  {
    hide ValidateTransition, Reachable, Decide;
    DecisionFits(s);
  }

  lemma CompletionOutcome(s: State, c: Command, pending: State, d: EventData, result: EventData)
    requires Ready(s, c, result) && d.receiptId != ""
    requires pending == s.(pendingId := c.actionId, pendingType := c.kind, pendingAttempt := c.attemptId,
                           pendingScope := pending.pendingScope)
    requires d == ManagedOutput(s, c, result).(actionId := c.actionId, actionType := c.kind,
                                               scope := d.scope, receiptId := d.receiptId)
    ensures
      var managed := ApplyActionCompleted(pending, d);
      if CancelsPaused(s, c) then managed.Ok? ==> managed.value.run.observed == Paused
      else managed == Ok(Outcome(s, c, result).(lastCompletedId := c.actionId, lastReceiptId := d.receiptId))
  {
    hide ApplyActionCompleted;
    if ForwardKind(c.kind) {
      ForwardOutcome(s, c, pending, d, result);
    } else {
      EndOutcome(s, c, pending, d, result);
    }
  }

  /** Whatever Decide chooses outside a pause is a legal transition away. */
  lemma DecisionFits(s: State)
    requires Reachable(s) && s.present && Decide(s).kind != Noop
    ensures
      var kind := Decide(s).kind;
      && (ForwardKind(kind) || kind == FailRun || kind == CancelRun)
      && (kind == CancelRun <==> s.run.desired == DesiredCancelled)
      && (kind != CancelRun ==> s.run.desired == DesiredRunning && s.run.observed != Paused)
      && (ForwardKind(kind) ==> s.run.observed == StageOf(kind) && s.failureReason == "")
      && (kind == FailRun ==> s.failureReason != "")
      && (kind == Verify ==> !s.verificationPassed) && (kind == SucceedRun ==> s.verificationPassed)
      && (kind == Verify || ValidateTransition(s.run.observed, StatusAfter(kind)).Pass?)
      && (s.pendingId == "" ==> s.pendingType == NoCommand && s.pendingAttempt == "" && s.pendingScope == NoScope)
      && (kind == StartAttempt ==> Decide(s).attemptId != "") && Decide(s).actionId != ""
  {
  }

  lemma LegacyApplies(s: State, f: Fact)
    requires s.pendingType == NoCommand && LegacyResult(f.kind)
    ensures ApplyFact(s, f) == ApplyLegacy(s, f.kind, f.data)
  {
    hide ApplyLegacy;
  }

  lemma PlannedLegacyOutcome(s: State, c: Command, result: EventData)
    requires Ready(s, c, result) && (c.kind == RunReasoner || c.kind == Verify)
    ensures ApplyFacts(s, LegacyFacts(s, c, result)) == Ok(Outcome(s, c, result))
  {
    hide ValidateTransition, Reachable, Decide, ApplyEvent, ApplyFact;
    DecisionFits(s);
    var facts := LegacyFacts(s, c, result);
    LegacyApplies(s, facts[0]);
    LegacyApplies(s.(pendingId := c.actionId), facts[1]);
  }

  lemma LegacyOutcome(s: State, c: Command, result: EventData)
    requires Ready(s, c, result)
    ensures ApplyFacts(s, LegacyFacts(s, c, result)) == Ok(Outcome(s, c, result))
  {
    hide ValidateTransition, Reachable, Decide, ApplyEvent, ApplyFact;
    DecisionFits(s);
    if c.kind == RunReasoner || c.kind == Verify {
      PlannedLegacyOutcome(s, c, result);
    } else {
      LegacyApplies(s, LegacyFacts(s, c, result)[0]);
    }
  }

  /**
    From every reachable state with nothing pending, the managed plan and
    completion of the decided command and the legacy facts Reconcile emits for it
    give the same projection, except for the receipt bookkeeping, exactly unless
    a paused Run is being cancelled.
  */
  lemma ModelsAgree(log: seq<Event>, scope: IdempotencyScope, receiptId: string, result: EventData)
    requires ValidLog(log) && Final(log).present && Final(log).pendingId == ""
    requires Decide(Final(log)).kind != Noop && (Decide(Final(log)).kind == RunReasoner ==> result.toolName != "")
    requires scope.Valid() && receiptId != ""
    ensures
      var s, c := Final(log), Decide(Final(log));
      var legacy := RunLegacy(s, c, result);
      var managed := RunManaged(s, c, scope, receiptId, result);
      && legacy.Ok?
      && (managed == Ok(legacy.value.(lastCompletedId := c.actionId, lastReceiptId := receiptId))
          <==> !CancelsPaused(s, c))
  {
    hide ApplyActionCompleted, Fold, Reachable, Decide, ApplyActionPlanned, ApplyLegacy;
    ProjectionReachable(log);
    var s := Final(log);
    var c := Decide(s);
    LegacyOutcome(s, c, result);
    PlanAccepted(s, scope);
    var pending := s.(pendingId := c.actionId, pendingType := c.kind, pendingAttempt := c.attemptId, pendingScope := scope);
    CompletionOutcome(s, c, pending, ManagedFacts(s, c, scope, receiptId, result)[1].data, result);
    CompletionFactApplies(pending, ManagedFacts(s, c, scope, receiptId, result)[1]);
  }

  lemma CompletionFactApplies(s: State, f: Fact)
    requires f.kind == ActionCompleted
    ensures ApplyFact(s, f) == ApplyActionCompleted(s, f.data)
  {
    hide ApplyActionCompleted;
  }

  lemma FailureFactApplies(s: State, f: Fact)
    requires f.kind == ActionFailed
    ensures ApplyFact(s, f) == ApplyActionFailed(s, f.data)
  {
    hide ApplyActionFailed;
  }

  lemma LegacyFailure(s: State, reason: string)
    requires Reachable(s) && s.present && s.pendingId == "" && Decide(s).kind == RunReasoner && reason != ""
    ensures
      var d := NO_DATA.(actionId := Decide(s).actionId);
      ApplyFacts(s, [Fact(ReasoningPlanned, d), Fact(ToolCallFailed, d.(reason := reason))]) == Ok(s.(failureReason := reason))
  {
    hide Reachable, Decide, ApplyEvent, ApplyFact, ApplyActionPlanned;
    DecisionFits(s);
    PlanAccepted(s, ScopedIdempotent);
    NothingManaged(s);
    var d := NO_DATA.(actionId := Decide(s).actionId);
    LegacyApplies(s, Fact(ReasoningPlanned, d));
    LegacyApplies(s.(pendingId := d.actionId), Fact(ToolCallFailed, d.(reason := reason)));
  }

  lemma NothingManaged(s: State)
    requires Reachable(s) && s.present && s.pendingId == "" && Decide(s).kind != Noop
    ensures s.pendingType == NoCommand && s.pendingAttempt == "" && s.pendingScope == NoScope && Decide(s).actionId != ""
  {
  }

  lemma ManagedFailure(s: State, scope: IdempotencyScope, reason: string)
    requires Reachable(s) && s.present && s.pendingId == "" && Decide(s).kind == RunReasoner && reason != "" && scope.Valid()
    ensures
      var c := Decide(s);
      var failed := NO_DATA.(actionId := c.actionId, actionType := c.kind, reason := reason, outcome := OutcomeFailed);
      ApplyFacts(s, [Fact(ActionPlanned, PlanData(c, scope)), Fact(ActionFailed, failed)]) == Ok(s.(failureReason := reason))
  {
    hide Reachable, Decide, ApplyEvent, ApplyFact, ApplyActionPlanned;
    PlanAccepted(s, scope);
    NothingManaged(s);
    var c := Decide(s);
    FailureFactApplies(s.(pendingId := c.actionId, pendingType := c.kind, pendingAttempt := c.attemptId, pendingScope := scope),
                       Fact(ActionFailed, NO_DATA.(actionId := c.actionId, actionType := c.kind, reason := reason,
                                                   outcome := OutcomeFailed)));
  }

  /** A reasoner failure is the same failure in both vocabularies. */
  lemma FailuresAgree(log: seq<Event>, scope: IdempotencyScope, reason: string)
    requires ValidLog(log) && Final(log).present && Final(log).pendingId == ""
    requires Decide(Final(log)).kind == RunReasoner && scope.Valid() && reason != ""
    ensures
      var s, c := Final(log), Decide(Final(log));
      var d := NO_DATA.(actionId := c.actionId);
      var failed := d.(actionType := c.kind, reason := reason, outcome := OutcomeFailed);
      && ApplyFacts(s, [Fact(ReasoningPlanned, d), Fact(ToolCallFailed, d.(reason := reason))])
         == ApplyFacts(s, [Fact(ActionPlanned, PlanData(c, scope)), Fact(ActionFailed, failed)])
         == Ok(s.(failureReason := reason))
  {
    hide Fold, Reachable, Decide, ApplyFacts;
    ProjectionReachable(log);
    LegacyFailure(Final(log), reason);
    ManagedFailure(Final(log), scope, reason);
  }
}
