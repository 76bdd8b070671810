/** RecordReceipt's query for the pending plan (internal/lease/postgres.go), against the projection. */
module ReceiptScan {
  import opened Wrappers
  import opened Types
  import opened Reducer
  import opened Projection
  import opened Lifecycle
  import opened Effects

  predicate ActionResult(e: Event) {
    e.kind == ActionCompleted || e.kind == ActionFailed
  }

  predicate NoResultFor(log: seq<Event>, actionId: string) {
    forall j :: 0 <= j < |log| ==> !(ActionResult(log[j]) && log[j].data.actionId == actionId)
  }

  predicate PlanRow(e: Event, actionId: string, kind: CommandType, scope: IdempotencyScope) {
    e.kind == ActionPlanned && e.data.actionId == actionId && e.data.actionType == kind && e.data.scope == scope
  }

  /** ORDER BY seq DESC LIMIT 1 over the first n events. */
  function LastPlan(log: seq<Event>, n: nat, actionId: string, kind: CommandType, scope: IdempotencyScope): Option<string>
    requires n <= |log|
  {
    if n == 0 then None
    else if PlanRow(log[n - 1], actionId, kind, scope) then Some(log[n - 1].data.attemptId)
    else LastPlan(log, n - 1, actionId, kind, scope)
  }

  /** The planned attempt id RecordReceipt validates the receipt against, if the query matches. */
  function ReceiptPlan(log: seq<Event>, actionId: string, kind: CommandType, scope: IdempotencyScope): Option<string> {
    if NoResultFor(log, actionId) then LastPlan(log, |log|, actionId, kind, scope) else None
  }

  predicate PendingFrom(s: State, d: EventData) {
    && s.pendingType != NoCommand && s.pendingId == d.actionId && s.pendingType == d.actionType
    && s.pendingScope == d.scope && s.pendingAttempt == d.attemptId
  }

  ghost predicate ResultAfter(log: seq<Event>, i: nat, actionId: string) {
    exists j :: i < j < |log| && ActionResult(log[j]) && log[j].data.actionId == actionId
  }

  ghost predicate PlanBefore(log: seq<Event>, j: int, actionId: string) {
    exists i :: 0 <= i < j && i < |log| && log[i].kind == ActionPlanned && log[i].data.actionId == actionId
  }

  ghost predicate OpenPlan(log: seq<Event>, i: nat, s: State) {
    && i < |log| && log[i].kind == ActionPlanned && PendingFrom(s, log[i].data)
    && !ResultAfter(log, i, log[i].data.actionId)
  }

  /** Every plan is resolved later or is the pending action. */
  ghost predicate PlansAccounted(log: seq<Event>, s: State) {
    forall i :: 0 <= i < |log| && log[i].kind == ActionPlanned ==>
      ResultAfter(log, i, log[i].data.actionId) || PendingFrom(s, log[i].data)
  }

  /** Every result follows a plan of its action. */
  ghost predicate ResultsPlanned(log: seq<Event>) {
    forall j :: 0 <= j < |log| && ActionResult(log[j]) ==> PlanBefore(log, j, log[j].data.actionId)
  }

  ghost predicate PlanRules(log: seq<Event>, s: State) {
    && PlansAccounted(log, s)
    && (s.pendingType != NoCommand ==> exists i: nat :: OpenPlan(log, i, s))
    && ResultsPlanned(log)
  }

  lemma ResultAfterSnoc(log: seq<Event>, e: Event, i: nat, actionId: string)
    requires i < |log|
    ensures ResultAfter(log + [e], i, actionId)
            <==> ResultAfter(log, i, actionId) || (ActionResult(e) && e.data.actionId == actionId)
  {
    var longer := log + [e];
    assert longer[|log|] == e;
    if ResultAfter(log, i, actionId) {
      var j :| i < j < |log| && ActionResult(log[j]) && log[j].data.actionId == actionId;
      assert longer[j] == log[j];
    }
    if ResultAfter(longer, i, actionId) {
      var j :| i < j < |longer| && ActionResult(longer[j]) && longer[j].data.actionId == actionId;
      if j < |log| {
        assert longer[j] == log[j];
      }
    }
  }

  lemma PlanBeforeSnoc(log: seq<Event>, e: Event, j: int, actionId: string)
    requires PlanBefore(log, j, actionId)
    ensures PlanBefore(log + [e], j, actionId)
  {
    var i :| 0 <= i < j && i < |log| && log[i].kind == ActionPlanned && log[i].data.actionId == actionId;
    assert (log + [e])[i] == log[i];
  }

  lemma ResultsFollowPlans(log: seq<Event>, s: State, e: Event)
    requires PlanRules(log, s) && (ActionResult(e) ==> s.pendingType != NoCommand && e.data.actionId == s.pendingId)
    ensures ResultsPlanned(log + [e])
  {
    hide PlansAccounted;
    var longer := log + [e];
    forall j | 0 <= j < |longer| && ActionResult(longer[j])
      ensures PlanBefore(longer, j, longer[j].data.actionId)
    {
      if j < |log| {
        PlanBeforeSnoc(log, e, j, log[j].data.actionId);
      } else {
        var i: nat :| OpenPlan(log, i, s);
        assert longer[i] == log[i];
      }
    }
  }

  lemma AfterPlanned(log: seq<Event>, s: State, e: Event, t: State)
    requires PlanRules(log, s) && s.pendingType == NoCommand
    requires e.kind == ActionPlanned && PendingFrom(t, e.data)
    ensures PlanRules(log + [e], t)
  {
    hide ResultsPlanned;
    ResultsFollowPlans(log, s, e);
    var longer := log + [e];
    forall i | 0 <= i < |log| && log[i].kind == ActionPlanned
      ensures ResultAfter(longer, i, log[i].data.actionId)
    {
      ResultAfterSnoc(log, e, i, log[i].data.actionId);
    }
    assert longer[|log|] == e && OpenPlan(longer, |log|, t);
  }

  lemma AfterResult(log: seq<Event>, s: State, e: Event, t: State)
    requires PlanRules(log, s) && ActionResult(e)
    requires s.pendingType != NoCommand && e.data.actionId == s.pendingId && t.pendingType == NoCommand
    ensures PlanRules(log + [e], t)
  {
    hide ResultsPlanned, ResultAfter;
    ResultsFollowPlans(log, s, e);
    forall i | 0 <= i < |log| && log[i].kind == ActionPlanned
      ensures ResultAfter(log + [e], i, log[i].data.actionId)
    {
      ResultAfterSnoc(log, e, i, log[i].data.actionId);
    }
  }

  predicate SamePending(s: State, t: State) {
    && t.pendingType == s.pendingType
    && (s.pendingType != NoCommand ==>
          t.pendingId == s.pendingId && t.pendingScope == s.pendingScope && t.pendingAttempt == s.pendingAttempt)
  }

  lemma AfterOther(log: seq<Event>, s: State, e: Event, t: State)
    requires PlanRules(log, s) && e.kind != ActionPlanned && !ActionResult(e) && SamePending(s, t)
    ensures PlanRules(log + [e], t)
  {
    hide ResultsPlanned, ResultAfter;
    ResultsFollowPlans(log, s, e);
    var longer := log + [e];
    forall i | 0 <= i < |log|
      ensures longer[i] == log[i]
      ensures ResultAfter(longer, i, log[i].data.actionId) <==> ResultAfter(log, i, log[i].data.actionId)
    {
      ResultAfterSnoc(log, e, i, log[i].data.actionId);
    }
    if s.pendingType != NoCommand {
      var i: nat :| OpenPlan(log, i, s);
      assert OpenPlan(longer, i, t);
    }
  }

  lemma PlanRulesStep(log: seq<Event>, s: State, e: Event)
    requires Reachable(s) && PlanRules(log, s) && ApplyEvent(s, e).Ok?
    ensures PlanRules(log + [e], ApplyEvent(s, e).value)
  {
    hide ApplyLegacy, ApplyActionCompleted, ApplyDesired, ApplyActionPlanned, ApplyActionFailed, PlanRules;
    var t := ApplyEvent(s, e).value;
    if e.kind == ActionPlanned {
      PlanEffect(s, e.data);
      AfterPlanned(log, s, e, t);
    } else if e.kind == ActionCompleted {
      CompletionEffect(s, e.data);
      AfterResult(log, s, e, t);
    } else if e.kind == ActionFailed {
      FailureEffect(s, e.data);
      AfterResult(log, s, e, t);
    } else {
      if e.kind == DesiredStateChanged {
        DesiredEffect(s, e.data.desired);
      } else if e.kind != RunCreated && !e.kind.LeaseFact() {
        LegacyEffect(s, e.kind, e.data);
      }
      AfterOther(log, s, e, t);
    }
  }

  lemma StampPlanRules(log: seq<Event>, s: State, e: Event)
    requires PlanRules(log, s)
    ensures PlanRules(log, Stamp(s, e))
  {
    hide ResultAfter;
    assert forall d :: PendingFrom(s, d) <==> PendingFrom(Stamp(s, e), d);
    if s.pendingType != NoCommand {
      var i: nat :| OpenPlan(log, i, s);
      assert OpenPlan(log, i, Stamp(s, e));
    }
  }

  lemma EmptyPlanRules()
    ensures PlanRules([], INITIAL) && Fold([]) == Ok(INITIAL)
  {
  }

  lemma {:induction false} PlanRulesHold(log: seq<Event>)
    requires ValidLog(log)
    ensures PlanRules(log, Final(log))
  {
    hide ApplyEvent, Fold, Stamp, Reachable, PlanRules;
    if log == [] {
      EmptyPlanRules();
    } else {
      var n := |log| - 1;
      assert log[..n + 1] == log == log[..n] + [log[n]];
      StepAt(log, n);
      PlanRulesHold(log[..n]);
      PlanRulesStep(log[..n], Final(log[..n]), log[n]);
      StampPlanRules(log, ApplyEvent(Final(log[..n]), log[n]).value, log[n]);
    }
  }

  lemma {:induction false} LastPlanFinds(log: seq<Event>, n: nat, actionId: string, kind: CommandType, scope: IdempotencyScope)
    requires n <= |log|
    ensures LastPlan(log, n, actionId, kind, scope).None? ==> forall i :: 0 <= i < n ==> !PlanRow(log[i], actionId, kind, scope)
    ensures LastPlan(log, n, actionId, kind, scope).Some? ==>
              exists i :: 0 <= i < n && PlanRow(log[i], actionId, kind, scope)
                          && log[i].data.attemptId == LastPlan(log, n, actionId, kind, scope).value
  {
    if n > 0 && !PlanRow(log[n - 1], actionId, kind, scope) {
      LastPlanFinds(log, n - 1, actionId, kind, scope);
    }
  }

  predicate PendingAction(s: State, actionId: string, kind: CommandType, scope: IdempotencyScope) {
    s.pendingType != NoCommand && s.pendingId == actionId && s.pendingType == kind && s.pendingScope == scope
  }

  /**
    On every valid log the query matches exactly when the action, kind and scope
    are the pending ones and the action id has no result anywhere in the log, and
    then it returns the pending attempt.
  */
  lemma ReceiptScanAgrees(log: seq<Event>, actionId: string, kind: CommandType, scope: IdempotencyScope)
    requires ValidLog(log)
    ensures
      var s := Final(log);
      ReceiptPlan(log, actionId, kind, scope)
      == (if PendingAction(s, actionId, kind, scope) && NoResultFor(log, actionId) then Some(s.pendingAttempt) else None)
  {
    hide Fold, ResultsPlanned, PlanRules, LastPlan;
    var s := Final(log);
    LastPlanFinds(log, |log|, actionId, kind, scope);
    if NoResultFor(log, actionId) {
      forall i | 0 <= i < |log| && PlanRow(log[i], actionId, kind, scope)
        ensures PendingFrom(s, log[i].data)
      {
        UnansweredPlanIsPending(log, i);
      }
      if PendingAction(s, actionId, kind, scope) {
        var i := PendingHasPlan(log);
        assert PlanRow(log[i], actionId, kind, scope);
      }
    }
  }

  lemma UnansweredPlanIsPending(log: seq<Event>, i: nat)
    requires ValidLog(log) && i < |log| && log[i].kind == ActionPlanned && NoResultFor(log, log[i].data.actionId)
    ensures PendingFrom(Final(log), log[i].data)
  {
    hide Fold;
    PlanRulesHold(log);
    assert !ResultAfter(log, i, log[i].data.actionId);
  }

  lemma PendingHasPlan(log: seq<Event>) returns (i: nat)
    requires ValidLog(log) && Final(log).pendingType != NoCommand
    ensures OpenPlan(log, i, Final(log))
  {
    hide Fold, OpenPlan;
    PlanRulesHold(log);
    i :| OpenPlan(log, i, Final(log));
  }

  /** The controller's key discipline for plans. */
  predicate PlanKeys(log: seq<Event>) {
    forall i :: 0 <= i < |log| && log[i].kind == ActionPlanned ==> log[i].key == log[i].data.actionId + ":action-planned"
  }

  lemma ResultHasPlan(log: seq<Event>, j: nat) returns (k: nat)
    requires ValidLog(log) && j < |log| && ActionResult(log[j])
    ensures k < j && log[k].kind == ActionPlanned && log[k].data.actionId == log[j].data.actionId
  {
    hide Fold, PlansAccounted, OpenPlan;
    PlanRulesHold(log);
    assert PlanBefore(log, j, log[j].data.actionId);
    k :| 0 <= k < j && k < |log| && log[k].kind == ActionPlanned && log[k].data.actionId == log[j].data.actionId;
  }

  /** An action id is planned once under its key, so a pending action has no result. */
  lemma PendingHasNoResult(log: seq<Event>)
    requires ValidLog(log) && PlanKeys(log) && Final(log).pendingType != NoCommand
    ensures NoResultFor(log, Final(log).pendingId)
  {
    hide Fold;
    var id := Final(log).pendingId;
    var i := PendingHasPlan(log);
    forall j | 0 <= j < |log| && ActionResult(log[j])
      ensures log[j].data.actionId != id
    {
      if j < i {
        var k := ResultHasPlan(log, j);
        KeysDistinct(log, k, i);
      }
    }
  }

  /** Under that discipline the query matches exactly when the action is pending. */
  lemma PlanKeysMakeScanExact(log: seq<Event>, actionId: string, kind: CommandType, scope: IdempotencyScope)
    requires ValidLog(log) && PlanKeys(log)
    ensures
      var s := Final(log);
      ReceiptPlan(log, actionId, kind, scope)
      == (if PendingAction(s, actionId, kind, scope) then Some(s.pendingAttempt) else None)
  {
    hide Fold, ReceiptPlan, NoResultFor, PlanKeys;
    ReceiptScanAgrees(log, actionId, kind, scope);
    if PendingAction(Final(log), actionId, kind, scope) {
      PendingHasNoResult(log);
    }
  }
}
