/**
  The two log queries of the lease manager (internal/lease/postgres.go), read as
  statements over the event sequence, and their agreement with the projection.
*/
module Scans {
  import opened Wrappers
  import opened Types
  import opened Reducer
  import opened Projection
  import opened Lifecycle
  import opened Effects

  predicate LegacyPlan(e: Event) {
    e.kind == ReasoningPlanned || e.kind == VerificationPlanned
  }

  /** The join condition of unresolvedLegacyAction; a missing action_id is NULL and equals nothing. */
  predicate Resolves(plan: Event, result: Event) {
    || result.kind == RunFailed || result.kind == RunCancelled
    || (plan.data.actionId != "" && result.data.actionId == plan.data.actionId
        && ((plan.kind == ReasoningPlanned && (result.kind == ReasoningCompleted || result.kind == ToolCallFailed))
            || (plan.kind == VerificationPlanned && (result.kind == VerificationPassed || result.kind == VerificationFailed))))
  }

  predicate Unresolved(log: seq<Event>, i: int) {
    && 0 <= i < |log| && LegacyPlan(log[i])
    && forall j :: i < j < |log| ==> !Resolves(log[i], log[j])
  }

  /** ORDER BY seq DESC LIMIT 1 over the first n events. */
  function LastUnresolved(log: seq<Event>, n: nat): Option<string>
    requires n <= |log|
  {
    if n == 0 then None
    else if Unresolved(log, n - 1) then Some(log[n - 1].data.actionId)
    else LastUnresolved(log, n - 1)
  }

  function UnresolvedLegacyAction(log: seq<Event>): Option<string> {
    LastUnresolved(log, |log|)
  }

  predicate LegacyPending(s: State) {
    s.pendingId != "" && s.pendingType == NoCommand
  }

  /** Every unresolved plan is the pending legacy action, and there is one if there is one. */
  ghost predicate ScanRules(log: seq<Event>, s: State) {
    && (forall i :: Unresolved(log, i) ==>
          LegacyPending(s) && log[i].data.actionId == s.pendingId
          && Logical(s) == (if log[i].kind == ReasoningPlanned then Reasoning else Verifying))
    && (LegacyPending(s) ==> exists i :: Unresolved(log, i))
  }

  /** What a legacy event does to the pending action id. */
  lemma LegacyPendingEffect(s: State, kind: EventType, d: EventData)
    requires ApplyLegacy(s, kind, d).Ok?
    ensures
      var t := ApplyLegacy(s, kind, d).value;
      if kind == ReasoningPlanned || kind == VerificationPlanned then
        s.pendingId == "" && d.actionId != "" && t.pendingId == d.actionId
      else if kind == ReasoningCompleted || kind == ToolCallFailed || kind == VerificationPassed then
        s.pendingId == d.actionId && t.pendingId == ""
      else if kind == RunFailed || kind == RunCancelled then t.pendingId == ""
      else t.pendingId == s.pendingId && (kind == RunSucceeded ==> s.pendingId == "")
  {
    hide Allowed;
  }

  lemma UnresolvedSnoc(log: seq<Event>, e: Event, i: int)
    ensures Unresolved(log + [e], i) <==>
            (i == |log| && LegacyPlan(e)) || (Unresolved(log, i) && !Resolves(log[i], e))
  {
    var longer := log + [e];
    assert longer[|log|] == e;
    if 0 <= i < |log| {
      assert longer[i] == log[i];
      assert forall j :: i < j < |log| ==> longer[j] == log[j];
    }
  }

  predicate ResultKind(kind: EventType) {
    || kind == RunFailed || kind == RunCancelled || kind == ReasoningCompleted || kind == ToolCallFailed
    || kind == VerificationPassed || kind == VerificationFailed
  }

  lemma ScanPlan(log: seq<Event>, s: State, e: Event, t: State)
    requires ScanRules(log, s) && !LegacyPending(s) && LegacyPlan(e)
    requires LegacyPending(t) && t.pendingId == e.data.actionId
    requires Logical(t) == (if e.kind == ReasoningPlanned then Reasoning else Verifying)
    ensures ScanRules(log + [e], t)
  {
    hide Unresolved;
    forall i | Unresolved(log + [e], i)
      ensures i == |log|
    {
      UnresolvedSnoc(log, e, i);
    }
    UnresolvedSnoc(log, e, |log|);
    assert (log + [e])[|log|] == e;
  }

  lemma ScanUnchanged(log: seq<Event>, s: State, e: Event, t: State)
    requires ScanRules(log, s) && !LegacyPlan(e) && !ResultKind(e.kind)
    requires LegacyPending(t) <==> LegacyPending(s)
    requires LegacyPending(s) ==> t.pendingId == s.pendingId && Logical(t) == Logical(s)
    ensures ScanRules(log + [e], t)
  {
    forall i
      ensures Unresolved(log + [e], i) <==> Unresolved(log, i)
      ensures Unresolved(log, i) ==> (log + [e])[i] == log[i]
    {
      UnresolvedSnoc(log, e, i);
    }
  }

  lemma ScanResolved(log: seq<Event>, s: State, e: Event, t: State)
    requires ScanRules(log, s) && !LegacyPlan(e) && !LegacyPending(t)
    requires forall i :: Unresolved(log, i) ==> 0 <= i < |log| && Resolves(log[i], e)
    ensures ScanRules(log + [e], t)
  {
    hide Resolves;
    forall i
      ensures !Unresolved(log + [e], i)
    {
      UnresolvedSnoc(log, e, i);
    }
  }

  lemma UnresolvedIsPending(log: seq<Event>, s: State, i: int)
    requires ScanRules(log, s) && Unresolved(log, i)
    ensures 0 <= i < |log| && LegacyPlan(log[i]) && LegacyPending(s) && log[i].data.actionId == s.pendingId
    ensures Logical(s) == (if log[i].kind == ReasoningPlanned then Reasoning else Verifying)
  {
  }

  lemma ResultResolves(log: seq<Event>, s: State, e: Event, i: int)
    requires ScanRules(log, s) && Unresolved(log, i) && ResultKind(e.kind)
    requires ApplyLegacy(s, e.kind, e.data).Ok?
    ensures 0 <= i < |log| && Resolves(log[i], e)
  {
    hide ApplyLegacy, ScanRules, Unresolved;
    UnresolvedIsPending(log, s, i);
    LegacyEffect(s, e.kind, e.data);
    LegacyPendingEffect(s, e.kind, e.data);
  }

  lemma PendingStage(log: seq<Event>, s: State)
    requires ScanRules(log, s) && LegacyPending(s)
    ensures Logical(s) == Reasoning || Logical(s) == Verifying
  {
    var i :| Unresolved(log, i);
  }

  lemma ScanAfterLegacy(log: seq<Event>, s: State, e: Event)
    requires s.pendingType == NoCommand && ScanRules(log, s)
    requires ApplyLegacy(s, e.kind, e.data).Ok?
    ensures ScanRules(log + [e], ApplyLegacy(s, e.kind, e.data).value)
  {
    hide ApplyLegacy, ScanRules, Unresolved, Resolves;
    LegacyEffect(s, e.kind, e.data);
    LegacyPendingEffect(s, e.kind, e.data);
    var t := ApplyLegacy(s, e.kind, e.data).value;
    if LegacyPlan(e) {
      ScanPlan(log, s, e, t);
    } else if ResultKind(e.kind) {
      forall i | Unresolved(log, i)
        ensures 0 <= i < |log| && Resolves(log[i], e)
      {
        ResultResolves(log, s, e, i);
      }
      ScanResolved(log, s, e, t);
    } else {
      if LegacyPending(s) {
        PendingStage(log, s);
      }
      ScanUnchanged(log, s, e, t);
    }
  }

  lemma ScanStep(log: seq<Event>, s: State, e: Event)
    requires Reachable(s) && ScanRules(log, s) && ApplyEvent(s, e).Ok?
    ensures ScanRules(log + [e], ApplyEvent(s, e).value)
  {
    hide ApplyLegacy, ApplyActionCompleted, ApplyDesired, ApplyActionPlanned, ApplyActionFailed, ScanRules;
    var t := ApplyEvent(s, e).value;
    if e.kind == DesiredStateChanged {
      DesiredEffect(s, e.data.desired);
      ScanUnchanged(log, s, e, t);
    } else if e.kind == ActionPlanned {
      PlanEffect(s, e.data);
      ScanUnchanged(log, s, e, t);
    } else if e.kind == ActionCompleted {
      CompletionEffect(s, e.data);
      ScanUnchanged(log, s, e, t);
    } else if e.kind == ActionFailed {
      FailureEffect(s, e.data);
      ScanUnchanged(log, s, e, t);
    } else if e.kind == RunCreated || e.kind.LeaseFact() {
      ScanUnchanged(log, s, e, t);
    } else {
      LegacyEffect(s, e.kind, e.data);
      ScanAfterLegacy(log, s, e);
    }
  }

  lemma StampScan(log: seq<Event>, s: State, e: Event)
    requires ScanRules(log, s)
    ensures ScanRules(log, Stamp(s, e))
  {
  }

  lemma EmptyScan()
    ensures ScanRules([], INITIAL) && Fold([]) == Ok(INITIAL)
  {
  }

  lemma {:induction false} ScanHolds(log: seq<Event>)
    requires ValidLog(log)
    ensures ScanRules(log, Final(log))
  {
    hide ApplyEvent, Fold, Stamp, Reachable, ScanRules;
    if log == [] {
      EmptyScan();
    } else {
      var n := |log| - 1;
      assert log[..n + 1] == log == log[..n] + [log[n]];
      StepAt(log, n);
      ScanHolds(log[..n]);
      ScanStep(log[..n], Final(log[..n]), log[n]);
      StampScan(log, ApplyEvent(Final(log[..n]), log[n]).value, log[n]);
    }
  }

  lemma {:induction false} LastUnresolvedFinds(log: seq<Event>, n: nat)
    requires n <= |log|
    ensures LastUnresolved(log, n).None? ==> forall i :: i < n ==> !Unresolved(log, i)
    ensures LastUnresolved(log, n).Some? ==>
              exists i :: Unresolved(log, i) && LastUnresolved(log, n).value == log[i].data.actionId
  {
    if n > 0 && !Unresolved(log, n - 1) {
      LastUnresolvedFinds(log, n - 1);
    }
  }

  /**
    On every valid log, Acquire's query finds an action exactly when the
    projection has a pending action id with no managed type, and it is that one.
  */
  lemma LegacyScanAgrees(log: seq<Event>)
    requires ValidLog(log)
    ensures
      var s := Final(log);
      UnresolvedLegacyAction(log) == (if LegacyPending(s) then Some(s.pendingId) else None)
  {
    hide Fold;
    ScanHolds(log);
    LastUnresolvedFinds(log, |log|);
    if LegacyPending(Final(log)) {
      var i :| Unresolved(log, i);
    }
  }
}
