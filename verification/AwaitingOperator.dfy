/** An ambiguous outcome holds the Run for its operator. */
module AwaitingOperator {
  import opened Types
  import opened Decider
  import opened Reducer
  import opened Projection
  import opened Lifecycle
  import opened Effects
  import opened Acceptance

  /** Waiting, paused or not, with no cancel intent. */
  ghost predicate Waiting(s: State) {
    s.present && Logical(s) == WaitingApproval && s.run.desired != DesiredCancelled
  }

  predicate Cancels(e: Event) {
    e.kind == DesiredStateChanged && e.data.desired == DesiredCancelled
  }

  /** Pausing, resuming, lease facts and the legacy failure of the Run. */
  predicate Idles(e: Event) {
    e.kind == DesiredStateChanged || e.kind.LeaseFact() || e.kind == RunFailed
  }

  lemma WaitingLegacy(s: State, kind: EventType, d: EventData)
    requires Reachable(s) && Waiting(s) && s.pendingType == NoCommand && ApplyLegacy(s, kind, d).Ok?
    ensures kind == RunFailed && ApplyLegacy(s, kind, d).value.run.observed == Failed
  {
    hide ApplyLegacy;
    LegacyAcceptance(s, kind, d);
    LegacyLaw(s, kind, d);
  }

  lemma NothingPends(s: State)
    requires Reachable(s) && Waiting(s)
    ensures s.pendingType == NoCommand && Decide(s).kind == Noop
  {
  }

  lemma WaitingIntent(s: State, desired: DesiredState)
    requires Reachable(s) && Waiting(s) && desired != DesiredCancelled && ApplyDesired(s, desired).Ok?
    ensures Waiting(ApplyDesired(s, desired).value)
  {
    hide ApplyDesired, Reachable;
    DesiredEffect(s, desired);
  }

  lemma WaitingShutsOutActions(s: State, d: EventData)
    requires Reachable(s) && Waiting(s)
    ensures ApplyActionPlanned(s, d).Err? && ApplyActionCompleted(s, d).Err? && ApplyActionFailed(s, d).Err?
  {
    hide ApplyActionPlanned, ApplyActionCompleted, ApplyActionFailed, Decide, Reachable, Waiting, EndedBelowPause, Carries;
    NothingPends(s);
    PlanLaw(s, d);
    CompletionAcceptance(s, d);
    FailureLaw(s, d);
  }

  /** Such a state accepts only idling events, and waits on unless the Run is failed. */
  lemma WaitingStep(s: State, e: Event)
    requires Reachable(s) && Waiting(s) && !Cancels(e) && ApplyEvent(s, e).Ok?
    ensures Idles(e)
    ensures var t := ApplyEvent(s, e).value; Waiting(t) || t.run.observed == Failed
  {
    hide ApplyLegacy, ApplyDesired, ApplyActionPlanned, ApplyActionCompleted, ApplyActionFailed, Reachable, Decide;
    NothingPends(s);
    WaitingShutsOutActions(s, e.data);
    if e.kind == DesiredStateChanged {
      WaitingIntent(s, e.data.desired);
    } else if ApplyLegacy(s, e.kind, e.data).Ok? {
      WaitingLegacy(s, e.kind, e.data);
    }
  }

  lemma StampWaits(s: State, e: Event)
    ensures Waiting(Stamp(s, e)) == Waiting(s) && Stamp(s, e).run.observed == s.run.observed
  {
  }

  /**
    After an ambiguous failure without cancel intent, every extension without an operator
    cancel plans nothing, completes nothing and leaves the Run waiting, or failed by the
    legacy RunFailed.
  */
  lemma {:induction false} WaitsForOperator(log: seq<Event>, more: seq<Event>)
    requires ValidLog(log) && Waiting(Final(log)) && ValidLog(log + more)
    requires forall i :: 0 <= i < |more| ==> !Cancels(more[i])
    ensures forall i :: 0 <= i < |more| ==> Idles(more[i])
    ensures Waiting(Final(log + more)) || Final(log + more).run.observed == Failed
    decreases |more|
  {
    hide Fold, ApplyEvent, Stamp, Reachable, Waiting;
    if more == [] {
      assert log + more == log;
    } else {
      var n := |more| - 1;
      var whole, k := log + more, |log| + n;
      assert whole[..k] == log + more[..n] && whole[..k + 1] == whole && whole[k] == more[n];
      StepAt(whole, k);
      WaitsForOperator(log, more[..n]);
      var s := Final(log + more[..n]);
      WaitingPresent(log);
      assert s.present;
      WaitingStep(s, more[n]);
      StampWaits(ApplyEvent(s, more[n]).value, more[n]);
    }
  }

  lemma WaitingPresent(log: seq<Event>)
    requires ValidLog(log) && Waiting(Final(log))
    ensures log != []
  {
    hide Fold;
    ProjectionReachable(log);
  }

  lemma FailureApplies(s: State, e: Event)
    requires e.kind == ActionFailed
    ensures ApplyEvent(s, e) == ApplyActionFailed(s, e.data)
  {
    hide ApplyActionFailed;
  }

  lemma FailureWaits(s: State, d: EventData)
    requires Reachable(s) && s.present && s.run.desired != DesiredCancelled && ApplyActionFailed(s, d).Ok?
    ensures Waiting(ApplyActionFailed(s, d).value) <==> d.outcome == OutcomeAmbiguous
  {
    hide ApplyActionFailed;
    FailureLaw(s, d);
  }

  /** Without cancel intent, exactly the ambiguous failures lead there. */
  lemma AmbiguousFailureWaits(log: seq<Event>, e: Event)
    requires log != [] && ValidLog(log + [e]) && e.kind == ActionFailed
    ensures ValidLog(log)
    ensures Final(log).run.desired != DesiredCancelled ==> (Waiting(Final(log + [e])) <==> e.data.outcome == OutcomeAmbiguous)
  {
    hide Fold, Stamp, Reachable, ApplyEvent, ApplyActionFailed, Waiting;
    assert (log + [e])[..|log|] == log && (log + [e])[..|log| + 1] == log + [e];
    StepAt(log + [e], |log|);
    var s := Final(log);
    FailureApplies(s, e);
    StampWaits(ApplyEvent(s, e).value, e);
    if s.run.desired != DesiredCancelled {
      FailureWaits(s, e.data);
    }
  }
}
