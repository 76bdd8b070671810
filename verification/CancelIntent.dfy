/** Cancel intent is irrevocable, and what a cancelled Run can still do. */
module CancelIntent {
  import opened Types
  import opened Decider
  import opened Reducer
  import opened Projection
  import opened Lifecycle

  /** Attempt, reasoning, patch and verification facts. */
  ghost predicate SameWork(s: State, t: State) {
    && t.run.currentAttempt == s.run.currentAttempt && t.attemptId == s.attemptId
    && t.reasoningOutput == s.reasoningOutput && t.toolName == s.toolName && t.toolArguments == s.toolArguments
    && t.patchProduced == s.patchProduced && t.verificationPassed == s.verificationPassed
  }

  ghost predicate Frozen(s: State, t: State) {
    && t.run.desired == DesiredCancelled
    && (t.run.observed == s.run.observed || t.run.observed == Cancelled)
    && SameWork(s, t)
  }

  lemma CancelledLegacy(s: State, kind: EventType, d: EventData)
    requires s.run.desired == DesiredCancelled && ApplyLegacy(s, kind, d).Ok?
    ensures Frozen(s, ApplyLegacy(s, kind, d).value)
  {
    hide Allowed;
  }

  lemma CancelledCompletion(s: State, d: EventData)
    requires s.run.desired == DesiredCancelled && ApplyActionCompleted(s, d).Ok?
    ensures Frozen(s, ApplyActionCompleted(s, d).value)
  {
    hide Allowed;
  }

  lemma CancelledFailure(s: State, d: EventData)
    requires s.run.desired == DesiredCancelled && ApplyActionFailed(s, d).Ok?
    ensures Frozen(s, ApplyActionFailed(s, d).value)
  {
    hide Advance;
  }

  lemma CancelledStep(s: State, e: Event)
    requires s.present && s.run.desired == DesiredCancelled && ApplyEvent(s, e).Ok?
    ensures Frozen(s, ApplyEvent(s, e).value)
  {
    hide Decide, Allowed, ApplyLegacy, ApplyActionCompleted, ApplyActionFailed;
    if e.kind == ActionCompleted {
      CancelledCompletion(s, e.data);
    } else if e.kind == ActionFailed {
      CancelledFailure(s, e.data);
    } else if ApplyLegacy(s, e.kind, e.data).Ok? {
      CancelledLegacy(s, e.kind, e.data);
    }
  }

  /**
    From the moment a valid log carries cancel intent, every valid extension keeps
    the intent, leaves the observed state or moves it to Cancelled, and never
    changes attempt, reasoning, patch or verification, even when an action that
    was in flight completes.
  */
  lemma {:induction false} CancelIrrevocable(log: seq<Event>, more: seq<Event>)
    requires ValidLog(log) && Final(log).run.desired == DesiredCancelled
    requires ValidLog(log + more)
    ensures Frozen(Final(log), Final(log + more))
    decreases |more|
  {
    hide ApplyEvent, Fold, Stamp, Reachable, Frozen;
    if more == [] {
      assert log + more == log;
      FrozenItself(Final(log));
    } else {
      var n := |more| - 1;
      var s := LastOfExtension(log, more);
      CancelIrrevocable(log, more[..n]);
      FrozenIntent(Final(log), s);
      CancelledStep(s, more[n]);
      FrozenStamp(Final(log), s, ApplyEvent(s, more[n]).value, more[n]);
    }
  }

  /** The state the last event of an extension was applied to. */
  lemma LastOfExtension(log: seq<Event>, more: seq<Event>) returns (s: State)
    requires ValidLog(log) && Final(log).run.desired == DesiredCancelled && more != [] && ValidLog(log + more)
    ensures
      var n := |more| - 1;
      && Fold(log + more[..n]) == Ok(s) && s.present
      && ApplyEvent(s, more[n]).Ok? && Final(log + more) == Stamp(ApplyEvent(s, more[n]).value, more[n])
  {
    hide ApplyEvent, Fold, Stamp, Reachable;
    var whole, k := log + more, |log| + |more| - 1;
    assert whole[..k] == log + more[..|more| - 1] && whole[..k + 1] == whole && whole[k] == more[|more| - 1];
    if log == [] {
      NothingCancelled();
    }
    StepAt(whole, k);
    s := Final(whole[..k]);
  }

  lemma NothingCancelled()
    ensures Fold([]) == Ok(INITIAL) && INITIAL.run.desired != DesiredCancelled
  {
  }

  lemma FrozenItself(s: State)
    requires s.run.desired == DesiredCancelled
    ensures Frozen(s, s)
  {
  }

  lemma FrozenIntent(s: State, t: State)
    requires Frozen(s, t)
    ensures t.run.desired == DesiredCancelled
  {
  }

  lemma FrozenStamp(s: State, t: State, u: State, e: Event)
    requires Frozen(s, t) && Frozen(t, u)
    ensures Frozen(s, Stamp(u, e))
  {
  }

  /** After cancel intent the legacy vocabulary accepts nothing but RunCancelled. */
  lemma LegacyOnlyCancels(s: State, kind: EventType, d: EventData)
    requires s.run.desired == DesiredCancelled
    ensures ApplyLegacy(s, kind, d).Ok? ==> kind == RunCancelled
  {
    hide Allowed;
  }

  lemma PausedCancelStep(s: State, e: Event)
    requires s.present && s.run.desired == DesiredCancelled && s.run.observed == Paused
    requires e.kind != RunCancelled && ApplyEvent(s, e).Ok?
    ensures ApplyEvent(s, e).value.run.observed == Paused
  {
    hide Decide, Allowed, ApplyActionCompleted, ApplyLegacy;
    LegacyOnlyCancels(s, e.kind, e.data);
    if e.kind == ActionCompleted {
      PausedCancelCompletion(s, e.data);
    }
  }

  lemma PausedCancelCompletion(s: State, d: EventData)
    requires s.run.desired == DesiredCancelled && s.run.observed == Paused
    requires ApplyActionCompleted(s, d).Ok?
    ensures ApplyActionCompleted(s, d).value.run.observed == Paused
  {
    hide Allowed;
  }

  /**
    Only the legacy RunCancelled ends a Run that was cancelled while paused: no
    extension without it, in particular none a leased worker can append, ever
    leaves Paused.
  */
  lemma {:induction false} PausedCancelNeverEnds(log: seq<Event>, more: seq<Event>)
    requires ValidLog(log) && Final(log).run.desired == DesiredCancelled && Final(log).run.observed == Paused
    requires ValidLog(log + more)
    requires forall i :: 0 <= i < |more| ==> more[i].kind != RunCancelled
    ensures Final(log + more).run.observed == Paused
    decreases |more|
  {
    hide ApplyEvent, Fold, Reachable, Frozen;
    if more == [] {
      assert log + more == log;
    } else {
      var n := |more| - 1;
      var s := LastOfExtension(log, more);
      PausedCancelNeverEnds(log, more[..n]);
      CancelIrrevocable(log, more[..n]);
      FrozenIntent(Final(log), s);
      PausedCancelStep(s, more[n]);
    }
  }

  /** Outside Paused, planning and completing the decided cancel reaches Cancelled. */
  lemma CancelConverges(s: State, planned: EventData, done: EventData)
    requires Reachable(s) && s.present && s.run.desired == DesiredCancelled
    requires !s.run.observed.Terminal() && s.pendingId == ""
    requires planned.scope.Valid() && planned.actionType == CancelRun && planned.actionId == Decide(s).actionId
    requires done.receiptId != "" && done.actionType == CancelRun && done.actionId == planned.actionId
    ensures ApplyActionPlanned(s, planned).Ok?
    ensures
      var t := ApplyActionCompleted(ApplyActionPlanned(s, planned).value, done);
      (t.Ok? && t.value.run.observed == Cancelled) <==> s.run.observed != Paused
  {
  }
}
