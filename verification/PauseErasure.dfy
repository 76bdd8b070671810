/** Pausing only delays: deleting every pause and resume from a log changes nothing but the pause itself. */
module PauseErasure {
  import opened Types
  import opened Decider
  import opened Reducer
  import opened Projection
  import opened Lifecycle
  import opened Effects

  /** Deletes every operator event and renumbers what is left. */
  function Erase(log: seq<Event>): seq<Event> {
    if log == [] then []
    else
      var n := |log| - 1;
      var rest := Erase(log[..n]);
      if log[n].kind == DesiredStateChanged then rest
      else rest + [log[n].(seqNo := |rest| + 1)]
  }

  /** Logs with no cancel intent and no lease facts. */
  predicate PauseOnly(log: seq<Event>) {
    forall i :: 0 <= i < |log| ==>
      !log[i].kind.LeaseFact() && (log[i].kind == DesiredStateChanged ==> log[i].data.desired != DesiredCancelled)
  }

  /** The projection with a pause replaced by the state it resumes into. */
  function Unpaused(s: State): State {
    s.(run := s.run.(desired := if s.run.desired == DesiredPaused then DesiredRunning else s.run.desired,
                     observed := Logical(s)),
       resume := NoStatus)
  }

  /** `u` is the unpaused `s`, up to version, update time and last event type. */
  predicate Agree(s: State, u: State) {
    u == Unpaused(s).(run := Unpaused(s).run.(version := u.run.version, updatedAt := u.run.updatedAt),
                      lastEvent := u.lastEvent)
  }

  lemma ErasesAdvance(s: State, u: State, next: Status)
    requires StatusRules(s) && s.run.desired != DesiredCancelled && Agree(s, u)
    requires next != Paused && Advance(s, next).Ok?
    ensures Advance(u, next).Ok? && Agree(Advance(s, next).value, Advance(u, next).value)
    ensures Logical(u) == Logical(s) && !u.run.observed.Terminal()
  {
    hide Allowed;
  }

  lemma ErasesTransition(s: State, u: State, next: Status)
    requires StatusRules(s) && s.run.desired == DesiredRunning && Agree(s, u)
    requires next != Paused && Transition(s, next).Ok?
    ensures Transition(u, next).Ok? && Agree(Transition(s, next).value, Transition(u, next).value)
    ensures !u.run.observed.Terminal()
  {
    hide Allowed;
  }

  lemma ErasesRunningStage(s: State, u: State, kind: EventType, d: EventData)
    requires Reachable(s) && s.run.desired == DesiredRunning && Agree(s, u)
    requires ApplyLegacy(s, kind, d).Ok?
    requires kind.AttemptStarted? || kind.WorkspaceProvisioned? || kind.PatchProduced? || kind.RunSucceeded?
    ensures ApplyLegacy(u, kind, d).Ok? && Agree(ApplyLegacy(s, kind, d).value, ApplyLegacy(u, kind, d).value)
    ensures !u.run.observed.Terminal()
  {
    hide Advance, Transition, ProgressRules, PendingRules;
    match kind
    case AttemptStarted => ErasesTransition(Attempted(s, d.attemptId), Attempted(u, d.attemptId), Provisioning);
    case WorkspaceProvisioned => ErasesTransition(s, u, Reasoning);
    case PatchProduced => ErasesTransition(s.(patchProduced := true), u.(patchProduced := true), Verifying);
    case RunSucceeded => ErasesTransition(s, u, Succeeded);
  }

  lemma ErasesRunningLegacy(s: State, u: State, kind: EventType, d: EventData)
    requires Reachable(s) && s.run.desired == DesiredRunning && Agree(s, u)
    requires ApplyLegacy(s, kind, d).Ok?
    ensures ApplyLegacy(u, kind, d).Ok? && Agree(ApplyLegacy(s, kind, d).value, ApplyLegacy(u, kind, d).value)
    ensures !u.run.observed.Terminal()
  {
    if kind.AttemptStarted? || kind.WorkspaceProvisioned? || kind.PatchProduced? || kind.RunSucceeded? {
      ErasesRunningStage(s, u, kind, d);
    } else {
      hide Advance, Transition, ProgressRules, PendingRules;
      match kind
      case ReasoningCompleted =>
        ErasesAdvance(Reasoned(s, d).(pendingId := ""), Reasoned(u, d).(pendingId := ""), Acting);
      case RunFailed =>
        var reason := if d.reason != "" then d.reason else s.failureReason;
        ErasesTransition(s.(failureReason := reason, pendingId := ""), u.(failureReason := reason, pendingId := ""), Failed);
      case _ =>
    }
  }

  lemma ErasesPausedLegacy(s: State, u: State, kind: EventType, d: EventData)
    requires Reachable(s) && s.run.desired == DesiredPaused && Agree(s, u)
    requires ApplyLegacy(s, kind, d).Ok?
    ensures ApplyLegacy(u, kind, d).Ok? && Agree(ApplyLegacy(s, kind, d).value, ApplyLegacy(u, kind, d).value)
    ensures !u.run.observed.Terminal()
  {
    hide Advance, Transition, ProgressRules, PendingRules;
    assert kind.ReasoningCompleted? || kind.ToolCallFailed? || kind.VerificationPassed?;
    if kind == ReasoningCompleted {
      ErasesAdvance(Reasoned(s, d).(pendingId := ""), Reasoned(u, d).(pendingId := ""), Acting);
    }
  }

  lemma ErasesForwardResult(s: State, u: State, d: EventData)
    requires Reachable(s) && s.run.desired != DesiredCancelled && Agree(s, u)
    requires ManagedPending(s, d) && ApplyResult(s, d).Ok?
    requires d.actionType.StartAttempt? || d.actionType.ProvisionWorkspace? || d.actionType.RunReasoner? || d.actionType.ApplyPatch?
    ensures ApplyResult(u, d).Ok? && Agree(ApplyResult(s, d).value, ApplyResult(u, d).value)
  {
    hide Advance, ProgressRules;
    match d.actionType
    case StartAttempt => ErasesAdvance(Attempted(s, d.attemptId), Attempted(u, d.attemptId), Provisioning);
    case ProvisionWorkspace => ErasesAdvance(s, u, Reasoning);
    case RunReasoner => ErasesAdvance(Reasoned(s, d), Reasoned(u, d), Acting);
    case ApplyPatch => ErasesAdvance(s.(patchProduced := true), u.(patchProduced := true), Verifying);
  }

  lemma ErasesResult(s: State, u: State, d: EventData)
    requires Reachable(s) && s.run.desired != DesiredCancelled && Agree(s, u)
    requires ManagedPending(s, d) && ApplyResult(s, d).Ok?
    ensures ApplyResult(u, d).Ok? && Agree(ApplyResult(s, d).value, ApplyResult(u, d).value)
  {
    if d.actionType.StartAttempt? || d.actionType.ProvisionWorkspace? || d.actionType.RunReasoner? || d.actionType.ApplyPatch? {
      ErasesForwardResult(s, u, d);
    } else {
      hide Advance, ProgressRules;
      match d.actionType
      case SucceedRun => ErasesAdvance(s, u, Succeeded);
      case FailRun =>
        var reason := if d.reason != "" then d.reason else s.failureReason;
        ErasesAdvance(s.(failureReason := reason), u.(failureReason := reason), Failed);
      case _ =>
    }
  }

  lemma ErasesCompletion(s: State, u: State, d: EventData)
    requires Reachable(s) && s.run.desired != DesiredCancelled && Agree(s, u)
    requires ApplyActionCompleted(s, d).Ok?
    ensures ApplyActionCompleted(u, d).Ok? && Agree(ApplyActionCompleted(s, d).value, ApplyActionCompleted(u, d).value)
    ensures !u.run.observed.Terminal()
  {
    hide ApplyResult;
    ErasesResult(s, u, d);
  }

  lemma ErasesFailure(s: State, u: State, d: EventData)
    requires Reachable(s) && s.run.desired != DesiredCancelled && Agree(s, u)
    requires ApplyActionFailed(s, d).Ok?
    ensures ApplyActionFailed(u, d).Ok? && Agree(ApplyActionFailed(s, d).value, ApplyActionFailed(u, d).value)
    ensures !u.run.observed.Terminal()
  {
    hide Advance, ProgressRules;
    var t, v := ClearPending(s).(failureReason := d.reason), ClearPending(u).(failureReason := d.reason);
    assert Agree(t, v);
    if d.outcome == OutcomeAmbiguous {
      ErasesAdvance(t, v, WaitingApproval);
    }
  }

  lemma ErasesPlan(s: State, u: State, d: EventData)
    requires Reachable(s) && s.run.desired != DesiredCancelled && Agree(s, u)
    requires ApplyActionPlanned(s, d).Ok?
    ensures ApplyActionPlanned(u, d).Ok? && Agree(ApplyActionPlanned(s, d).value, ApplyActionPlanned(u, d).value)
    ensures !u.run.observed.Terminal()
  {
    assert s.run.desired == DesiredRunning && s.run.observed != Paused;
    assert Decide(u) == Decide(s);
  }

  lemma ErasesPause(s: State, u: State, desired: DesiredState)
    requires Reachable(s) && desired != DesiredCancelled && Agree(s, u)
    requires ApplyDesired(s, desired).Ok?
    ensures Agree(ApplyDesired(s, desired).value, u) && ApplyDesired(s, desired).value.run.desired != DesiredCancelled
  {
    hide Allowed;
  }

  lemma ErasesStep(s: State, u: State, e: Event, f: Event)
    requires Reachable(s) && s.run.desired != DesiredCancelled && Agree(s, u)
    requires !e.kind.LeaseFact() && e.kind != DesiredStateChanged && ApplyEvent(s, e).Ok?
    requires f == e.(seqNo := f.seqNo)
    ensures u.present ==> !u.run.observed.Terminal()
    ensures ApplyEvent(u, f).Ok? && Agree(ApplyEvent(s, e).value, ApplyEvent(u, f).value)
  {
    hide ApplyLegacy, ApplyActionCompleted, ApplyDesired, ApplyActionPlanned, ApplyActionFailed,
      StatusRules, ProgressRules, PendingRules;
    if e.kind == RunCreated {
    } else if e.kind == ActionPlanned {
      ErasesPlan(s, u, e.data);
    } else if e.kind == ActionCompleted {
      ErasesCompletion(s, u, e.data);
    } else if e.kind == ActionFailed {
      ErasesFailure(s, u, e.data);
    } else if s.run.desired == DesiredPaused {
      ErasesPausedLegacy(s, u, e.kind, e.data);
    } else {
      LegacyNeedsRun(s, e.kind, e.data);
      ErasesRunningLegacy(s, u, e.kind, e.data);
    }
  }

  lemma LegacyNeedsRun(s: State, kind: EventType, d: EventData)
    requires Reachable(s) && s.run.desired != DesiredPaused && s.run.desired != DesiredCancelled
    requires ApplyLegacy(s, kind, d).Ok?
    ensures s.run.desired == DesiredRunning
  {
    hide Allowed;
  }

  lemma ErasedKeys(log: seq<Event>)
    ensures Keys(Erase(log)) <= Keys(log)
  {
    if log != [] {
      var n := |log| - 1;
      ErasedKeys(log[..n]);
      assert log == log[..n] + [log[n]];
      KeysSnoc(log[..n], log[n]);
      KeysSnoc(Erase(log[..n]), log[n].(seqNo := |Erase(log[..n])| + 1));
    }
  }

  /** A log without cancel never projects cancel intent. */
  lemma ApplyWantsNoCancel(s: State, e: Event)
    requires Reachable(s) && s.run.desired != DesiredCancelled && ApplyEvent(s, e).Ok?
    requires e.kind == DesiredStateChanged ==> e.data.desired != DesiredCancelled
    ensures ApplyEvent(s, e).value.run.desired != DesiredCancelled
  {
    hide ApplyLegacy, ApplyActionCompleted, ApplyDesired, ApplyActionPlanned, ApplyActionFailed, Reachable;
    if e.kind == DesiredStateChanged {
      DesiredEffect(s, e.data.desired);
    } else if e.kind == ActionPlanned {
      PlanEffect(s, e.data);
    } else if e.kind == ActionCompleted {
      CompletionEffect(s, e.data);
    } else if e.kind == ActionFailed {
      FailureEffect(s, e.data);
    } else if ApplyLegacy(s, e.kind, e.data).Ok? {
      LegacyEffect(s, e.kind, e.data);
    }
  }

  lemma AgreeRun(s: State, u: State)
    requires Agree(s, u)
    ensures u.present == s.present && u.run.id == s.run.id
  {
  }

  lemma PauseApplies(s: State, u: State, e: Event)
    requires Reachable(s) && Agree(s, u) && e.kind == DesiredStateChanged && e.data.desired != DesiredCancelled
    requires ApplyEvent(s, e).Ok?
    ensures
      var t := ApplyEvent(s, e).value;
      Agree(Stamp(t, e), u) && Stamp(t, e).run.desired == t.run.desired
  {
    hide ApplyDesired, Reachable;
    ErasesPause(s, u, e.data.desired);
  }

  lemma StampAgrees(t: State, v: State, e: Event, f: Event)
    requires Agree(t, v)
    ensures Agree(Stamp(t, e), Stamp(v, f)) && Stamp(t, e).run.desired == t.run.desired
  {
  }

  lemma EmptyAgrees()
    ensures Fold([]) == Ok(INITIAL) && Agree(INITIAL, INITIAL)
  {
  }

  /**
    In any valid log without cancel and without lease facts, deleting every pause
    and resume and renumbering gives a valid log with the same projection, once
    Paused is replaced by the state it resumes into.
  */
  lemma {:induction false} PausesErase(log: seq<Event>)
    requires ValidLog(log) && PauseOnly(log)
    ensures ValidLog(Erase(log)) && Agree(Final(log), Final(Erase(log)))
    ensures Final(log).run.desired != DesiredCancelled
  {
    hide ApplyEvent, Agree, Reachable, Stamp;
    if log == [] {
      EmptyAgrees();
    } else {
      var n := |log| - 1;
      var s, e := Final(log[..n]), log[n];
      assert log[..n + 1] == log;
      StepAt(log, n);
      PausesErase(log[..n]);
      ApplyWantsNoCancel(s, e);
      var rest := Erase(log[..n]);
      var u := Final(rest);
      AgreeRun(s, u);
      if e.kind == DesiredStateChanged {
        PauseApplies(s, u, e);
      } else {
        var f := e.(seqNo := |rest| + 1);
        ErasesStep(s, u, e, f);
        ErasedKeys(log[..n]);
        FoldSnoc(rest, f);
        StampAgrees(ApplyEvent(s, e).value, ApplyEvent(u, f).value, e, f);
      }
    }
  }

  /** Results that land while paused commute with the pause: only the erased log decides the projection. */
  lemma ResultsCommuteWithPause(log: seq<Event>, other: seq<Event>)
    requires ValidLog(log) && PauseOnly(log) && ValidLog(other) && PauseOnly(other)
    requires Erase(log) == Erase(other)
    ensures
      var s, t := Unpaused(Final(log)), Unpaused(Final(other));
      t == s.(run := s.run.(version := t.run.version, updatedAt := t.run.updatedAt), lastEvent := t.lastEvent)
  {
    hide Fold, Unpaused;
    PausesErase(log);
    PausesErase(other);
  }
}
