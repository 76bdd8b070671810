/** Why managed actions fail, under every schedule: only an executor error or cancel intent is a plain failure. */
module FailureCauses {
  import opened Types
  import opened Decider
  import opened Reducer
  import opened Projection
  import opened Lifecycle
  import opened CancelIntent
  import opened EventStore
  import opened Database
  import opened StoreInvariants
  import opened Managed
  import opened UnsafeOnce

  /** A failure with outcome failed, as opposed to ambiguous. */
  predicate PlainFailure(e: Event) {
    e.kind == ActionFailed && e.data.outcome == OutcomeFailed
  }

  function FailedAction(e: Event): Action {
    Action(e.data.actionType, e.data.actionId)
  }

  /** At this log the operator wants the Run cancelled. */
  ghost predicate CancelWanted(log: seq<Event>) {
    ValidLog(log) && Final(log).run.desired == DesiredCancelled
  }

  /** The plain failure has a cause: cancel intent before it, or an error of the executor. */
  ghost predicate Caused(log: seq<Event>, tally: Tally, e: Event) {
    PlainFailure(e) ==> CancelWanted(log) || tally.broken[FailedAction(e)] > 0
  }

  ghost predicate LogCaused(log: seq<Event>, tally: Tally) {
    forall j :: 0 <= j < |log| ==> Caused(log[..j], tally, log[j])
  }

  ghost predicate PhaseCaused(log: seq<Event>, tally: Tally, phase: Phase) {
    match phase
    case Finishing(e, _, _) => Caused(log, tally, e)
    case Conflicted(e) => Caused(log, tally, e)
    case _ => true
  }

  ghost predicate AllCaused(m: Machine) {
    && LogCaused(m.db.log, m.tally)
    && forall t :: t in m.procs ==> PhaseCaused(m.db.log, m.tally, m.procs[t].phase)
  }

  // ----- causes stay -----

  lemma CancelStays(log: seq<Event>, longer: seq<Event>)
    requires CancelWanted(log) && log <= longer && ValidLog(longer)
    ensures CancelWanted(longer)
  {
    hide Fold, SameWork;
    assert longer == log + longer[|log|..];
    CancelIrrevocable(log, longer[|log|..]);
  }

  lemma CauseStays(log: seq<Event>, longer: seq<Event>, tally: Tally, after: Tally, e: Event)
    requires Caused(log, tally, e) && log <= longer && ValidLog(longer)
    requires tally.broken <= after.broken
    ensures Caused(longer, after, e)
  {
    hide CancelWanted;
    if PlainFailure(e) && CancelWanted(log) {
      CancelStays(log, longer);
    }
  }

  /** A log grown by an event that is no plain failure, or whose cause is known. */
  lemma LogGrowsCaused(log: seq<Event>, e: Event, tally: Tally, after: Tally)
    requires LogCaused(log, tally) && Caused(log, after, e) && tally.broken <= after.broken
    ensures LogCaused(log + [e], after)
  {
    hide CancelWanted;
    var longer := log + [e];
    forall j | 0 <= j < |longer|
      ensures Caused(longer[..j], after, longer[j])
    {
      assert longer[..j] == log[..j];
      if j < |log| {
        assert Caused(log[..j], tally, log[j]);
      } else {
        assert log[..j] == log;
      }
    }
  }

  lemma PhasesStayCaused(m: Machine, log: seq<Event>, after: Tally)
    requires forall t :: t in m.procs ==> PhaseCaused(m.db.log, m.tally, m.procs[t].phase)
    requires m.db.log <= log && ValidLog(log) && m.tally.broken <= after.broken
    ensures forall t :: t in m.procs ==> PhaseCaused(log, after, m.procs[t].phase)
  {
    hide Caused;
    forall t | t in m.procs
      ensures PhaseCaused(log, after, m.procs[t].phase)
    {
      var phase := m.procs[t].phase;
      if phase.Finishing? || phase.Conflicted? {
        CauseStays(m.db.log, log, m.tally, after, phase.event);
      }
    }
  }

  // ----- one step -----

  /** What a step of a process does to the log, and which event it goes on with. */
  ghost predicate StepCaused(m: Machine, moved: Effect) {
    && m.tally.broken <= moved.tally.broken
    && (moved.db.log == m.db.log
        || (|moved.db.log| == |m.db.log| + 1 && moved.db.log == m.db.log + [moved.db.log[|m.db.log|]]
            && Caused(m.db.log, m.tally, moved.db.log[|m.db.log|])))
    && PhaseCaused(m.db.log, moved.tally, moved.phase)
  }

  lemma AppendCaused(db: Tables, expected: nat, e: Event, tally: Tally)
    requires e.runId == db.runId && Caused(db.log, tally, e)
    ensures
      var after := AfterAppend(db, expected, e);
      after.log == db.log
      || (|after.log| == |db.log| + 1 && after.log == db.log + [after.log[|db.log|]] && Caused(db.log, tally, after.log[|db.log|]))
  {
    hide Fold, AppendAnswer, CancelWanted;
    if AppendAnswer(db, expected, e).Appended? {
      var stored := AppendAdmits(db, expected, e);
      assert stored.kind == e.kind && stored.data == e.data;
    }
  }

  lemma RecoverCaused(m: Machine, worker: string, token: nat, s: State)
    requires ValidLog(m.db.log) && LoadedFrom(m.db.log, s, token)
    ensures PhaseCaused(m.db.log, m.tally, Recover(m.db, worker, token, s))
  {
    hide Fold;
    if s.run.desired == DesiredCancelled {
      CancelStays(m.db.log[..s.run.version], m.db.log);
    }
  }

  lemma ExecuteCaused(m: Machine, worker: string, token: nat, s: State, c: Command, version: nat, x: Execution)
    ensures StepCaused(m, Execute(m, worker, token, s, c, version, x))
  {
    hide CancelWanted;
  }

  lemma RecordCaused(m: Machine, worker: string, token: nat, s: State, c: Command, version: nat, r: Receipt)
    ensures StepCaused(m, Record(m, worker, token, s, c, version, r))
  {
    hide ReceiptOutcome, CheckAuthority, CancelWanted;
  }

  lemma PlanCaused(m: Machine, worker: string, token: nat, s: State)
    ensures StepCaused(m, Plan(m, worker, token, s))
  {
    hide AppendAnswer, AfterAppend, Decide, CancelWanted, Fold;
    AppendCaused(m.db, s.run.version, PlannedEvent(m.db.runId, worker, token, Decide(s)), m.tally);
  }

  lemma FinishCaused(m: Machine, e: Event, version: nat, retried: bool)
    requires e.runId == m.db.runId && Caused(m.db.log, m.tally, e)
    ensures StepCaused(m, Finish(m, e, version, retried))
  {
    hide AppendAnswer, AfterAppend, Caused, Fold;
    AppendCaused(m.db, version, e, m.tally);
  }

  lemma WorkCaused(m: Machine, token: nat, x: Execution)
    requires Guarded(m) && token in m.procs && PhaseCaused(m.db.log, m.tally, m.procs[token].phase)
    ensures StepCaused(m, WorkStep(m, m.procs[token].worker, token, m.procs[token].phase, x))
  {
    hide Guarded, Plan, Execute, Record, Finish, Load, Recover, EvidenceHolds, CheckAuthority, Fold, MayRun, LoadedFrom, CancelWanted,
      Consistent;
    GuardedConsistent(m);
    var p := m.procs[token];
    match p.phase
    case Ready(s, c, version) => ExecuteCaused(m, p.worker, token, s, c, version, x);
    case Executed(s, c, version, r) => RecordCaused(m, p.worker, token, s, c, version, r);
    case Finishing(e, version, retried) =>
      if e.runId == m.db.runId {
        FinishCaused(m, e, version, retried);
      }
    case Loaded(s) =>
      if s.pendingId == "" {
        PlanCaused(m, p.worker, token, s);
      } else {
        RecoverCaused(m, p.worker, token, s);
      }
    case _ =>
  }

  lemma GrownCaused(m: Machine, after: Machine)
    requires AllCaused(m) && ValidLog(after.db.log) && m.tally.broken <= after.tally.broken
    requires after.db.log == m.db.log
             || (|after.db.log| == |m.db.log| + 1 && after.db.log == m.db.log + [after.db.log[|m.db.log|]]
                 && Caused(m.db.log, m.tally, after.db.log[|m.db.log|]))
    ensures LogCaused(after.db.log, after.tally)
    ensures forall t :: t in m.procs ==> PhaseCaused(after.db.log, after.tally, m.procs[t].phase)
  {
    hide CancelWanted, PhaseCaused;
    PhasesStayCaused(m, after.db.log, after.tally);
    if after.db.log != m.db.log {
      LogGrowsCaused(m.db.log, after.db.log[|m.db.log|], m.tally, after.tally);
    }
  }

  lemma WorkKeepsCauses(m: Machine, token: nat, x: Execution)
    requires Guarded(m) && AllCaused(m) && token in m.procs
    ensures AllCaused(Worked(m, token, x))
  {
    hide Guarded, WorkStep, LogCaused, PhaseCaused, Fold, Caused;
    var p := m.procs[token];
    var after := Worked(m, token, x);
    var moved := WorkStep(m, p.worker, token, p.phase, x);
    WorkGuards(m, token, x);
    GuardedConsistent(after);
    WorkCaused(m, token, x);
    GrownCaused(m, after);
    MovedPhase(m.db.log, after.db.log, moved);
  }

  lemma MovedPhase(log: seq<Event>, longer: seq<Event>, moved: Effect)
    requires PhaseCaused(log, moved.tally, moved.phase) && log <= longer && ValidLog(longer)
    ensures PhaseCaused(longer, moved.tally, moved.phase)
  {
    hide Caused;
    if moved.phase.Finishing? || moved.phase.Conflicted? {
      CauseStays(log, longer, moved.tally, moved.tally, moved.phase.event);
    }
  }

  lemma OutsideCaused(db: Tables, op: Op, tally: Tally)
    requires Outside(op)
    ensures
      var after := Do(db, op);
      after.log == db.log
      || (|after.log| == |db.log| + 1 && after.log == db.log + [after.log[|db.log|]] && Caused(db.log, tally, after.log[|db.log|]))
  {
    hide AfterAppend, Fold, CheckAuthority, CancelWanted;
    if op.Append? && op.event.runId == db.runId {
      AppendCaused(db, op.expected, op.event, tally);
    }
  }

  lemma OthersKeepCauses(m: Machine, step: Move)
    requires Guarded(m) && AllCaused(m) && !step.Work?
    ensures AllCaused(Next(m, step))
  {
    hide Guarded, LogCaused, PhaseCaused, Fold, Caused, Do, AcquireAnswer;
    var after := Next(m, step);
    StepGuards(m, step);
    GuardedConsistent(after);
    match step
    case Environment(op) =>
      if Outside(op) {
        OutsideCaused(m.db, op, m.tally);
      }
      GrownCaused(m, after);
    case _ =>
      GrownCaused(m, after);
      IdleCaused(after.db.log, after.tally);
  }

  lemma IdleCaused(log: seq<Event>, tally: Tally)
    ensures PhaseCaused(log, tally, Idle)
  {
  }

  lemma {:induction false} AlwaysCaused(runId: string, schedule: seq<Move>)
    ensures AllCaused(Reached(Start(runId), schedule))
  {
    hide Next, Guarded, AllCaused;
    if schedule == [] {
      NothingCaused(runId);
    } else {
      var n := |schedule| - 1;
      AlwaysCaused(runId, schedule[..n]);
      AlwaysGuarded(runId, schedule[..n]);
      var m := Reached(Start(runId), schedule[..n]);
      if schedule[n].Work? {
        if schedule[n].token in m.procs {
          WorkKeepsCauses(m, schedule[n].token, schedule[n].execution);
        }
        WorkMove(m, schedule[n]);
      } else {
        OthersKeepCauses(m, schedule[n]);
      }
    }
  }

  lemma WorkMove(m: Machine, step: Move)
    requires step.Work?
    ensures Next(m, step) == if step.token in m.procs then Worked(m, step.token, step.execution) else m
  {
    hide Worked;
  }

  lemma NothingCaused(runId: string)
    ensures AllCaused(Start(runId))
  {
  }

  /**
    Under every schedule of steps, crashes, takeovers and operators: a managed action without
    executor error, failed before any cancel intent, failed as ambiguous, and so the Run is
    held for its operator rather than failed.
  */
  lemma UnexplainedFailuresAreAmbiguous(runId: string, schedule: seq<Move>, j: nat)
    requires j < |Reached(Start(runId), schedule).db.log|
    requires
      var m := Reached(Start(runId), schedule);
      && m.db.log[j].kind == ActionFailed && m.tally.broken[FailedAction(m.db.log[j])] == 0
      && ValidLog(m.db.log[..j]) && Final(m.db.log[..j]).run.desired != DesiredCancelled
    ensures Reached(Start(runId), schedule).db.log[j].data.outcome == OutcomeAmbiguous
  {
    hide Next, Guarded, Fold, Consistent;
    AlwaysCaused(runId, schedule);
    AlwaysGuarded(runId, schedule);
    var m := Reached(Start(runId), schedule);
    GuardedConsistent(m);
    assert Caused(m.db.log[..j], m.tally, m.db.log[j]);
    OutcomesKnown(m.db.log, j);
  }

  lemma OutcomesKnown(log: seq<Event>, j: nat)
    requires ValidLog(log) && j < |log| && log[j].kind == ActionFailed
    ensures log[j].data.outcome == OutcomeFailed || log[j].data.outcome == OutcomeAmbiguous
  {
    hide Fold, Stamp, Reachable, Advance;
    StepAt(log, j);
  }
}
