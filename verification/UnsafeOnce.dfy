/** An unsafe action runs at most once, under every schedule of crashes, takeovers and operator intent. */
module UnsafeOnce {
  import opened Types
  import opened Decider
  import opened Reducer
  import opened Projection
  import opened Lifecycle
  import opened PlanOnce
  import opened EventStore
  import opened Evidence
  import opened ReceiptScan
  import opened Database
  import opened StoreInvariants
  import opened Managed

  /** The log holds a plan of this action at `i`. */
  ghost predicate PlanAt(log: seq<Event>, i: int, x: Action) {
    0 <= i < |log| && Plans(log[i], x.kind) && log[i].data.actionId == x.id
  }

  /** An unsafe plan may still run only in the process that wrote it, and only if it never ran. */
  ghost predicate Unspent(log: seq<Event>, tally: Tally, token: nat, i: int, x: Action) {
    PlanAt(log, i, x) && (log[i].data.scope == Unsafe ==> log[i].token == token && tally.executed[x] == 0)
  }

  ghost predicate MayRun(log: seq<Event>, tally: Tally, token: nat, c: Command) {
    ForwardKind(c.kind) ==> exists i :: Unspent(log, tally, token, i, ActionOf(c))
  }

  /** A loaded state is the projection of a prefix, since which the process planned nothing. */
  ghost predicate LoadedFrom(log: seq<Event>, s: State, token: nat) {
    && s.run.version <= |log|
    && Fold(log[..s.run.version]) == Ok(s)
    && forall j :: s.run.version <= j < |log| ==> !(log[j].kind == ActionPlanned && log[j].token == token)
  }

  ghost predicate PhaseRules(log: seq<Event>, tally: Tally, token: nat, phase: Phase) {
    match phase
    case Loaded(s) => LoadedFrom(log, s, token)
    case Replanned(c) => MayRun(log, tally, token, c)
    case Planned(c, _) => MayRun(log, tally, token, c)
    case Ready(_, c, _) => MayRun(log, tally, token, c)
    case Finishing(e, _, _) => e.kind != ActionPlanned
    case Conflicted(e) => e.kind != ActionPlanned
    case _ => true
  }

  ghost predicate ProcessRules(m: Machine) {
    forall t :: t in m.procs ==> PhaseRules(m.db.log, m.tally, t, m.procs[t].phase)
  }

  ghost predicate UnsafeRules(log: seq<Event>, tally: Tally) {
    && (forall i, x :: PlanAt(log, i, x) && ForwardKind(x.kind) && log[i].data.scope == Unsafe ==> tally.executed[x] <= 1)
    && (forall x: Action :: ForwardKind(x.kind) && tally.executed[x] > 0 ==> exists i :: PlanAt(log, i, x))
  }

  ghost predicate Guarded(m: Machine) {
    Consistent(m.db) && ProcessRules(m) && UnsafeRules(m.db.log, m.tally)
  }

  lemma ConsistentLog(db: Tables)
    requires Consistent(db)
    ensures ValidLog(db.log)
  {
    hide FencingRules, ModeRules, NothingSplit, EvidenceRules, Fold;
  }

  // ----- growing logs -----

  lemma PlanAtSnoc(log: seq<Event>, e: Event, i: int, x: Action)
    ensures PlanAt(log + [e], i, x) <==> PlanAt(log, i, x) || (i == |log| && Plans(e, x.kind) && e.data.actionId == x.id)
    ensures 0 <= i < |log| ==> (log + [e])[i] == log[i]
  {
    assert (log + [e])[|log|] == e;
  }

  lemma PhaseSurvives(log: seq<Event>, e: Event, tally: Tally, token: nat, phase: Phase)
    requires PhaseRules(log, tally, token, phase) && !(e.kind == ActionPlanned && e.token == token)
    ensures PhaseRules(log + [e], tally, token, phase)
  {
    hide Fold;
    if phase.Loaded? {
      assert (log + [e])[..phase.state.run.version] == log[..phase.state.run.version];
      assert forall j :: 0 <= j < |log| ==> (log + [e])[j] == log[j];
    } else if phase.Replanned? || phase.Planned? || phase.Ready? {
      if ForwardKind(phase.command.kind) {
        var i :| Unspent(log, tally, token, i, ActionOf(phase.command));
        PlanAtSnoc(log, e, i, ActionOf(phase.command));
        assert Unspent(log + [e], tally, token, i, ActionOf(phase.command));
      }
    }
  }

  lemma RulesSurvive(log: seq<Event>, e: Event, tally: Tally)
    requires UnsafeRules(log, tally) && e.kind != ActionPlanned
    ensures UnsafeRules(log + [e], tally)
  {
    forall i, x
      ensures PlanAt(log + [e], i, x) <==> PlanAt(log, i, x)
      ensures 0 <= i < |log| ==> (log + [e])[i] == log[i]
    {
      PlanAtSnoc(log, e, i, x);
    }
  }

  /** The database moved on without planning anything. */
  ghost predicate NoPlanAdded(db: Tables, after: Tables) {
    || after.log == db.log
    || (|after.log| == |db.log| + 1 && after.log == db.log + [after.log[|db.log|]] && after.log[|db.log|].kind != ActionPlanned)
  }

  lemma DatabaseMoves(m: Machine, after: Tables)
    requires Guarded(m) && Consistent(after) && NoPlanAdded(m.db, after)
    ensures Guarded(m.(db := after))
  {
    hide Consistent, PhaseRules, UnsafeRules;
    if after.log != m.db.log {
      var e := after.log[|m.db.log|];
      RulesSurvive(m.db.log, e, m.tally);
      forall t | t in m.procs
        ensures PhaseRules(after.log, m.tally, t, m.procs[t].phase)
      {
        PhaseSurvives(m.db.log, e, m.tally, t, m.procs[t].phase);
      }
    }
  }

  lemma AppendAddsNoPlan(db: Tables, expected: nat, e: Event)
    requires e.runId == db.runId && e.kind != ActionPlanned
    ensures NoPlanAdded(db, AfterAppend(db, expected, e))
  {
    hide Fold, AppendAnswer;
    if AppendAnswer(db, expected, e).Appended? {
      var stored := AppendAdmits(db, expected, e);
    }
  }

  lemma OutsideAddsNoPlan(db: Tables, op: Op)
    requires Outside(op)
    ensures NoPlanAdded(db, Do(db, op))
  {
    hide AfterAppend, Fold, CheckAuthority;
    if op.Append? && op.event.runId == db.runId {
      AppendAddsNoPlan(db, op.expected, op.event);
    }
  }

  // ----- changing phase -----

  lemma PhaseMoves(m: Machine, token: nat, p: Process)
    requires Guarded(m) && PhaseRules(m.db.log, m.tally, token, p.phase)
    ensures Guarded(m.(procs := m.procs[token := p]))
  {
    hide Consistent, PhaseRules, UnsafeRules;
  }

  lemma JustLoaded(db: Tables, tally: Tally, token: nat)
    requires Consistent(db) && Load(db).Some?
    ensures PhaseRules(db.log, tally, token, Loaded(Load(db).value))
  {
    hide Fold, Consistent, Reachable;
    ConsistentLog(db);
    ProjectionReachable(db.log);
    assert db.log[..|db.log|] == db.log;
  }

  /** Recovery re-executes only what was planned as safe to repeat. */
  lemma RecoveredMayRun(log: seq<Event>, tally: Tally, token: nat, s: State)
    requires ValidLog(log) && LoadedFrom(log, s, token)
    requires s.pendingScope == ScopedIdempotent
    ensures MayRun(log, tally, token, PendingCommand(s))
  {
    hide Fold, ResultAfter;
    if ForwardKind(s.pendingType) {
      var i := PendingHasPlan(log[..s.run.version]);
      assert log[..s.run.version][i] == log[i];
      assert Unspent(log, tally, token, i, ActionOf(PendingCommand(s)));
    }
  }

  lemma RecoverKeeps(m: Machine, worker: string, token: nat, s: State)
    requires ValidLog(m.db.log) && LoadedFrom(m.db.log, s, token)
    ensures PhaseRules(m.db.log, m.tally, token, Recover(m.db, worker, token, s))
  {
    hide Fold, LoadedFrom, MayRun;
    if s.pendingScope == ScopedIdempotent {
      RecoveredMayRun(m.db.log, m.tally, token, s);
    }
  }

  // ----- planning -----

  lemma DecidedIsUnused(s: State)
    requires Reachable(s) && s.pendingId == "" && ForwardKind(Decide(s).kind)
    ensures !Used(s, Decide(s).kind)
  {
  }

  lemma ReplayedPlan(db: Tables, expected: nat, e: Event) returns (i: nat)
    requires e.runId == db.runId && AppendAnswer(db, expected, e).Replayed?
    ensures i < |db.log| && db.log[i].kind == e.kind && db.log[i].data == e.data && db.log[i].token == e.token
  {
    hide Fold, CheckMode, CheckReceipt, FindKey;
    var found := FindKey(db.log, e.key).value;
    FindKeyFinds(db.log, e.key);
    var k :| 0 <= k < |db.log| && db.log[k] == found;
    i := k;
  }

  /** A process never finds its own plan of a forward action already stored. */
  lemma NeverReplanned(db: Tables, worker: string, token: nat, s: State)
    requires ValidLog(db.log) && LoadedFrom(db.log, s, token) && s.pendingId == ""
    requires ForwardKind(Decide(s).kind)
    ensures !AppendAnswer(db, s.run.version, PlannedEvent(db.runId, worker, token, Decide(s))).Replayed?
  {
    hide Fold, AppendAnswer, Decide, Used, Reachable;
    var e := PlannedEvent(db.runId, worker, token, Decide(s));
    if AppendAnswer(db, s.run.version, e).Replayed? {
      var i := ReplayedPlan(db, s.run.version, e);
      var n := s.run.version;
      assert i < n;
      PrefixValid(db.log, n);
      assert db.log[..n][i] == db.log[i] && db.log[..n][..n] == db.log[..n];
      UsedForever(db.log[..n], i, n, Decide(s).kind);
      ProjectionReachable(db.log[..n]);
      DecidedIsUnused(s);
    }
  }

  lemma FreshPlan(log: seq<Event>, e: Event, tally: Tally, token: nat, c: Command)
    requires ValidLog(log + [e]) && UnsafeRules(log, tally)
    requires e.kind == ActionPlanned && e.data == Decider.PlanData(c, e.data.scope) && e.token == token
    ensures UnsafeRules(log + [e], tally) && MayRun(log + [e], tally, token, c)
  {
    hide Fold, ForwardKind;
    var longer := log + [e];
    var x := ActionOf(c);
    assert PlanAt(longer, |log|, x);
    if ForwardKind(c.kind) && tally.executed[x] > 0 {
      var i :| PlanAt(log, i, x);
      assert longer[i] == log[i];
      PlannedAtMostOnce(longer, i, |log|, c.kind);
    }
    if ForwardKind(c.kind) {
      assert Unspent(longer, tally, token, |log|, x);
    }
    forall i, y
      ensures PlanAt(longer, i, y) <==> PlanAt(log, i, y) || (i == |log| && y == x)
      ensures 0 <= i < |log| ==> longer[i] == log[i]
    {
      PlanAtSnoc(log, e, i, y);
    }
  }

  lemma PlanKeepsLog(m: Machine, worker: string, token: nat, s: State, stored: Event)
    requires Guarded(m) && token in m.procs && Decide(s).kind != Noop
    requires AppendAnswer(m.db, s.run.version, PlannedEvent(m.db.runId, worker, token, Decide(s))) == Appended(stored)
    ensures
      var e := PlannedEvent(m.db.runId, worker, token, Decide(s));
      var after := AfterAppend(m.db, s.run.version, e);
      && Consistent(after)
      && UnsafeRules(after.log, m.tally)
      && (forall t :: t in m.procs && t != token ==> PhaseRules(after.log, m.tally, t, m.procs[t].phase))
      && MayRun(after.log, m.tally, token, Decide(s))
  {
    hide Fold, AppendAnswer, Decide, PhaseRules, Consistent, UnsafeRules, Admitted, AfterAppend;
    var e := PlannedEvent(m.db.runId, worker, token, Decide(s));
    AppendKeeps(m.db, s.run.version, e);
    var appended := AppendAdmits(m.db, s.run.version, e);
    AdmittedValid(m.db, stored);
    FreshPlan(m.db.log, stored, m.tally, token, Decide(s));
    forall t | t in m.procs && t != token
      ensures PhaseRules(m.db.log + [stored], m.tally, t, m.procs[t].phase)
    {
      PhaseSurvives(m.db.log, stored, m.tally, t, m.procs[t].phase);
    }
  }

  lemma PlanGuards(m: Machine, worker: string, token: nat, s: State)
    requires Guarded(m) && token in m.procs && m.procs[token] == Process(worker, Loaded(s)) && s.pendingId == ""
    ensures
      var moved := Plan(m, worker, token, s);
      Guarded(Machine(moved.db, m.procs[token := Process(worker, moved.phase)], moved.tally))
  {
    hide Fold, Decide, AppendAnswer, AfterAppend, Consistent, UnsafeRules, MayRun, PlannedEvent;
    var c := Decide(s);
    var e := PlannedEvent(m.db.runId, worker, token, c);
    PlannedEventRun(m.db.runId, worker, token, c);
    ConsistentLog(m.db);
    if c.kind != Noop && Safety(c).Valid() {
      if AppendAnswer(m.db, s.run.version, e).Appended? {
        PlanKeepsLog(m, worker, token, s, AppendAnswer(m.db, s.run.version, e).event);
      } else {
        RefusedChangesNothing(m.db, s.run.version, e);
        if ForwardKind(c.kind) {
          NeverReplanned(m.db, worker, token, s);
        } else {
          NotForwardMayRun(m.db.log, m.tally, token, c);
        }
      }
    }
  }

  lemma NotForwardMayRun(log: seq<Event>, tally: Tally, token: nat, c: Command)
    requires !ForwardKind(c.kind)
    ensures MayRun(log, tally, token, c)
  {
  }

  lemma PlannedEventRun(runId: string, worker: string, token: nat, c: Command)
    ensures PlannedEvent(runId, worker, token, c).runId == runId
  {
  }

  lemma RefusedChangesNothing(db: Tables, expected: nat, e: Event)
    requires e.runId == db.runId && !AppendAnswer(db, expected, e).Appended?
    ensures AfterAppend(db, expected, e) == db
  {
    hide AppendAnswer, Fold;
  }

  // ----- executing -----

  /** Two processes never hold the same unsafe action. */
  lemma SoleRunner(log: seq<Event>, tally: Tally, token: nat, other: nat, c: Command, d: Command)
    requires ValidLog(log) && MayRun(log, tally, token, c) && MayRun(log, tally, other, d) && token != other
    ensures MayRun(log, tally.(executed := tally.executed + multiset{ActionOf(c)}), other, d)
  {
    hide Fold;
    if ForwardKind(d.kind) {
      var j :| Unspent(log, tally, other, j, ActionOf(d));
      if ActionOf(c) == ActionOf(d) && log[j].data.scope == Unsafe {
        var i :| Unspent(log, tally, token, i, ActionOf(c));
        if i <= j {
          PlannedAtMostOnce(log, i, j, c.kind);
        } else {
          PlannedAtMostOnce(log, j, i, c.kind);
        }
      } else {
        assert Unspent(log, tally.(executed := tally.executed + multiset{ActionOf(c)}), other, j, ActionOf(d));
      }
    }
  }

  lemma RanRules(log: seq<Event>, tally: Tally, token: nat, c: Command)
    requires ValidLog(log) && UnsafeRules(log, tally) && MayRun(log, tally, token, c)
    ensures UnsafeRules(log, tally.(executed := tally.executed + multiset{ActionOf(c)}))
  {
    hide Fold;
    var x := ActionOf(c);
    var ran := tally.(executed := tally.executed + multiset{x});
    forall i, y | PlanAt(log, i, y) && ForwardKind(y.kind) && log[i].data.scope == Unsafe
      ensures ran.executed[y] <= 1
    {
      if y == x {
        var j :| Unspent(log, tally, token, j, x);
        if i <= j {
          PlannedAtMostOnce(log, i, j, c.kind);
        } else {
          PlannedAtMostOnce(log, j, i, c.kind);
        }
      }
    }
    forall y: Action | ForwardKind(y.kind) && ran.executed[y] > 0
      ensures exists i :: PlanAt(log, i, y)
    {
      if y == x {
        var j :| Unspent(log, tally, token, j, x);
      }
    }
  }

  lemma PhaseAfterRun(log: seq<Event>, tally: Tally, token: nat, c: Command, other: nat, phase: Phase)
    requires ValidLog(log) && MayRun(log, tally, token, c) && token != other && PhaseRules(log, tally, other, phase)
    ensures PhaseRules(log, tally.(executed := tally.executed + multiset{ActionOf(c)}), other, phase)
  {
    hide Fold, MayRun, LoadedFrom;
    if phase.Replanned? || phase.Planned? || phase.Ready? {
      SoleRunner(log, tally, token, other, c, phase.command);
    }
  }

  /** Only `executed` matters to the rules. */
  lemma OtherCounts(m: Machine, tally: Tally)
    requires Guarded(m) && tally.executed == m.tally.executed
    ensures Guarded(m.(tally := tally))
  {
    hide Consistent, Fold;
    forall t | t in m.procs
      ensures PhaseRules(m.db.log, tally, t, m.procs[t].phase)
    {
      PhaseCounts(m.db.log, m.tally, tally, t, m.procs[t].phase);
    }
  }

  lemma PhaseCounts(log: seq<Event>, tally: Tally, after: Tally, token: nat, phase: Phase)
    requires PhaseRules(log, tally, token, phase) && after.executed == tally.executed
    ensures PhaseRules(log, after, token, phase)
  {
    hide LoadedFrom, PlanAt;
    if (phase.Replanned? || phase.Planned? || phase.Ready?) && ForwardKind(phase.command.kind) {
      var i :| Unspent(log, tally, token, i, ActionOf(phase.command));
      assert Unspent(log, after, token, i, ActionOf(phase.command));
    }
  }

  lemma RanGuards(m: Machine, token: nat, c: Command, p: Process)
    requires Guarded(m) && token in m.procs && MayRun(m.db.log, m.tally, token, c)
    requires p.phase.Executed? || (p.phase.Finishing? && p.phase.event.kind != ActionPlanned)
    ensures Guarded(Machine(m.db, m.procs[token := p], m.tally.(executed := m.tally.executed + multiset{ActionOf(c)})))
  {
    hide Consistent, UnsafeRules, MayRun, Fold, LoadedFrom;
    ConsistentLog(m.db);
    RanRules(m.db.log, m.tally, token, c);
    forall t | t in m.procs && t != token
      ensures PhaseRules(m.db.log, m.tally.(executed := m.tally.executed + multiset{ActionOf(c)}), t, m.procs[t].phase)
    {
      PhaseAfterRun(m.db.log, m.tally, token, c, t, m.procs[t].phase);
    }
  }

  lemma ArtifactKeeps(db: Tables, id: string, artifact: Artifact)
    requires Consistent(db)
    ensures Consistent(AfterArtifact(db, id, artifact)) && AfterArtifact(db, id, artifact).log == db.log
  {
    hide Consistent;
    OthersKeep(db, AfterArtifact(db, id, artifact));
  }

  lemma ExecuteGuards(m: Machine, worker: string, token: nat, s: State, c: Command, version: nat, x: Execution)
    requires Guarded(m) && token in m.procs && m.procs[token] == Process(worker, Ready(s, c, version))
    ensures
      var moved := Execute(m, worker, token, s, c, version, x);
      Guarded(Machine(moved.db, m.procs[token := Process(worker, moved.phase)], moved.tally))
  {
    hide Consistent, MayRun, AfterArtifact, Guarded, Fold;
    assert MayRun(m.db.log, m.tally, token, c) && Consistent(m.db) by { ReadyMayRun(m, worker, token, s, c, version); }
    var moved := Execute(m, worker, token, s, c, version, x);
    RanGuards(m, token, c, Process(worker, moved.phase));
    var ran := Machine(m.db, m.procs[token := Process(worker, moved.phase)],
                       m.tally.(executed := m.tally.executed + multiset{ActionOf(c)}));
    if Settled(m.db, c, x).Broken? {
      OtherCounts(ran, moved.tally);
    } else if x.artifact.Some? {
      ArtifactKeeps(m.db, ArtifactIdFor(c.actionId), x.artifact.value);
      DatabaseMoves(ran, moved.db);
    }
  }

  lemma ReadyMayRun(m: Machine, worker: string, token: nat, s: State, c: Command, version: nat)
    requires Guarded(m) && token in m.procs && m.procs[token] == Process(worker, Ready(s, c, version))
    ensures MayRun(m.db.log, m.tally, token, c) && Consistent(m.db)
  {
    hide MayRun, Consistent, UnsafeRules;
  }

  lemma RecordGuards(m: Machine, worker: string, token: nat, s: State, c: Command, version: nat, r: Receipt)
    requires Guarded(m) && token in m.procs
    ensures
      var moved := Record(m, worker, token, s, c, version, r);
      Guarded(Machine(moved.db, m.procs[token := Process(worker, moved.phase)], moved.tally))
  {
    hide Consistent, ReceiptOutcome, Guarded, CheckAuthority, Fold;
    var moved := Record(m, worker, token, s, c, version, r);
    assert Consistent(m.db) by { GuardedConsistent(m); }
    ReceiptKeeps(m.db, Authority(worker, token), r);
    DatabaseMoves(m, moved.db);
    PhaseMoves(m.(db := moved.db), token, Process(worker, moved.phase));
    OtherCounts(m.(db := moved.db, procs := m.procs[token := Process(worker, moved.phase)]), moved.tally);
  }

  lemma GuardedConsistent(m: Machine)
    requires Guarded(m)
    ensures Consistent(m.db) && ValidLog(m.db.log)
    ensures forall t :: t in m.procs ==> PhaseRules(m.db.log, m.tally, t, m.procs[t].phase)
  {
    hide Consistent, UnsafeRules, PhaseRules, Fold;
    ConsistentLog(m.db);
  }

  lemma FinishGuards(m: Machine, worker: string, token: nat, e: Event, version: nat, retried: bool)
    requires Guarded(m) && token in m.procs && e.runId == m.db.runId && e.kind != ActionPlanned
    ensures
      var moved := Finish(m, e, version, retried);
      Guarded(Machine(moved.db, m.procs[token := Process(worker, moved.phase)], moved.tally))
  {
    hide Consistent, AppendAnswer, AfterAppend, Guarded, Fold;
    var moved := Finish(m, e, version, retried);
    GuardedConsistent(m);
    AppendKeeps(m.db, version, e);
    AppendAddsNoPlan(m.db, version, e);
    DatabaseMoves(m, moved.db);
    PhaseMoves(m.(db := moved.db), token, Process(worker, moved.phase));
  }

  // ----- every step -----

  lemma StayGuards(m: Machine, worker: string, token: nat, phase: Phase, x: Execution)
    requires Guarded(m) && token in m.procs && m.procs[token] == Process(worker, phase)
    requires phase.Idle? || phase.Validated? || phase.Replanned? || phase.Planned? || phase.Evident? || phase.Conflicted?
             || (phase.Loaded? && phase.state.pendingId != "")
    ensures
      var moved := WorkStep(m, worker, token, phase, x);
      Guarded(Machine(moved.db, m.procs[token := Process(worker, moved.phase)], moved.tally))
  {
    hide Consistent, Guarded, Fold, Load, EvidenceHolds, Recover, CheckAuthority, LoadedFrom, MayRun;
    GuardedConsistent(m);
    var moved := WorkStep(m, worker, token, phase, x);
    if phase.Validated? && Load(m.db).Some? {
      JustLoaded(m.db, m.tally, token);
    } else if phase.Loaded? {
      RecoverKeeps(m, worker, token, phase.state);
    }
    PhaseMoves(m, token, Process(worker, moved.phase));
  }

  lemma WorkGuards(m: Machine, token: nat, x: Execution)
    requires Guarded(m) && token in m.procs
    ensures Guarded(Worked(m, token, x))
  {
    hide Guarded, Consistent, Plan, Execute, Record, Finish, Load, Recover, EvidenceHolds, CheckAuthority, Fold, MayRun, LoadedFrom;
    var p := m.procs[token];
    GuardedConsistent(m);
    match p.phase
    case Ready(s, c, version) => ExecuteGuards(m, p.worker, token, s, c, version, x);
    case Executed(s, c, version, r) => RecordGuards(m, p.worker, token, s, c, version, r);
    case Finishing(e, version, retried) =>
      if e.runId == m.db.runId {
        FinishGuards(m, p.worker, token, e, version, retried);
      } else {
        PhaseMoves(m, token, p.(phase := Idle));
      }
    case Loaded(s) =>
      if s.pendingId == "" {
        PlanGuards(m, p.worker, token, s);
      } else {
        StayGuards(m, p.worker, token, p.phase, x);
      }
    case _ => StayGuards(m, p.worker, token, p.phase, x);
  }

  lemma CrashGuards(m: Machine, token: nat)
    requires Guarded(m) && token in m.procs
    ensures Guarded(Crashed(m, token))
  {
    hide Guarded;
    var p := m.procs[token];
    PhaseMoves(m, token, p.(phase := Idle));
    OtherCounts(m.(procs := m.procs[token := p.(phase := Idle)]), Crashed(m, token).tally);
  }

  lemma AcquireGuards(m: Machine, worker: string, ttl: int)
    requires Guarded(m)
    ensures Guarded(Acquired(m, worker, ttl))
  {
    hide Guarded, Consistent, AcquireAnswer, AfterAcquire, Fold;
    GuardedConsistent(m);
    var after := AfterAcquire(m.db, worker, ttl);
    AcquireEffect(m.db, worker, ttl);
    LeaseKeeps(m.db, after);
    DatabaseMoves(m, after);
    if AcquireAnswer(m.db, worker, ttl).Success? {
      PhaseMoves(m.(db := after), AcquireAnswer(m.db, worker, ttl).value.token, Process(worker, Idle));
    }
  }

  lemma StepGuards(m: Machine, step: Move)
    requires Guarded(m)
    ensures Guarded(Next(m, step))
  {
    hide Guarded, Worked, Crashed, Acquired, Do, Consistent;
    match step
    case Environment(op) =>
      if Outside(op) {
        GuardedConsistent(m);
        DoKeeps(m.db, op);
        OutsideAddsNoPlan(m.db, op);
        DatabaseMoves(m, Do(m.db, op));
      }
    case AcquireLease(worker, ttl) => AcquireGuards(m, worker, ttl);
    case Crash(token) =>
      if token in m.procs {
        CrashGuards(m, token);
      }
    case Work(token, x) =>
      if token in m.procs {
        WorkGuards(m, token, x);
      }
  }

  /** The moves of any schedule keep the guard, from wherever it held. */
  lemma {:induction false} GuardedAlong(start: Machine, origin: seq<Move>, schedule: seq<Move>)
    requires origin <= schedule && Guarded(Reached(start, origin))
    ensures Guarded(Reached(start, schedule))
    decreases |schedule|
  {
    hide Next, Guarded;
    if |origin| < |schedule| {
      var n := |schedule| - 1;
      GuardedAlong(start, origin, schedule[..n]);
      StepGuards(Reached(start, schedule[..n]), schedule[n]);
    } else {
      assert origin == schedule;
    }
  }

  lemma AlwaysGuarded(runId: string, schedule: seq<Move>)
    ensures Guarded(Reached(Start(runId), schedule))
  {
    hide Next, Guarded;
    StartGuarded(runId);
    GuardedAlong(Start(runId), [], schedule);
  }

  lemma StartGuarded(runId: string)
    ensures Guarded(Start(runId))
  {
    hide Consistent;
    EmptyConsistent(runId);
  }

  /**
    A forward action planned as unsafe is executed at most once, whatever crashes,
    takeovers, late reconcilers and operator intents the schedule contains.
  */
  lemma UnsafeRunsOnce(runId: string, schedule: seq<Move>, i: nat)
    requires i < |Reached(Start(runId), schedule).db.log|
    requires
      var e := Reached(Start(runId), schedule).db.log[i];
      e.kind == ActionPlanned && ForwardKind(e.data.actionType) && e.data.scope == Unsafe
    ensures
      var m := Reached(Start(runId), schedule);
      m.tally.executed[Action(m.db.log[i].data.actionType, m.db.log[i].data.actionId)] <= 1
  {
    hide Next, Consistent, ProcessRules;
    AlwaysGuarded(runId, schedule);
    var m := Reached(Start(runId), schedule);
    assert PlanAt(m.db.log, i, Action(m.db.log[i].data.actionType, m.db.log[i].data.actionId));
  }
}
