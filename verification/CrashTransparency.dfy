/**
  Crashes and takeovers leave no trace in the log: under every schedule without
  operator intent, with scoped actions and a deterministic executor, the log is
  the chain a crash-free Run writes.
*/
module CrashTransparency {
  import opened Wrappers
  import opened Types
  import opened Decider
  import opened Projection
  import opened Lifecycle
  import opened Evidence
  import opened EventStore
  import opened Scans
  import opened Database
  import opened StoreInvariants
  import opened Managed
  import opened Executions
  import opened UnsafeOnce
  import opened Chain
  import opened Leader

  // ----- schedules -----

  /** No operator, no legacy controller, no damage to artifacts. */
  predicate QuietOp(op: Op) {
    op.Register? || op.Renew? || op.SaveCheckpoint? || op.ForgeCheckpoint? || op.Tick?
  }

  /** Any crash, takeover, delay or process step, as long as executions are the executor's. */
  ghost predicate Quiet(exec: Executor, m: Machine, step: Move) {
    match step
    case Environment(op) => QuietOp(op)
    case Work(token, x) =>
      token in m.procs && m.procs[token].phase.Ready? ==>
        x == Perform(exec, m.procs[token].phase.state, m.procs[token].phase.command)
    case _ => true
  }

  ghost predicate QuietSchedule(exec: Executor, start: Machine, schedule: seq<Move>) {
    forall n :: 0 <= n < |schedule| ==> Quiet(exec, Reached(start, schedule[..n]), schedule[n])
  }

  /** A Run just created, which nobody has leased. */
  ghost predicate Fresh(m: Machine) {
    && m == Machine(m.db, map[], NOTHING_RUN)
    && Consistent(m.db) && |m.db.log| == 1 && m.db.log[0].kind == RunCreated
    && m.db.lease.None? && m.db.receipts == map[] && m.db.artifacts == map[]
  }

  // ----- steps of the machine -----

  lemma KnowsAt(exec: Executor, m: Machine, token: nat)
    requires Transparent(exec, m) && token in m.procs
    ensures Core(exec, m.db) && ProcessKnows(exec, m.db, Final(m.db.log), token, m.procs[token])
    ensures m.tally.broken == multiset{} && m.tally.rejected == multiset{}
  {
    hide Core, ProcessKnows, Fold;
  }

  lemma CoreParts(exec: Executor, db: Tables)
    requires Core(exec, db)
    ensures Consistent(db) && ValidLog(db.log) && db.log != [] && Steady(Final(db.log)) && Final(db.log).run.id == db.runId
    ensures Final(db.log).run.version == |db.log|
    ensures db.row.Some? && Version(db) == |db.log|
  {
    hide Consistent, Fold, Steady, Reachable, ReceiptFor;
    ConsistentLog(db);
    ProjectionReachable(db.log);
    RowVersion(db);
  }

  lemma RowVersion(db: Tables)
    requires Consistent(db) && ValidLog(db.log) && db.log != []
    ensures db.row.Some? && Version(db) == Final(db.log).run.version
  {
    hide Fold, FencingRules, ModeRules, NothingSplit, EvidenceRules;
  }

  /** A step that leaves the log and the receipts alone. */
  lemma FrameStep(exec: Executor, m: Machine, token: nat, after: Tables, p: Process, tally: Tally)
    requires Transparent(exec, m) && Core(exec, after) && Frame(m.db, after)
    requires ProcessKnows(exec, after, Final(after.log), token, p)
    requires tally.broken == m.tally.broken && tally.rejected == m.tally.rejected
    ensures Transparent(exec, Machine(after, m.procs[token := p], tally))
  {
    hide Core, ProcessKnows, Fold, Frame;
    assert after.log == m.db.log by { FrameLog(m.db, after); }
    CoreParts(exec, m.db);
    forall t | t in m.procs
      ensures ProcessKnows(exec, after, Final(after.log), t, m.procs[t])
    {
      FrameKeeps(exec, m.db, after, Final(after.log), t, m.procs[t]);
    }
  }

  lemma FrameLog(db: Tables, after: Tables)
    requires Frame(db, after)
    ensures after.log == db.log
  {
  }

  lemma PhaseStep(exec: Executor, m: Machine, token: nat, p: Process, tally: Tally)
    requires Transparent(exec, m) && ProcessKnows(exec, m.db, Final(m.db.log), token, p)
    requires tally.broken == m.tally.broken && tally.rejected == m.tally.rejected
    ensures Transparent(exec, Machine(m.db, m.procs[token := p], tally))
  {
    hide Core, ProcessKnows, Fold, Transparent;
    assert Core(exec, m.db) by { TransparentCore(exec, m); }
    FrameStep(exec, m, token, m.db, p, tally);
  }

  lemma TransparentCore(exec: Executor, m: Machine)
    requires Transparent(exec, m)
    ensures Core(exec, m.db) && ValidLog(m.db.log)
  {
    hide Fold, ProcessKnows, Steady, IsChain, Consistent, PendingReceipt;
    CoreParts(exec, m.db);
  }

  /** A write of the lease holder; every other process is a bystander. */
  lemma LeaderStep(exec: Executor, m: Machine, token: nat, after: Tables, later: State, p: Process)
    requires Transparent(exec, m) && Leads(m.db, token)
    requires Core(exec, after) && later == Final(after.log) && after.runId == m.db.runId && after.lease == m.db.lease
    requires Final(m.db.log).attemptId == FirstAttempt(m.db.runId) ==> later.attemptId == FirstAttempt(m.db.runId)
    requires ProcessKnows(exec, after, later, token, p)
    ensures Transparent(exec, Machine(after, m.procs[token := p], m.tally))
  {
    hide Core, ProcessKnows, Fold;
    CoreParts(exec, m.db);
    forall t | t in m.procs && t != token
      ensures ProcessKnows(exec, after, later, t, m.procs[t])
    {
      BystanderKeeps(exec, m.db, after, Final(m.db.log), later, t, m.procs[t]);
    }
  }

  ghost predicate Stepped(exec: Executor, m: Machine, worker: string, token: nat, moved: Effect) {
    Transparent(exec, Machine(moved.db, m.procs[token := Process(worker, moved.phase)], moved.tally))
  }

  lemma IdleKnows(exec: Executor, db: Tables, now: State, token: nat, worker: string)
    requires HeldBy(db, worker, token)
    ensures ProcessKnows(exec, db, now, token, Process(worker, Idle))
  {
  }

  lemma PlanStep(exec: Executor, m: Machine, worker: string, token: nat, s: State)
    requires Conforming(exec, m.db.runId) && AllScoped() && Transparent(exec, m) && token in m.procs
    requires m.procs[token] == Process(worker, Loaded(s)) && s.pendingId == ""
    ensures Stepped(exec, m, worker, token, Plan(m, worker, token, s))
  {
    hide Fold, Decide, AppendAnswer, AfterAppend, Transparent, Core, PlannedEvent, Steady, Reachable, Conforming, AllScoped, HeldBy;
    KnowsAt(exec, m, token);
    CoreParts(exec, m.db);
    var c := Decide(s);
    var e := PlannedEvent(m.db.runId, worker, token, c);
    PlanShape(m.db.runId, worker, token, c);
    IdleKnows(exec, m.db, Final(m.db.log), token, worker);
    if c.kind == Noop || !Safety(c).Valid() {
      PhaseStep(exec, m, token, Process(worker, Idle), m.tally);
    } else if !Leads(m.db, token) {
      StaleRefused(m.db, s.run.version, e);
      PhaseStep(exec, m, token, Process(worker, Idle), m.tally);
    } else {
      LeaderPlans(exec, m, worker, token, s);
    }
  }

  lemma LeaderPlans(exec: Executor, m: Machine, worker: string, token: nat, s: State)
    requires Conforming(exec, m.db.runId) && AllScoped() && Transparent(exec, m) && Leads(m.db, token) && HeldBy(m.db, worker, token)
    requires s == Final(m.db.log) && s.pendingId == "" && Decide(s).kind != Noop && Safety(Decide(s)).Valid()
    ensures Stepped(exec, m, worker, token, Plan(m, worker, token, s))
  {
    hide Fold, Decide, AppendAnswer, AfterAppend, Transparent, Core, PlannedEvent, Steady, Reachable, Conforming, AllScoped,
      HeldBy, ProcessKnows, Awaiting;
    TransparentCore(exec, m);
    CoreParts(exec, m.db);
    var c := Decide(s);
    var e := PlannedEvent(m.db.runId, worker, token, c);
    PlanShape(m.db.runId, worker, token, c);
    SteadyDecides(s);
    WholeLog(m.db.log, s, token);
    NeverReplanned(m.db, worker, token, s);
    if AppendAnswer(m.db, s.run.version, e).Appended? {
      var later := AppendedPlan(exec, m.db, worker, token, s);
      var after := AfterAppend(m.db, s.run.version, e);
      CoreParts(exec, after);
      PlannedKnows(exec, m.db, after, later, worker, token, c, |after.log|);
      LeaderStep(exec, m, token, after, later, Process(worker, Planned(c, |after.log|)));
    } else {
      RefusedChangesNothing(m.db, s.run.version, e);
      IdleKnows(exec, m.db, s, token, worker);
      PhaseStep(exec, m, token, Process(worker, Idle), m.tally);
    }
  }

  lemma PlanShape(runId: string, worker: string, token: nat, c: Command)
    ensures
      var e := PlannedEvent(runId, worker, token, c);
      e.runId == runId && e.kind == ActionPlanned && e.token == token && LeaseSensitive(e)
  {
  }

  lemma WholeLog(log: seq<Event>, s: State, token: nat)
    requires ValidLog(log) && s == Final(log) && s.run.version == |log|
    ensures LoadedFrom(log, s, token)
  {
    hide Fold;
    assert log[..|log|] == log;
  }

  lemma PlannedKnows(exec: Executor, db: Tables, after: Tables, later: State, worker: string, token: nat, c: Command, version: nat)
    requires HeldBy(db, worker, token) && after.lease == db.lease && version == |after.log|
    requires Steady(later) && later.run.id == after.runId && Awaiting(after, later, c)
    ensures ProcessKnows(exec, after, later, token, Process(worker, Planned(c, version)))
  {
    hide Steady;
    SteadyPending(later);
  }

  lemma RecoverStep(exec: Executor, m: Machine, worker: string, token: nat, s: State)
    requires Transparent(exec, m) && token in m.procs
    requires m.procs[token] == Process(worker, Loaded(s)) && s.pendingId != ""
    ensures Stepped(exec, m, worker, token, Stay(m, Recover(m.db, worker, token, s)))
  {
    hide Fold, Transparent, Core, HeldBy, Recover;
    KnowsAt(exec, m, token);
    CoreParts(exec, m.db);
    RecoveredKnows(exec, m.db, Final(m.db.log), worker, token, s);
    PhaseStep(exec, m, token, Process(worker, Recover(m.db, worker, token, s)), m.tally);
  }

  lemma RecoveredKnows(exec: Executor, db: Tables, now: State, worker: string, token: nat, s: State)
    requires ProcessKnows(exec, db, now, token, Process(worker, Loaded(s))) && s.pendingId != "" && now.run.version == |db.log|
    ensures ProcessKnows(exec, db, now, token, Process(worker, Recover(db, worker, token, s)))
  {
    hide HeldBy, Reachable;
    SteadyPending(s);
    RunningIsNotPaused(s);
  }

  lemma RunningIsNotPaused(s: State)
    requires Steady(s)
    ensures s.run.observed != Paused
  {
    hide Reachable;
  }

  lemma LoadStep(exec: Executor, m: Machine, worker: string, token: nat, phase: Phase, x: Execution)
    requires Transparent(exec, m) && token in m.procs && m.procs[token] == Process(worker, phase)
    requires phase.Idle? || phase.Validated? || phase.Replanned? || phase.Planned? || phase.Conflicted?
    ensures Stepped(exec, m, worker, token, WorkStep(m, worker, token, phase, x))
  {
    hide Fold, Transparent, Core, HeldBy, CheckAuthority, Steady;
    KnowsAt(exec, m, token);
    CoreParts(exec, m.db);
    PhaseStep(exec, m, token, Process(worker, WorkStep(m, worker, token, phase, x).phase), m.tally);
  }

  lemma ExecuteStep(exec: Executor, m: Machine, worker: string, token: nat, s: State, c: Command, version: nat)
    requires Transparent(exec, m) && token in m.procs && m.procs[token] == Process(worker, Ready(s, c, version))
    ensures Stepped(exec, m, worker, token, Execute(m, worker, token, s, c, version, Perform(exec, s, c)))
  {
    hide Fold, Transparent, Core, Steady, ContentDigest, AfterArtifact;
    KnowsAt(exec, m, token);
    CoreParts(exec, m.db);
    ArtifactWritten(exec, m.db, s, c);
    var moved := Execute(m, worker, token, s, c, version, Perform(exec, s, c));
    ExecutedKnows(exec, m.db, moved.db, worker, token, s, c, version);
    FrameStep(exec, m, token, moved.db, Process(worker, moved.phase), moved.tally);
  }

  lemma ExecutedKnows(exec: Executor, db: Tables, after: Tables, worker: string, token: nat, s: State, c: Command, version: nat)
    requires Core(exec, db) && ProcessKnows(exec, db, Final(db.log), token, Process(worker, Ready(s, c, version)))
    requires Frame(db, after) && Stored(after, Addressed(Perform(exec, s, c).receipt, s, c))
    ensures ProcessKnows(exec, after, Final(db.log), token,
                         Process(worker, Executed(s, c, version, Addressed(Perform(exec, s, c).receipt, s, c))))
  {
    hide Fold, Perform, Steady, HeldBy, Leads, Consistent, IsChain;
  }

  lemma RecordStep(exec: Executor, m: Machine, worker: string, token: nat, s: State, c: Command, version: nat, r: Receipt)
    requires Conforming(exec, m.db.runId) && Transparent(exec, m) && token in m.procs
    requires m.procs[token] == Process(worker, Executed(s, c, version, r))
    ensures Stepped(exec, m, worker, token, Record(m, worker, token, s, c, version, r))
  {
    hide Fold, Transparent, Core, Steady, Perform, ReceiptOutcome, AfterReceipt, CheckAuthority, Conforming, ReceiptFor;
    KnowsAt(exec, m, token);
    CoreParts(exec, m.db);
    var auth := Authority(worker, token);
    IdleKnows(exec, m.db, Final(m.db.log), token, worker);
    var moved := Record(m, worker, token, s, c, version, r);
    if !Leads(m.db, token) {
      StaleReceipt(m.db, auth, r);
      PhaseStep(exec, m, token, Process(worker, Idle), moved.tally);
    } else {
      LeaderRecords(exec, m.db, worker, token, s, c, r);
      if CheckAuthority(m.db, auth).Some? {
        RefusedReceipt(m.db, auth, r);
        PhaseStep(exec, m, token, Process(worker, Idle), moved.tally);
      } else {
        RecordedCore(exec, m.db, worker, token, s, c, r);
        LeaderStep(exec, m, token, moved.db, s, Process(worker, moved.phase));
      }
    }
  }

  lemma RefusedReceipt(db: Tables, auth: Authority, r: Receipt)
    requires ReceiptOutcome(db, auth, r).ReceiptRefused?
    ensures AfterReceipt(db, auth, r) == db
  {
    hide ReceiptOutcome;
  }

  lemma EvidentStep(exec: Executor, m: Machine, worker: string, token: nat, s: State, c: Command, version: nat, r: Receipt)
    requires Conforming(exec, m.db.runId) && Transparent(exec, m) && token in m.procs
    requires m.procs[token] == Process(worker, Evident(s, c, version, r))
    ensures Stepped(exec, m, worker, token, WorkStep(m, worker, token, Evident(s, c, version, r), Broken("")))
  {
    hide Fold, Transparent, Core, Steady, EvidenceHolds, Conforming, HeldBy, CompletedEvent, FailedEvent;
    KnowsAt(exec, m, token);
    CoreParts(exec, m.db);
    if Leads(m.db, token) {
      EvidenceVerified(exec, m.db, s);
    }
    VerifiedKnows(exec, m.db, Final(m.db.log), worker, token, s, c, version, r);
    PhaseStep(exec, m, token, Process(worker, Concluding(m.db, worker, token, s, c, version, r)), m.tally);
  }

  function Concluding(db: Tables, worker: string, token: nat, s: State, c: Command, version: nat, r: Receipt): Phase {
    Finishing(if EvidenceHolds(db, s, r) then CompletedEvent(db.runId, worker, token, r)
              else FailedEvent(db.runId, worker, token, c, UNVERIFIED, OutcomeAmbiguous), version, false)
  }

  lemma VerifiedKnows(exec: Executor, db: Tables, now: State, worker: string, token: nat, s: State, c: Command, version: nat, r: Receipt)
    requires ProcessKnows(exec, db, now, token, Process(worker, Evident(s, c, version, r)))
    requires Leads(db, token) ==> EvidenceHolds(db, s, r)
    ensures ProcessKnows(exec, db, now, token, Process(worker, Concluding(db, worker, token, s, c, version, r)))
  {
    hide HeldBy, EvidenceHolds, CompletionOf;
  }

  lemma FinishStep(exec: Executor, m: Machine, worker: string, token: nat, e: Event, version: nat, retried: bool)
    requires Conforming(exec, m.db.runId) && AllScoped() && Transparent(exec, m) && token in m.procs && e.runId == m.db.runId
    requires m.procs[token] == Process(worker, Finishing(e, version, retried))
    ensures Stepped(exec, m, worker, token, Finish(m, e, version, retried))
  {
    hide Fold, Transparent, Core, Steady, AppendAnswer, AfterAppend, Conforming, AllScoped, CompletedEvent, HeldBy, Reachable;
    KnowsAt(exec, m, token);
    CoreParts(exec, m.db);
    IdleKnows(exec, m.db, Final(m.db.log), token, worker);
    if !Leads(m.db, token) {
      StaleRefused(m.db, version, e);
      PhaseStep(exec, m, token, Process(worker, Idle), m.tally);
    } else if AppendAnswer(m.db, version, e).Appended? {
      var later := AppendedCompletion(exec, m.db, worker, token, Final(m.db.log));
      var after := AfterAppend(m.db, version, e);
      HeldStill(m.db, after, worker, token);
      IdleKnows(exec, after, later, token, worker);
      FirstIsText(m.db.runId);
      LeaderStep(exec, m, token, after, later, Process(worker, Idle));
    } else {
      RefusedChangesNothing(m.db, version, e);
      NoConflict(m.db, version, e);
      PhaseStep(exec, m, token, Process(worker, Idle), m.tally);
    }
  }

  lemma HeldStill(db: Tables, after: Tables, worker: string, token: nat)
    requires HeldBy(db, worker, token) && after.lease == db.lease
    ensures HeldBy(after, worker, token)
  {
  }

  lemma FirstIsText(runId: string)
    ensures FirstAttempt(runId) != ""
  {
  }

  lemma NoConflict(db: Tables, version: nat, e: Event)
    requires e.runId == db.runId && Version(db) == version
    ensures AppendAnswer(db, version, e).Refused? ==> !AppendAnswer(db, version, e).error.VersionConflict?
  {
    hide Fold, FindKey;
  }

  lemma WorkTransparent(exec: Executor, m: Machine, token: nat, x: Execution)
    requires Conforming(exec, m.db.runId) && AllScoped() && Transparent(exec, m) && token in m.procs && Quiet(exec, m, Work(token, x))
    ensures Transparent(exec, Worked(m, token, x))
  {
    hide Fold, Transparent, Conforming, AllScoped, Plan, Execute, Record, Finish, Load, Recover, EvidenceHolds,
      CheckAuthority, Perform, HeldBy, Live, Core;
    var p := m.procs[token];
    KnowsAt(exec, m, token);
    TransparentCore(exec, m);
    match p.phase
    case Loaded(s) =>
      if s.pendingId == "" {
        PlanStep(exec, m, p.worker, token, s);
      } else {
        RecoverStep(exec, m, p.worker, token, s);
      }
    case Ready(s, c, version) => ExecuteStep(exec, m, p.worker, token, s, c, version);
    case Executed(s, c, version, r) => RecordStep(exec, m, p.worker, token, s, c, version, r);
    case Evident(s, c, version, r) => EvidentStep(exec, m, p.worker, token, s, c, version, r);
    case Finishing(e, version, retried) =>
      if e.runId == m.db.runId {
        FinishStep(exec, m, p.worker, token, e, version, retried);
      } else {
        IdleKnows(exec, m.db, Final(m.db.log), token, p.worker);
        PhaseStep(exec, m, token, p.(phase := Idle), m.tally);
      }
    case _ => LoadStep(exec, m, p.worker, token, p.phase, x);
  }

  lemma CrashTransparent(exec: Executor, m: Machine, token: nat)
    requires Transparent(exec, m) && token in m.procs
    ensures Transparent(exec, Crashed(m, token))
  {
    hide Fold, Transparent, HeldBy, Core;
    KnowsAt(exec, m, token);
    TransparentCore(exec, m);
    IdleKnows(exec, m.db, Final(m.db.log), token, m.procs[token].worker);
    PhaseStep(exec, m, token, m.procs[token].(phase := Idle), Crashed(m, token).tally);
  }

  /** The quiet transactions move neither the log, the receipts, the artifacts nor the token. */
  lemma QuietFrame(db: Tables, op: Op)
    requires QuietOp(op)
    ensures
      var after := Do(db, op);
      Frame(db, after) && after.artifacts == db.artifacts
  {
    hide Fold;
  }

  lemma CoreFrame(exec: Executor, db: Tables, after: Tables)
    requires Core(exec, db) && Frame(db, after) && Consistent(after) && after.artifacts == db.artifacts
    ensures Core(exec, after)
  {
    hide Fold, IsChain, Steady, Consistent, ReceiptFor, HeldBy, Leads;
  }

  lemma QuietTransparent(exec: Executor, m: Machine, op: Op)
    requires Transparent(exec, m) && QuietOp(op)
    ensures Transparent(exec, m.(db := Do(m.db, op)))
  {
    hide Fold, Core, Frame, Do, Consistent, ProcessKnows;
    var after := Do(m.db, op);
    CoreParts(exec, m.db);
    DoKeeps(m.db, op);
    QuietFrame(m.db, op);
    CoreFrame(exec, m.db, after);
    FrameLog(m.db, after);
    forall t | t in m.procs
      ensures ProcessKnows(exec, after, Final(after.log), t, m.procs[t])
    {
      FrameKeeps(exec, m.db, after, Final(after.log), t, m.procs[t]);
    }
  }

  // ----- takeover -----

  /** Who leads after an acquisition: the same process, or one that did not exist. */
  lemma AcquireLeads(db: Tables, worker: string, ttl: int, w: string, t: nat)
    requires HeldBy(db, w, t) && Leads(AfterAcquire(db, worker, ttl), t)
    ensures Leads(db, t)
  {
    hide UnresolvedLegacyAction, Fold;
  }

  lemma AcquiredHolds(db: Tables, worker: string, ttl: int)
    requires FencingRules(db) && AcquireAnswer(db, worker, ttl).Success?
    ensures HeldBy(AfterAcquire(db, worker, ttl), worker, AcquireAnswer(db, worker, ttl).value.token)
  {
    hide UnresolvedLegacyAction, Fold, LogHeld, ReceiptsHeld, TokensOrdered;
  }

  lemma AcquireTransparent(exec: Executor, m: Machine, worker: string, ttl: int)
    requires Transparent(exec, m)
    ensures Transparent(exec, Acquired(m, worker, ttl))
  {
    hide Fold, Core, AcquireAnswer, AfterAcquire, Consistent, HeldBy, Leads, Live, Common, Steady;
    var after := AfterAcquire(m.db, worker, ttl);
    CoreParts(exec, m.db);
    AcquireEffect(m.db, worker, ttl);
    LeaseKeeps(m.db, after);
    assert FencingRules(m.db) by { ConsistentParts(m.db); }
    AcquireCore(exec, m.db, after);
    forall t | t in m.procs
      ensures ProcessKnows(exec, after, Final(after.log), t, m.procs[t])
    {
      if Leads(after, t) {
        AcquireLeads(m.db, worker, ttl, m.procs[t].worker, t);
      }
      LeaseKnows(exec, m.db, after, Final(m.db.log), t, m.procs[t]);
    }
    if AcquireAnswer(m.db, worker, ttl).Success? {
      AcquiredHolds(m.db, worker, ttl);
      IdleKnows(exec, after, Final(after.log), AcquireAnswer(m.db, worker, ttl).value.token, worker);
    }
  }

  lemma AcquireCore(exec: Executor, db: Tables, after: Tables)
    requires Core(exec, db) && after == db.(lease := after.lease) && Consistent(after)
    ensures Core(exec, after)
  {
    hide Fold, IsChain, Steady, Consistent, ReceiptFor;
  }

  lemma LeaseKnows(exec: Executor, db: Tables, after: Tables, now: State, token: nat, p: Process)
    requires ProcessKnows(exec, db, now, token, p) && after == db.(lease := after.lease)
    requires HeldBy(after, p.worker, token) && (Leads(after, token) ==> Leads(db, token))
    ensures ProcessKnows(exec, after, now, token, p)
  {
    hide Steady, Perform, CompletedEvent;
  }

  // ----- every schedule -----

  lemma StepTransparent(exec: Executor, m: Machine, step: Move)
    requires Conforming(exec, m.db.runId) && AllScoped() && Transparent(exec, m) && Quiet(exec, m, step)
    ensures Transparent(exec, Next(m, step))
  {
    hide Conforming, AllScoped, Transparent, Worked, Crashed, Acquired, Do, Fold;
    match step
    case Environment(op) =>
      if Outside(op) {
        QuietTransparent(exec, m, op);
      }
    case AcquireLease(worker, ttl) => AcquireTransparent(exec, m, worker, ttl);
    case Crash(token) =>
      if token in m.procs {
        CrashTransparent(exec, m, token);
      }
    case Work(token, x) =>
      if token in m.procs {
        WorkTransparent(exec, m, token, x);
      }
  }

  lemma FreshTransparent(exec: Executor, m: Machine)
    requires Conforming(exec, m.db.runId) && AllScoped() && Fresh(m)
    ensures Transparent(exec, m)
  {
    hide Fold, Steady, Conforming, AllScoped, Consistent;
    ConsistentLog(m.db);
    OwnRun(m.db);
    ChainSteady(exec, m.db.log);
  }

  lemma OwnRun(db: Tables)
    requires Consistent(db) && ValidLog(db.log) && db.log != []
    ensures Final(db.log).run.id == db.runId
  {
    hide Fold, FencingRules, ModeRules, NothingSplit, EvidenceRules;
    ProjectsOwnRun(db.log, db.runId);
  }

  lemma StepSameRun(exec: Executor, m: Machine, step: Move)
    requires Transparent(exec, m)
    ensures Next(m, step).db.runId == m.db.runId
  {
    hide Transparent, Next, Consistent, Core;
    TransparentCore(exec, m);
    CoreParts(exec, m.db);
    StepAppends(m, step);
  }

  /** Quiet moves keep the invariant, from wherever it held. */
  lemma {:induction false} TransparentAlong(exec: Executor, start: Machine, origin: seq<Move>, schedule: seq<Move>)
    requires Conforming(exec, Reached(start, origin).db.runId) && AllScoped() && origin <= schedule && Transparent(exec, Reached(start, origin))
    requires forall k :: |origin| <= k < |schedule| ==> Quiet(exec, Reached(start, schedule[..k]), schedule[k])
    ensures Transparent(exec, Reached(start, schedule)) && Reached(start, schedule).db.runId == Reached(start, origin).db.runId
    decreases |schedule|
  {
    hide Conforming, AllScoped, Transparent, Next, Quiet;
    if |origin| < |schedule| {
      var n := |schedule| - 1;
      forall k | |origin| <= k < n
        ensures Quiet(exec, Reached(start, schedule[..n][..k]), schedule[..n][k])
      {
        assert schedule[..n][..k] == schedule[..k];
        assert Quiet(exec, Reached(start, schedule[..k]), schedule[k]);
      }
      TransparentAlong(exec, start, origin, schedule[..n]);
      StepSameRun(exec, Reached(start, schedule[..n]), schedule[n]);
      StepTransparent(exec, Reached(start, schedule[..n]), schedule[n]);
    } else {
      assert origin == schedule;
    }
  }

  lemma AlwaysTransparent(exec: Executor, start: Machine, schedule: seq<Move>)
    requires Conforming(exec, start.db.runId) && AllScoped() && Fresh(start) && QuietSchedule(exec, start, schedule)
    ensures Transparent(exec, Reached(start, schedule)) && Reached(start, schedule).db.runId == start.db.runId
  {
    hide Conforming, AllScoped, Transparent, Next, Fresh, Quiet;
    FreshTransparent(exec, start);
    TransparentAlong(exec, start, [], schedule);
  }

  // ----- the theorems -----

  /**
    Under any schedule of crashes and takeovers the log is a chain: at most
    thirteen events, and Succeeded exactly when all thirteen are there.
  */
  lemma CrashesFollowChain(exec: Executor, start: Machine, schedule: seq<Move>)
    requires Conforming(exec, start.db.runId) && AllScoped() && Fresh(start) && QuietSchedule(exec, start, schedule)
    ensures
      var log := Reached(start, schedule).db.log;
      && IsChain(exec, log)
      && |log| <= 13
      && (Final(log).run.observed == Succeeded <==> |log| == 13)
  {
    hide Conforming, AllScoped, Fresh, QuietSchedule, Fold, Next, IsChain, Reachable;
    AlwaysTransparent(exec, start, schedule);
    var m := Reached(start, schedule);
    TransparentCore(exec, m);
    CoreParts(exec, m.db);
    ChainShape(exec, m.db.log);
    ChainSteady(exec, m.db.log);
    SteadyEnd(Final(m.db.log));
  }

  lemma SteadyEnd(s: State)
    requires Steady(s)
    ensures Position(s) <= 12 && (s.run.observed == Succeeded <==> Position(s) == 12)
  {
  }

  /**
    Crash transparency: two Runs created alike write the same events, whatever the
    schedules; at equal length, in particular once both succeeded, they project the
    same state up to timestamps.
  */
  lemma SchedulesAgree(exec: Executor, start: Machine, schedule: seq<Move>, other: Machine, crashFree: seq<Move>)
    requires Conforming(exec, start.db.runId) && AllScoped()
    requires Fresh(start) && QuietSchedule(exec, start, schedule)
    requires Fresh(other) && QuietSchedule(exec, other, crashFree)
    requires Bare(start.db.log[0]) == Bare(other.db.log[0])
    ensures
      var a, b := Reached(start, schedule).db.log, Reached(other, crashFree).db.log;
      && ValidLog(a) && ValidLog(b)
      && (forall i :: 0 <= i < |a| && i < |b| ==> Bare(a[i]) == Bare(b[i]))
      && (|a| == |b| ==> Timeless(Final(a)) == Timeless(Final(b)))
      && (Final(a).run.observed == Succeeded && Final(b).run.observed == Succeeded ==> |a| == |b|)
  {
    hide Conforming, AllScoped, Fold, Next, IsChain, QuietSchedule, Bare, Consistent, Timeless;
    OwnEvents(start.db);
    OwnEvents(other.db);
    assert start.db.runId == other.db.runId by { BareRun(start.db.log[0], other.db.log[0]); }
    CrashesFollowChain(exec, start, schedule);
    CrashesFollowChain(exec, other, crashFree);
    var a, b := Reached(start, schedule).db.log, Reached(other, crashFree).db.log;
    ChainShape(exec, a);
    ChainShape(exec, b);
    CreationStays(start, schedule);
    CreationStays(other, crashFree);
    var n := if |a| <= |b| then |a| else |b|;
    ChainsAgree(exec, a, b, n);
    if |a| == |b| {
      assert a[..n] == a && b[..n] == b;
    }
  }

  lemma BareRun(e: Event, f: Event)
    requires Bare(e) == Bare(f)
    ensures e.runId == f.runId
  {
  }

  lemma OwnEvents(db: Tables)
    requires Consistent(db)
    ensures forall i :: 0 <= i < |db.log| ==> db.log[i].runId == db.runId
  {
    hide FencingRules, ModeRules, NothingSplit, EvidenceRules, Fold;
  }

  lemma {:induction false} CreationStays(start: Machine, schedule: seq<Move>)
    requires Consistent(start.db) && start.db.log != []
    ensures Consistent(Reached(start, schedule).db) && Reached(start, schedule).db.runId == start.db.runId
    ensures Reached(start, schedule).db.log != [] && Reached(start, schedule).db.log[0] == start.db.log[0]
  {
    hide Next, Consistent;
    if schedule != [] {
      var n := |schedule| - 1;
      CreationStays(start, schedule[..n]);
      StepAppends(Reached(start, schedule[..n]), schedule[n]);
    }
  }

  /** A step of the machine is at most one transaction. */
  lemma StepIsTransaction(m: Machine, step: Move) returns (op: Op)
    ensures Next(m, step).db == Do(m.db, op)
  {
    hide Fold, AfterAppend, AppendAnswer, AfterReceipt, ReceiptOutcome, AfterAcquire, AcquireAnswer, Recover, EvidenceHolds,
      CheckAuthority, Load, Decide;
    op := Tick(0);
    match step
    case Environment(o) =>
      if Outside(o) {
        op := o;
      }
    case AcquireLease(worker, ttl) => op := Op.Acquire(worker, ttl);
    case Crash(_) =>
    case Work(token, x) =>
      if token in m.procs {
        op := WorkIsTransaction(m, m.procs[token].worker, token, m.procs[token].phase, x);
      }
  }

  lemma WorkIsTransaction(m: Machine, worker: string, token: nat, phase: Phase, x: Execution) returns (op: Op)
    ensures WorkStep(m, worker, token, phase, x).db == Do(m.db, op)
  {
    hide Fold, AfterAppend, AppendAnswer, AfterReceipt, ReceiptOutcome, Recover, EvidenceHolds, CheckAuthority, Load, Decide;
    op := Tick(0);
    match phase
    case Loaded(s) =>
      if s.pendingId == "" && Decide(s).kind != Noop && Safety(Decide(s)).Valid() {
        op := Op.Append(s.run.version, PlannedEvent(m.db.runId, worker, token, Decide(s)));
      }
    case Ready(s, c, version) =>
      if Settled(m.db, c, x).Done? && x.artifact.Some? {
        op := WriteArtifact(ArtifactIdFor(c.actionId), x.artifact.value);
      }
    case Executed(s, c, version, r) => op := Op.RecordReceipt(Authority(worker, token), r);
    case Finishing(e, version, retried) =>
      if e.runId == m.db.runId {
        op := Op.Append(version, e);
      }
    case _ =>
  }

  lemma StepAppends(m: Machine, step: Move)
    requires Consistent(m.db)
    ensures Consistent(Next(m, step).db) && m.db.log <= Next(m, step).db.log && Next(m, step).db.runId == m.db.runId
  {
    hide Next, Consistent, Do;
    var op := StepIsTransaction(m, step);
    DoKeeps(m.db, op);
    NothingRewritten(m.db, op);
  }

  /**
    Each action is executed once for its receipt and once more for every result
    lost to a crash after execution or held by a process that lost its lease.
  */
  lemma ExecutionsExact(exec: Executor, start: Machine, schedule: seq<Move>, x: Action)
    requires Conforming(exec, start.db.runId) && AllScoped() && Fresh(start) && QuietSchedule(exec, start, schedule)
    ensures
      var m := Reached(start, schedule);
      m.tally.executed[x] == Count(Receipted(m.db, x)) + m.tally.crashed[x] + m.tally.fencedOut[x] + |InFlight(m.procs, x)|
  {
    hide Conforming, AllScoped, Core, Next, QuietSchedule, Receipted, InFlight, Consistent;
    AlwaysTransparent(exec, start, schedule);
    FreshBalanced(start);
    BalancedAlong(start, schedule);
  }

  /** A completed action was executed exactly once more than its results were lost or are still held. */
  lemma CompletedExecutions(exec: Executor, start: Machine, schedule: seq<Move>, j: nat)
    requires Conforming(exec, start.db.runId) && AllScoped() && Fresh(start) && QuietSchedule(exec, start, schedule)
    requires j < |Reached(start, schedule).db.log| && Reached(start, schedule).db.log[j].kind == ActionCompleted
    ensures
      var m := Reached(start, schedule);
      var x := Action(m.db.log[j].data.actionType, m.db.log[j].data.actionId);
      m.tally.executed[x] == 1 + m.tally.crashed[x] + m.tally.fencedOut[x] + |InFlight(m.procs, x)|
  {
    hide Conforming, AllScoped, Fresh, QuietSchedule, Next, Consistent, Transparent, InFlight;
    AlwaysTransparent(exec, start, schedule);
    var m := Reached(start, schedule);
    TransparentCore(exec, m);
    CoreParts(exec, m.db);
    CompletionReceipted(m.db, j);
    ExecutionsExact(exec, start, schedule, Action(m.db.log[j].data.actionType, m.db.log[j].data.actionId));
  }

  lemma CompletionReceipted(db: Tables, j: nat)
    requires Consistent(db) && j < |db.log| && db.log[j].kind == ActionCompleted
    ensures Receipted(db, Action(db.log[j].data.actionType, db.log[j].data.actionId))
  {
    hide Derived, FencingRules, ModeRules, NothingSplit, ReceiptsPlanned, HasPlan, Fold;
    assert Sandwiched(db, j);
  }

  lemma FreshBalanced(start: Machine)
    requires Fresh(start)
    ensures Balanced(start)
  {
    hide Consistent;
    assert forall x :: InFlight(map[], x) == {};
  }

  lemma {:induction false} BalancedAlong(start: Machine, schedule: seq<Move>)
    requires Balanced(start)
    ensures Balanced(Reached(start, schedule))
  {
    hide Next, Balanced;
    if schedule != [] {
      var n := |schedule| - 1;
      BalancedAlong(start, schedule[..n]);
      StepBalances(Reached(start, schedule[..n]), schedule[n]);
    }
  }
}
