/**
  Recovery always can finish: whatever crashes and takeovers happened, one more
  worker that stays up drives the Run to Succeeded.
*/
module Recovery {
  import opened Wrappers
  import opened Types
  import opened Decider
  import opened Reducer
  import opened Projection
  import opened Lifecycle
  import opened Effects
  import opened PlanOnce
  import opened Evidence
  import opened EventStore
  import opened Scans
  import opened ReceiptScan
  import opened Database
  import opened StoreInvariants
  import opened Managed
  import opened UnsafeOnce
  import opened Chain
  import opened Leader
  import opened CrashTransparency

  /** At this state, what is planned or completed next passes the credential scan. */
  ghost predicate HarmlessAt(exec: Executor, s: State) {
    && (s.pendingId == "" && Decide(s).kind != Noop ==> !HasCredential(PlanData(Decide(s), Safety(Decide(s)))))
    && (s.pendingId != "" ==> !HasCredential(CompletionOf(ReceiptFor(exec, s))))
  }

  /** The credential scan lets this Run's own payloads pass. */
  ghost predicate Harmless(exec: Executor, runId: string) {
    forall log :: ChainOf(exec, log, runId) ==> HarmlessAt(exec, Final(log))
  }

  /** The attempt id while `n` attempts were started. */
  function AttemptAt(runId: string, n: nat): string {
    if n == 0 then "" else FirstAttempt(runId)
  }

  /** The identity of this Run's action of a forward kind. */
  function ActionId(runId: string, kind: CommandType): string {
    var n := if kind == StartAttempt then 0 else 1;
    ActionDigest(runId, kind, n, AttemptAt(runId, n))
  }

  function CommandOf(runId: string, kind: CommandType): Command {
    Command(kind, runId, ActionId(runId, kind), FirstAttempt(runId))
  }

  /** What the deterministic executor's completion of a kind carries in this Run. */
  function DeterministicCompletion(runId: string, kind: CommandType): EventData {
    var id := ActionId(runId, kind);
    var output := DeterministicWork(INITIAL, CommandOf(runId, kind)).output;
    CompletionData(output, id, kind, ScopedIdempotent, runId + ":" + id, DataDigest(output),
                   if kind == ApplyPatch then ArtifactIdFor(id) else "",
                   if kind == ApplyPatch then ContentDigest(runId, id) else "")
  }

  /** The twelve payloads of this Run pass the scan; they can be looked at beforehand. */
  ghost predicate PayloadsPass(runId: string) {
    forall kind :: ForwardKind(kind) ==>
      !HasCredential(PlanData(CommandOf(runId, kind), ScopedIdempotent)) && !HasCredential(DeterministicCompletion(runId, kind))
  }

  lemma SteadyIdentity(s: State, kind: CommandType)
    requires Steady(s) && ForwardKind(kind)
    requires if s.pendingId != "" then kind == s.pendingType else kind == Decide(s).kind
    ensures ActionDigest(s.run.id, kind, s.run.currentAttempt, s.attemptId) == ActionId(s.run.id, kind)
    ensures kind != StartAttempt ==> s.attemptId == FirstAttempt(s.run.id)
  {
  }

  lemma DeterministicHarmlessAt(s: State)
    requires AllScoped() && Steady(s) && PayloadsPass(s.run.id)
    ensures HarmlessAt(DeterministicWork, s)
  {
    hide Reachable, Decide, PayloadsPass;
    if s.pendingId != "" {
      SteadyPending(s);
      SteadyIdentity(s, s.pendingType);
      PassesFor(s.run.id, s.pendingType);
      assert PendingCommand(s) == CommandOf(s.run.id, s.pendingType);
      DeterministicIgnoresState(Timeless(s), PendingCommand(s));
      assert CompletionOf(ReceiptFor(DeterministicWork, s)) == DeterministicCompletion(s.run.id, s.pendingType);
    } else if Decide(s).kind != Noop {
      SteadyDecides(s);
      SteadyIdentity(s, Decide(s).kind);
      PassesFor(s.run.id, Decide(s).kind);
      assert Decide(s) == CommandOf(s.run.id, Decide(s).kind);
    }
  }

  lemma PassesFor(runId: string, kind: CommandType)
    requires PayloadsPass(runId) && ForwardKind(kind)
    ensures !HasCredential(PlanData(CommandOf(runId, kind), ScopedIdempotent))
    ensures !HasCredential(DeterministicCompletion(runId, kind))
  {
  }

  lemma DeterministicIgnoresState(s: State, c: Command)
    requires ForwardKind(c.kind)
    ensures DeterministicWork(s, c) == DeterministicWork(INITIAL, c)
  {
  }

  /** ExecuteDeterministicAction is harmless for every Run whose own payloads pass the scan. */
  lemma DeterministicHarmless(runId: string)
    requires AllScoped() && OutputsPass(runId) && PayloadsPass(runId)
    ensures Harmless(DeterministicWork, runId)
  {
    hide Fold, Reachable, Steady, HarmlessAt, AllScoped, OutputsPass, PayloadsPass, Follows;
    forall log | ChainOf(DeterministicWork, log, runId)
      ensures HarmlessAt(DeterministicWork, Final(log))
    {
      DeterministicSteady(log);
      DeterministicHarmlessAt(Final(log));
    }
  }

  /** Within this Run, before and after its attempt, identities of different forward commands differ. */
  ghost predicate DistinctActions(runId: string) {
    forall k, l, n: nat, m: nat ::
      ForwardKind(k) && ForwardKind(l) && n <= 1 && m <= 1 ==>
        ActionDigest(runId, k, n, AttemptAt(runId, n)) == ActionDigest(runId, l, m, AttemptAt(runId, m)) ==>
          k == l
  }

  /** The creation as the controller writes it. */
  predicate Usual(log: seq<Event>) {
    log != [] && log[0].key == "run-created"
  }

  // ----- unused keys -----

  lemma SuffixesDiffer(a: string, b: string)
    ensures a + ":action-planned" != b + ":action-completed"
    ensures a + ":action-planned" != "run-created" && a + ":action-completed" != "run-created"
  {
    var x, y := a + ":action-planned", b + ":action-completed";
    assert x[|x| - 15] == ':' && y[|y| - 15] == 'c';
    assert |x| >= 15 && |a + ":action-completed"| >= 17;
  }

  lemma SuffixCancels(a: string, b: string, suffix: string)
    requires a + suffix == b + suffix
    ensures a == b
  {
    assert (a + suffix)[..|a|] == a && (b + suffix)[..|b|] == b;
  }

  lemma ChainEvent(exec: Executor, log: seq<Event>, i: nat)
    requires IsChain(exec, log) && 1 <= i < |log|
    ensures ValidLog(log[..i])
    ensures
      var e, c := log[i], Decide(Final(log[..i]));
      || (e.kind == ActionPlanned && e.data.actionId == c.actionId && e.data.actionType == c.kind && c.kind != Noop
          && Final(log[..i]).pendingId == "" && e.key == c.actionId + ":action-planned")
      || (e.kind == ActionCompleted && e.key == e.data.actionId + ":action-completed")
  {
    hide Fold, Decide, ReceiptFor;
    assert Follows(exec, log, i);
  }

  lemma DecidedDigest(s: State)
    requires Steady(s) && s.pendingId == "" && Decide(s).kind != Noop
    ensures s.run.currentAttempt <= 1 && ForwardKind(Decide(s).kind)
    ensures Decide(s).actionId
            == ActionDigest(s.run.id, Decide(s).kind, s.run.currentAttempt, AttemptAt(s.run.id, s.run.currentAttempt))
  {
  }

  lemma PlanKeyUnused(exec: Executor, log: seq<Event>, runId: string, i: nat)
    requires Conforming(exec, runId) && AllScoped() && IsChain(exec, log) && Usual(log) && DistinctActions(runId) && i < |log|
    requires forall j :: 0 <= j < |log| ==> log[j].runId == runId
    requires Steady(Final(log)) && Final(log).pendingId == "" && Decide(Final(log)).kind != Noop
    ensures log[i].key != Decide(Final(log)).actionId + ":action-planned"
  {
    hide Fold, IsChain, Decide, Reachable, Used, Steady, Conforming, AllScoped;
    ChainShape(exec, log);
    var s := Final(log);
    var c := Decide(s);
    SuffixesDiffer(c.actionId, log[i].data.actionId);
    if i > 0 && log[i].key == c.actionId + ":action-planned" {
      ChainEvent(exec, log, i);
      ChainPrefix(exec, log, i);
      ProjectsOwnRun(log, runId);
      ProjectsOwnRun(log[..i], runId);
      ChainSteady(exec, log[..i]);
      var before := Final(log[..i]);
      SuffixCancels(c.actionId, Decide(before).actionId, ":action-planned");
      DecidedDigest(s);
      DecidedDigest(before);
      assert log[..|log|] == log;
      UsedForever(log, i, |log|, c.kind);
      SteadyUnused(s);
    }
  }

  lemma SteadyUnused(s: State)
    requires Steady(s) && s.pendingId == "" && ForwardKind(Decide(s).kind)
    ensures !Used(s, Decide(s).kind)
  {
    DecidedIsUnused(s);
  }

  lemma CompletionKeyUnused(exec: Executor, log: seq<Event>, i: nat)
    requires IsChain(exec, log) && Usual(log) && i < |log| && Steady(Final(log)) && Final(log).pendingId != ""
    ensures log[i].key != Final(log).pendingId + ":action-completed"
  {
    hide Fold, IsChain, Decide, Reachable, LastPlan;
    ChainShape(exec, log);
    var s := Final(log);
    SuffixesDiffer(log[i].data.actionId, s.pendingId);
    SuffixesDiffer(s.pendingId, s.pendingId);
    if i > 0 {
      ChainEvent(exec, log, i);
      if log[i].kind == ActionCompleted && log[i].key == s.pendingId + ":action-completed" {
        SuffixCancels(s.pendingId, log[i].data.actionId, ":action-completed");
        ChainPlanKeys(exec, log);
        PlanKeysMakeScanExact(log, s.pendingId, s.pendingType, s.pendingScope);
      }
    }
  }

  // ----- accepted appends -----

  /** What it takes for Append to store an event. */
  lemma Storable(db: Tables, e: Event)
    requires Consistent(db) && ValidLog(db.log) && db.log != [] && Version(db) == |db.log| <= MAX_BIGINT && db.row.Some?
    requires e.runId == db.runId == Final(db.log).run.id && WellFormed(e) && e.payloadVersion == 0 && !HasCredential(e.data)
    requires ManagedKind(e.kind) && Current(db, e.worker, e.token)
    requires forall i :: 0 <= i < |db.log| ==> db.log[i].key != e.key
    requires e.kind == ActionCompleted ==> CheckReceipt(db, e.data).None?
    requires !Final(db.log).run.observed.Terminal()
    requires ApplyEvent(Final(db.log), Numbered(db, |db.log|, e)).Ok?
    ensures AppendAnswer(db, |db.log|, e).Appended?
  {
    hide CheckReceipt, FindKey, ApplyEvent, Consistent, Fold;
    FindMissing(db.log, e.key);
    FoldSnoc(db.log, Numbered(db, |db.log|, e));
  }

  lemma PlanStored(exec: Executor, db: Tables, worker: string, token: nat)
    requires Conforming(exec, db.runId) && Harmless(exec, db.runId) && DistinctActions(db.runId) && AllScoped() && Core(exec, db) && Usual(db.log) && |db.log| <= MAX_BIGINT
    requires Current(db, worker, token) && Final(db.log).pendingId == "" && Final(db.log).run.observed != Succeeded
    ensures
      var s := Final(db.log);
      && s.run.version == |db.log| && Decide(s).kind != Noop
      && AppendAnswer(db, s.run.version, PlannedEvent(db.runId, worker, token, Decide(s))).Appended?
  {
    hide Fold, Consistent, IsChain, Reachable, Decide, PendingReceipt, ApplyEvent, AppendAnswer, ArtifactsKnown, DistinctActions,
      Conforming, Harmless;
    CoreParts(exec, db);
    CoreHarmless(exec, db);
    var s := Final(db.log);
    SteadyDecides(s);
    var c := Decide(s);
    var e := PlannedEvent(db.runId, worker, token, c);
    forall i | 0 <= i < |db.log|
      ensures db.log[i].key != e.key
    {
      OwnEvents(db);
      PlanKeyUnused(exec, db.log, db.runId, i);
    }
    PlanApplied(s, Numbered(db, |db.log|, e));
    RunNamed(db);
    Storable(db, e);
  }

  lemma CoreHarmless(exec: Executor, db: Tables)
    requires Harmless(exec, db.runId) && Core(exec, db)
    ensures HarmlessAt(exec, Final(db.log))
  {
    hide Fold, Steady, IsChain, Consistent, HarmlessAt, PendingReceipt, ArtifactsKnown, ReceiptIds;
    assert ChainOf(exec, db.log, db.runId);
  }

  lemma RunNamed(db: Tables)
    requires Consistent(db) && db.log != []
    ensures db.runId != ""
  {
    hide FencingRules, ModeRules, NothingSplit, EvidenceRules, Fold, ApplyEvent, Stamp, Reachable;
    StepAt(db.log, 0);
  }

  lemma PlanApplied(s: State, e: Event)
    requires Steady(s) && s.pendingId == "" && Decide(s).kind != Noop && Decide(s).actionId != ""
    requires e.kind == ActionPlanned && AllScoped() && e.data == PlanData(Decide(s), Safety(Decide(s)))
    ensures ApplyEvent(s, e).Ok?
  {
    hide ApplyLegacy, ApplyActionCompleted, ApplyDesired, ApplyActionFailed;
  }

  lemma {:induction false} LatestPlan(log: seq<Event>, n: nat, i: nat, actionId: string, kind: CommandType)
    requires i < n <= |log| && PlanKeys(log) && ValidLog(log)
    requires log[i].kind == ActionPlanned && log[i].data.actionId == actionId && log[i].data.actionType == kind
    ensures PlannedAttempt(log, n, actionId, kind) == Some(log[i].data.attemptId)
  {
    hide Fold;
    if n - 1 > i {
      if log[n - 1].kind == ActionPlanned && log[n - 1].data.actionId == actionId {
        KeysDistinct(log, i, n - 1);
      }
      LatestPlan(log, n - 1, i, actionId, kind);
    }
  }

  lemma PendingAttemptFound(exec: Executor, db: Tables)
    requires IsChain(exec, db.log) && Steady(Final(db.log)) && Final(db.log).pendingId != ""
    ensures
      var s := Final(db.log);
      PlannedAttempt(db.log, |db.log|, s.pendingId, s.pendingType) == Some(s.pendingAttempt)
  {
    hide Fold, IsChain, Reachable, ResultAfter;
    ChainShape(exec, db.log);
    ChainPlanKeys(exec, db.log);
    var i := PendingHasPlan(db.log);
    LatestPlan(db.log, |db.log|, i, Final(db.log).pendingId, Final(db.log).pendingType);
  }

  lemma ReceiptAccepted(exec: Executor, db: Tables)
    requires Conforming(exec, db.runId) && Core(exec, db) && Final(db.log).pendingId != "" && Final(db.log).pendingId in db.receipts
    ensures CheckReceipt(db, CompletionOf(db.receipts[Final(db.log).pendingId])).None?
  {
    hide Fold, IsChain, Reachable, Steady, Consistent, ValidateEvidence, PlannedAttempt, ArtifactsKnown, ReceiptFor,
      ValidateActionCompletion;
    CoreParts(exec, db);
    var s := Final(db.log);
    var r := db.receipts[s.pendingId];
    PendingAttemptFound(exec, db);
    EvidenceVerified(exec, db, s);
    ReceiptShape(exec, s);
  }

  lemma ReceiptShape(exec: Executor, s: State)
    ensures
      var r := ReceiptFor(exec, s);
      r.actionId == s.pendingId && r.kind == s.pendingType && r.id != ""
  {
    hide Perform;
  }

  lemma CompletionStored(exec: Executor, db: Tables, worker: string, token: nat)
    requires Conforming(exec, db.runId) && Harmless(exec, db.runId) && Core(exec, db) && Usual(db.log) && |db.log| <= MAX_BIGINT
    requires Current(db, worker, token) && Final(db.log).pendingId != "" && Final(db.log).pendingId in db.receipts
    ensures AppendAnswer(db, |db.log|, CompletedEvent(db.runId, worker, token, db.receipts[Final(db.log).pendingId])).Appended?
  {
    hide Fold, Consistent, IsChain, Steady, AppendAnswer, ApplyEvent, ArtifactsKnown, CheckReceipt, ReceiptFor, Conforming,
      ApplyActionCompleted, ConformsAt, Harmless;
    CoreParts(exec, db);
    CoreConforms(exec, db);
    CoreHarmless(exec, db);
    var s := Final(db.log);
    var r := db.receipts[s.pendingId];
    SteadyPending(s);
    ReceiptShape(exec, s);
    var e := CompletedEvent(db.runId, worker, token, r);
    forall i | 0 <= i < |db.log|
      ensures db.log[i].key != e.key
    {
      CompletionKeyUnused(exec, db.log, i);
    }
    ReceiptAccepted(exec, db);
    SteadyCompletes(exec, s, r);
    CompletionApplies(s, Numbered(db, |db.log|, e));
    RunNamed(db);
    Storable(db, e);
  }

  // ----- the worker that stays up -----

  ghost predicate Driving(exec: Executor, m: Machine, worker: string, token: nat) {
    && Transparent(exec, m) && Usual(m.db.log)
    && token in m.procs && m.procs[token].worker == worker && Current(m.db, worker, token)
  }

  function PhaseRank(phase: Phase): nat {
    match phase
    case Idle => 0
    case Validated => 1
    case Loaded(_) => 2
    case Planned(_, _) => 3
    case Ready(_, _, _) => 4
    case Executed(_, _, _, _) => 5
    case Evident(_, _, _, _) => 6
    case _ => 7
  }

  /** Steps left: eight phases for each event still to come. */
  function Left(m: Machine, token: nat): int
    requires token in m.procs
  {
    8 * (13 - |m.db.log|) - PhaseRank(m.procs[token].phase)
  }

  /** The executor's result where one is asked for. */
  function Supplied(exec: Executor, phase: Phase): Execution {
    if phase.Ready? then Perform(exec, phase.state, phase.command) else Broken("")
  }

  lemma DrivingFacts(exec: Executor, m: Machine, worker: string, token: nat)
    requires Driving(exec, m, worker, token)
    ensures Core(exec, m.db) && ValidLog(m.db.log) && Leads(m.db, token)
    ensures Live(exec, m.db, Final(m.db.log), worker, token, m.procs[token].phase)
    ensures Final(m.db.log).run.version == |m.db.log| && m.db.row.Some? && m.db.log != []
    ensures Steady(Final(m.db.log))
  {
    hide Fold, Core, Steady, Live;
    CoreParts(exec, m.db);
  }

  /** Where the next step of the leader leads. */
  ghost predicate Moves(m: Machine, moved: Effect, rank: nat) {
    || (moved.db.log == m.db.log && PhaseRank(moved.phase) > rank)
    || (|moved.db.log| == |m.db.log| + 1 && PhaseRank(moved.phase) <= 7)
  }

  ghost predicate SameLease(db: Tables, after: Tables) {
    after.runId == db.runId && after.lease == db.lease && after.clock == db.clock && db.log <= after.log
  }

  lemma AppendSameLease(db: Tables, expected: nat, e: Event)
    requires e.runId == db.runId
    ensures SameLease(db, AfterAppend(db, expected, e))
    ensures AppendAnswer(db, expected, e).Appended? ==> |AfterAppend(db, expected, e).log| == |db.log| + 1
  {
    hide AppendAnswer, Fold;
  }

  lemma LoadedMoves(exec: Executor, m: Machine, worker: string, token: nat, s: State)
    requires Conforming(exec, m.db.runId) && Harmless(exec, m.db.runId) && DistinctActions(m.db.runId) && AllScoped()
    requires Driving(exec, m, worker, token) && m.procs[token].phase == Loaded(s) && Final(m.db.log).run.observed != Succeeded
    requires |m.db.log| <= 13
    ensures
      var moved := WorkStep(m, worker, token, Loaded(s), Broken(""));
      Moves(m, moved, 2) && SameLease(m.db, moved.db)
  {
    hide Fold, Core, Driving, Harmless, DistinctActions, Conforming, AppendAnswer, AfterAppend, Decide, PlannedEvent, Reachable;
    DrivingFacts(exec, m, worker, token);
    assert Current(m.db, worker, token) && Usual(m.db.log) by { DrivingCurrent(exec, m, worker, token); }
    if s.pendingId == "" {
      PlanStored(exec, m.db, worker, token);
      PlannedEventRun(m.db.runId, worker, token, Decide(s));
      AppendSameLease(m.db, s.run.version, PlannedEvent(m.db.runId, worker, token, Decide(s)));
      assert Safety(Decide(s)).Valid();
    } else {
      SteadyPending(s);
    }
  }

  lemma DrivingCurrent(exec: Executor, m: Machine, worker: string, token: nat)
    requires Driving(exec, m, worker, token)
    ensures Current(m.db, worker, token) && Usual(m.db.log) && Transparent(exec, m)
  {
    hide Transparent;
  }

  lemma ExecutedMoves(exec: Executor, m: Machine, worker: string, token: nat, s: State, c: Command, version: nat, r: Receipt)
    requires Conforming(exec, m.db.runId) && Driving(exec, m, worker, token) && m.procs[token].phase == Executed(s, c, version, r)
    ensures
      var moved := WorkStep(m, worker, token, Executed(s, c, version, r), Broken(""));
      Moves(m, moved, 5) && SameLease(m.db, moved.db)
  {
    hide Fold, Core, Driving, Conforming, ReceiptOutcome, AfterReceipt, Steady, Perform, ReceiptFor;
    DrivingFacts(exec, m, worker, token);
    DrivingCurrent(exec, m, worker, token);
    LeaderRecords(exec, m.db, worker, token, s, c, r);
    RecordedCore(exec, m.db, worker, token, s, c, r);
  }

  lemma FinishingMoves(exec: Executor, m: Machine, worker: string, token: nat, e: Event, version: nat, retried: bool)
    requires Conforming(exec, m.db.runId) && Harmless(exec, m.db.runId) && |m.db.log| <= 13
    requires Driving(exec, m, worker, token) && m.procs[token].phase == Finishing(e, version, retried)
    ensures
      var moved := WorkStep(m, worker, token, Finishing(e, version, retried), Broken(""));
      Moves(m, moved, 7) && SameLease(m.db, moved.db)
  {
    hide Fold, Core, Driving, Conforming, Harmless, AppendAnswer, AfterAppend, Steady;
    DrivingFacts(exec, m, worker, token);
    DrivingCurrent(exec, m, worker, token);
    CompletionStored(exec, m.db, worker, token);
    AppendSameLease(m.db, version, e);
  }

  lemma ReadyMoves(m: Machine, worker: string, token: nat, s: State, c: Command, version: nat, exec: Executor)
    ensures
      var moved := WorkStep(m, worker, token, Ready(s, c, version), Perform(exec, s, c));
      Moves(m, moved, 4) && SameLease(m.db, moved.db)
  {
  }

  lemma OtherMoves(exec: Executor, m: Machine, worker: string, token: nat, phase: Phase)
    requires Driving(exec, m, worker, token) && m.procs[token].phase == phase
    requires phase.Idle? || phase.Validated? || phase.Planned? || phase.Evident?
    ensures
      var moved := WorkStep(m, worker, token, phase, Broken(""));
      Moves(m, moved, PhaseRank(phase)) && SameLease(m.db, moved.db)
  {
    hide Fold, Core, Driving, Steady, EvidenceHolds;
    DrivingFacts(exec, m, worker, token);
    DrivingCurrent(exec, m, worker, token);
  }

  /** Every step of a worker that stays up brings it closer. */
  lemma StepProgresses(exec: Executor, m: Machine, worker: string, token: nat)
    requires Conforming(exec, m.db.runId) && Harmless(exec, m.db.runId) && DistinctActions(m.db.runId) && AllScoped()
    requires Driving(exec, m, worker, token) && Final(m.db.log).run.observed != Succeeded && |m.db.log| <= 13
    ensures
      var phase := m.procs[token].phase;
      var moved := WorkStep(m, worker, token, phase, Supplied(exec, phase));
      Moves(m, moved, PhaseRank(phase)) && SameLease(m.db, moved.db)
  {
    hide Fold, Driving, Conforming, Harmless, DistinctActions, AllScoped, WorkStep, Perform, Moves, SameLease;
    DrivingProcess(exec, m, worker, token);
    var phase := m.procs[token].phase;
    DrivingFacts(exec, m, worker, token);
    match phase
    case Loaded(s) => LoadedMoves(exec, m, worker, token, s);
    case Ready(s, c, version) => ReadyMoves(m, worker, token, s, c, version, exec);
    case Executed(s, c, version, r) => ExecutedMoves(exec, m, worker, token, s, c, version, r);
    case Finishing(e, version, retried) => FinishingMoves(exec, m, worker, token, e, version, retried);
    case Replanned(_) => assert false;
    case Conflicted(_) => assert false;
    case _ => OtherMoves(exec, m, worker, token, phase);
  }

  // ----- reaching the end -----

  /** Some quiet schedule leads from one machine to the other. */
  ghost predicate CanReach(exec: Executor, m: Machine, n: Machine) {
    exists schedule :: QuietSchedule(exec, m, schedule) && Reached(m, schedule) == n
  }

  lemma ReachesItself(exec: Executor, m: Machine)
    ensures CanReach(exec, m, m)
  {
    hide Next;
    assert QuietSchedule(exec, m, []) && Reached(m, []) == m;
  }

  lemma ReachesNext(exec: Executor, m: Machine, n: Machine, step: Move)
    requires CanReach(exec, m, n) && Quiet(exec, n, step)
    ensures CanReach(exec, m, Next(n, step))
  {
    hide Next, Quiet;
    var schedule :| QuietSchedule(exec, m, schedule) && Reached(m, schedule) == n;
    var longer := schedule + [step];
    assert longer[..|schedule|] == schedule;
    forall k | 0 <= k < |longer|
      ensures Quiet(exec, Reached(m, longer[..k]), longer[k])
    {
      if k < |schedule| {
        assert longer[..k] == schedule[..k];
      }
    }
    assert Reached(m, longer) == Next(n, step);
  }

  ghost predicate Finishes(exec: Executor, m: Machine) {
    exists n :: CanReach(exec, m, n) && ValidLog(n.db.log) && Final(n.db.log).run.observed == Succeeded
  }

  lemma StillDriving(exec: Executor, m: Machine, worker: string, token: nat)
    requires Conforming(exec, m.db.runId) && AllScoped() && Driving(exec, m, worker, token)
    requires SameLease(m.db, WorkStep(m, worker, token, m.procs[token].phase, Supplied(exec, m.procs[token].phase)).db)
    ensures
      var step := Work(token, Supplied(exec, m.procs[token].phase));
      Quiet(exec, m, step) && Driving(exec, Next(m, step), worker, token)
  {
    hide Conforming, AllScoped, Transparent, WorkStep, Perform;
    StepTransparent(exec, m, Work(token, Supplied(exec, m.procs[token].phase)));
  }

  lemma TransparentChain(exec: Executor, m: Machine)
    requires Conforming(exec, m.db.runId) && AllScoped() && Transparent(exec, m)
    ensures ValidLog(m.db.log) && |m.db.log| <= 13
  {
    hide Conforming, AllScoped, Fold, IsChain, Reachable;
    TransparentCore(exec, m);
    ChainSteady(exec, m.db.log);
    SteadyEnd(Final(m.db.log));
  }

  lemma {:induction false} Drives(exec: Executor, from: Machine, m: Machine, worker: string, token: nat)
    requires Conforming(exec, m.db.runId) && Harmless(exec, m.db.runId) && DistinctActions(m.db.runId) && AllScoped()
    requires CanReach(exec, from, m) && Driving(exec, m, worker, token)
    ensures Finishes(exec, from)
    decreases Left(m, token) + 8
  {
    hide Fold, Driving, Conforming, Harmless, DistinctActions, AllScoped, CanReach, Quiet, Transparent, WorkStep, Supplied;
    DrivingCurrent(exec, m, worker, token);
    TransparentChain(exec, m);
    DrivingProcess(exec, m, worker, token);
    if Final(m.db.log).run.observed != Succeeded {
      var phase := m.procs[token].phase;
      var step := Work(token, Supplied(exec, phase));
      StepProgresses(exec, m, worker, token);
      StillDriving(exec, m, worker, token);
      ReachesNext(exec, from, m, step);
      DrivingCurrent(exec, Next(m, step), worker, token);
      TransparentChain(exec, Next(m, step));
      Drives(exec, from, Next(m, step), worker, token);
    }
  }

  lemma DrivingProcess(exec: Executor, m: Machine, worker: string, token: nat)
    requires Driving(exec, m, worker, token)
    ensures token in m.procs && m.procs[token].worker == worker
  {
    hide Transparent;
  }

  // ----- taking over -----

  /** The next lease is there to be taken: tokens are not exhausted. */
  predicate TokensLeft(db: Tables) {
    db.lease.Some? ==> db.lease.value.token < MAX_BIGINT
  }

  /** Ticks past any lease, registers and acquires. */
  lemma TakesOver(exec: Executor, from: Machine, worker: string) returns (m: Machine, token: nat)
    requires Conforming(exec, from.db.runId) && AllScoped() && Transparent(exec, from) && Usual(from.db.log)
    requires worker != "" && TokensLeft(from.db)
    ensures CanReach(exec, from, m) && Driving(exec, m, worker, token) && m.db.runId == from.db.runId
  {
    hide Conforming, AllScoped, Transparent, Fold, CanReach, UnresolvedLegacyAction, Usual;
    var wait: nat := if from.db.lease.Some? && from.db.lease.value.expiresAt > 0 then from.db.lease.value.expiresAt else 0;
    ReachesItself(exec, from);
    var ticked := Environment(Tick(wait));
    StepTransparent(exec, from, ticked);
    ReachesNext(exec, from, from, ticked);
    var later := Next(from, ticked);
    var registered := Environment(Register(worker));
    StepTransparent(exec, later, registered);
    ReachesNext(exec, from, later, registered);
    var ready := Next(later, registered);
    NothingPendsOutside(exec, ready);
    var acquire := AcquireLease(worker, 1);
    StepTransparent(exec, ready, acquire);
    ReachesNext(exec, from, ready, acquire);
    m := Next(ready, acquire);
    token := AcquireAnswer(ready.db, worker, 1).value.token;
    NewToken(exec, ready, token);
  }

  lemma NothingPendsOutside(exec: Executor, m: Machine)
    requires Transparent(exec, m)
    ensures m.db.row.Some? && UnresolvedLegacyAction(m.db.log).None?
  {
    hide Fold, UnresolvedLegacyAction, Reachable;
    TransparentCore(exec, m);
    CoreParts(exec, m.db);
    LegacyScanAgrees(m.db.log);
  }

  lemma NewToken(exec: Executor, m: Machine, token: nat)
    requires Transparent(exec, m) && (m.db.lease.Some? ==> m.db.lease.value.token < token)
    ensures token !in m.procs
  {
    hide Core, Common, Live, Fold;
  }

  /**
    After any schedule of crashes and takeovers, as long as fencing tokens are
    left, a worker can take over and drive the Run to Succeeded.
  */
  lemma RecoveryCompletes(exec: Executor, start: Machine, schedule: seq<Move>, worker: string)
    requires Conforming(exec, start.db.runId) && Harmless(exec, start.db.runId) && DistinctActions(start.db.runId) && AllScoped()
    requires Fresh(start) && Usual(start.db.log) && QuietSchedule(exec, start, schedule)
    requires worker != "" && TokensLeft(Reached(start, schedule).db)
    ensures Finishes(exec, Reached(start, schedule))
  {
    hide Conforming, Harmless, DistinctActions, AllScoped, QuietSchedule, Transparent, Next, CanReach, Consistent, Driving;
    AlwaysTransparent(exec, start, schedule);
    CreationStays(start, schedule);
    var from := Reached(start, schedule);
    var m, token := TakesOver(exec, from, worker);
    Drives(exec, from, m, worker, token);
  }

  // ----- every worker that keeps its lease -----

  /** How many steps of a schedule are this process's. */
  function OwnSteps(schedule: seq<Move>, token: nat): nat {
    if schedule == [] then 0
    else
      var n := |schedule| - 1;
      OwnSteps(schedule[..n], token) + (if Foreign(schedule[n], token) then 0 else 1)
  }

  /** The holder of the current lease is never crashed and keeps its lease at every point. */
  ghost predicate Kept(m: Machine, worker: string, token: nat, schedule: seq<Move>) {
    && (forall k :: 0 <= k <= |schedule| ==> Current(Reached(m, schedule[..k]).db, worker, token))
    && (forall k :: 0 <= k < |schedule| ==> schedule[k] != Crash(token))
  }

  lemma AppendRefusedKeeps(db: Tables, expected: nat, e: Event, token: nat)
    requires e.runId == db.runId && LeaseSensitive(e) && e.token != token && Leads(db, token)
    ensures AfterAppend(db, expected, e).log == db.log
  {
    hide AfterAppend, AppendAnswer, Fold;
    StaleRefused(db, expected, e);
  }

  /** A process without the lease adds nothing to the log. */
  lemma BystanderAddsNothing(exec: Executor, m: Machine, token: nat, t: nat, x: Execution)
    requires Transparent(exec, m) && Leads(m.db, token) && t != token && t in m.procs
    ensures Worked(m, t, x).db.log == m.db.log
  {
    hide Fold, Transparent, AppendAnswer, AfterAppend, ReceiptOutcome, Recover, EvidenceHolds, CheckAuthority, Load, Decide,
      Core, Live, HeldBy, Steady, PlannedEvent;
    KnowsAt(exec, m, t);
    var p := m.procs[t];
    match p.phase
    case Loaded(s) =>
      PlanShape(m.db.runId, p.worker, t, Decide(s));
      AppendRefusedKeeps(m.db, s.run.version, PlannedEvent(m.db.runId, p.worker, t, Decide(s)), token);
    case Finishing(e, version, retried) =>
      if e.runId == m.db.runId {
        AppendRefusedKeeps(m.db, version, e, token);
      }
    case _ =>
  }

  lemma ForeignAddsNothing(exec: Executor, m: Machine, token: nat, step: Move)
    requires Transparent(exec, m) && Leads(m.db, token) && Foreign(step, token) && Quiet(exec, m, step)
    ensures Next(m, step).db.log == m.db.log
  {
    hide Fold, Transparent, Worked, Do, AcquireAnswer;
    match step
    case Environment(op) =>
      QuietFrame(m.db, op);
      FrameLog(m.db, Do(m.db, op));
    case Work(t, x) =>
      if t in m.procs {
        BystanderAddsNothing(exec, m, token, t, x);
      }
    case _ =>
  }

  lemma IdleExecution(m: Machine, worker: string, token: nat, phase: Phase, x: Execution, y: Execution)
    requires !phase.Ready?
    ensures WorkStep(m, worker, token, phase, x) == WorkStep(m, worker, token, phase, y)
  {
    hide Plan, Record, Finish, Recover, Load, EvidenceHolds, CheckAuthority;
  }

  /** One step of a schedule under which the lease is kept: the measure falls if the step is the holder's own. */
  lemma KeptStep(exec: Executor, m: Machine, worker: string, token: nat, step: Move)
    requires Conforming(exec, m.db.runId) && Harmless(exec, m.db.runId) && DistinctActions(m.db.runId) && AllScoped()
    requires Driving(exec, m, worker, token) && Quiet(exec, m, step) && step != Crash(token)
    requires Current(Next(m, step).db, worker, token)
    ensures
      var n := Next(m, step);
      && Driving(exec, n, worker, token) && n.db.runId == m.db.runId
      && (|m.db.log| == 13 ==> |n.db.log| == 13)
      && (|m.db.log| < 13 ==> Left(n, token) <= Left(m, token) - (if Foreign(step, token) then 0 else 1))
  {
    hide Fold, Conforming, Harmless, DistinctActions, AllScoped, Transparent, WorkStep, Quiet, Do, Core, Consistent, Perform, Current;
    var n := Next(m, step);
    StepTransparent(exec, m, step);
    StepSameRun(exec, m, step);
    TransparentChain(exec, m);
    TransparentChain(exec, n);
    TransparentCore(exec, m);
    CoreParts(exec, m.db);
    StepAppends(m, step);
    assert Leads(m.db, token) by { DrivingFacts(exec, m, worker, token); }
    if Foreign(step, token) {
      ForeignKeeps(m, step, token);
      ForeignAddsNothing(exec, m, token, step);
    } else {
      var phase := m.procs[token].phase;
      SuppliedStep(exec, m, worker, token, step);
      if |m.db.log| < 13 {
        NotYetSucceeded(exec, m);
        StepProgresses(exec, m, worker, token);
      }
    }
  }

  lemma NotYetSucceeded(exec: Executor, m: Machine)
    requires Conforming(exec, m.db.runId) && AllScoped() && Transparent(exec, m)
    ensures ValidLog(m.db.log) && (Final(m.db.log).run.observed == Succeeded <==> |m.db.log| == 13)
  {
    hide Conforming, AllScoped, Fold, IsChain, Reachable;
    TransparentCore(exec, m);
    CoreParts(exec, m.db);
    ChainSteady(exec, m.db.log);
    SteadyEnd(Final(m.db.log));
  }

  lemma SuppliedStep(exec: Executor, m: Machine, worker: string, token: nat, step: Move)
    requires token in m.procs && m.procs[token].worker == worker && Quiet(exec, m, step)
    requires !Foreign(step, token) && step != Crash(token)
    ensures
      var p := m.procs[token];
      var moved := WorkStep(m, worker, token, p.phase, Supplied(exec, p.phase));
      Next(m, step) == Machine(moved.db, m.procs[token := p.(phase := moved.phase)], moved.tally)
  {
    hide WorkStep, Perform;
    if !m.procs[token].phase.Ready? {
      IdleExecution(m, worker, token, m.procs[token].phase, step.execution, Supplied(exec, m.procs[token].phase));
    }
  }

  lemma KeptPrefix(exec: Executor, m: Machine, worker: string, token: nat, schedule: seq<Move>)
    requires schedule != [] && QuietSchedule(exec, m, schedule) && Kept(m, worker, token, schedule)
    ensures
      var n := |schedule| - 1;
      && QuietSchedule(exec, m, schedule[..n]) && Kept(m, worker, token, schedule[..n])
      && Reached(m, schedule) == Next(Reached(m, schedule[..n]), schedule[n])
      && Quiet(exec, Reached(m, schedule[..n]), schedule[n]) && schedule[n] != Crash(token)
      && Current(Reached(m, schedule).db, worker, token)
  {
    hide Next, Quiet, Current;
    var n := |schedule| - 1;
    assert schedule[..|schedule|] == schedule;
    forall k | 0 <= k <= n
      ensures schedule[..n][..k] == schedule[..k]
    {
    }
    assert forall k :: 0 <= k < n ==> schedule[..n][k] == schedule[k];
  }

  lemma {:induction false} KeptAlong(exec: Executor, m: Machine, worker: string, token: nat, schedule: seq<Move>)
    requires Conforming(exec, m.db.runId) && Harmless(exec, m.db.runId) && DistinctActions(m.db.runId) && AllScoped()
    requires Driving(exec, m, worker, token) && QuietSchedule(exec, m, schedule) && Kept(m, worker, token, schedule)
    ensures
      var n := Reached(m, schedule);
      && Driving(exec, n, worker, token) && n.db.runId == m.db.runId
      && (|n.db.log| == 13 || Left(n, token) <= Left(m, token) - OwnSteps(schedule, token))
    decreases |schedule|
  {
    hide Conforming, Harmless, DistinctActions, AllScoped, Driving, Next, Quiet, Current, Foreign, QuietSchedule, Kept, Left,
      Reached, Transparent, Fold;
    if schedule == [] {
      ReachedNothing(m);
      DrivingProcess(exec, m, worker, token);
    } else {
      var n := |schedule| - 1;
      KeptPrefix(exec, m, worker, token, schedule);
      KeptAlong(exec, m, worker, token, schedule[..n]);
      var before := Reached(m, schedule[..n]);
      DrivingCurrent(exec, before, worker, token);
      TransparentChain(exec, before);
      KeptStep(exec, before, worker, token, schedule[n]);
      DrivingProcess(exec, before, worker, token);
      DrivingProcess(exec, Reached(m, schedule), worker, token);
    }
  }

  lemma ReachedNothing(m: Machine)
    ensures Reached(m, []) == m
  {
    hide Next;
  }

  /**
    The universal form: whatever else happens, a holder that keeps its lease, is not
    crashed and takes at least as many steps as are left has driven the Run to Succeeded.
  */
  lemma HolderFinishes(exec: Executor, m: Machine, worker: string, token: nat, schedule: seq<Move>)
    requires Conforming(exec, m.db.runId) && Harmless(exec, m.db.runId) && DistinctActions(m.db.runId) && AllScoped()
    requires Driving(exec, m, worker, token) && QuietSchedule(exec, m, schedule) && Kept(m, worker, token, schedule)
    requires OwnSteps(schedule, token) >= Left(m, token)
    ensures
      var n := Reached(m, schedule);
      ValidLog(n.db.log) && Final(n.db.log).run.observed == Succeeded
  {
    hide Conforming, Harmless, DistinctActions, AllScoped, Driving, Next, QuietSchedule, Kept, Fold, Transparent;
    KeptAlong(exec, m, worker, token, schedule);
    var n := Reached(m, schedule);
    DrivingCurrent(exec, n, worker, token);
    DrivingProcess(exec, n, worker, token);
    TransparentChain(exec, n);
    RankBound(n.procs[token].phase);
    NotYetSucceeded(exec, n);
  }

  lemma RankBound(phase: Phase)
    ensures PhaseRank(phase) <= 7
  {
  }

  function CreationEvent(runId: string, data: EventData): Event {
    Event(runId, 0, RunCreated, 0, data, "run-created", "", runId, "", 0, "")
  }

  /** A machine in which nothing happened but the creation of the Run. */
  function CreatedRun(runId: string, data: EventData): Machine {
    Next(Start(runId), Environment(Append(0, CreationEvent(runId, data))))
  }

  /** Creating a Run gives such a start, so the theorems about fresh Runs speak of real ones. */
  lemma CreationIsFresh(runId: string, data: EventData)
    requires runId != "" && !HasCredential(data)
    ensures
      var m := CreatedRun(runId, data);
      Fresh(m) && Usual(m.db.log) && m.db.runId == runId
  {
    hide Consistent, Fold, ApplyEvent;
    var created := CreationEvent(runId, data);
    var db := Empty(runId);
    var stored := Numbered(db, 0, created);
    EmptyConsistent(runId);
    EmptyScan();
    FoldSnoc([], stored);
    CreationApplies(stored);
    AppendKeeps(db, 0, created);
    assert [] + [stored] == [stored];
  }

  lemma CreationApplies(e: Event)
    requires e.kind == RunCreated
    ensures ApplyEvent(INITIAL, e).Ok?
  {
  }

  /**
    The whole theorem about the source's own executor: a Run created as the controller
    does, under any schedule of crashes and takeovers, writes its chain and can be finished,
    given only what can be checked of the Run beforehand.
  */
  lemma DeterministicRun(runId: string, data: EventData, schedule: seq<Move>, worker: string)
    requires runId != "" && !HasCredential(data) && worker != ""
    requires AllScoped() && OutputsPass(runId) && PayloadsPass(runId) && DistinctActions(runId)
    requires QuietSchedule(DeterministicWork, CreatedRun(runId, data), schedule)
    requires TokensLeft(Reached(CreatedRun(runId, data), schedule).db)
    ensures
      var m := Reached(CreatedRun(runId, data), schedule);
      && IsChain(DeterministicWork, m.db.log) && |m.db.log| <= 13
      && (Final(m.db.log).run.observed == Succeeded <==> |m.db.log| == 13)
      && Finishes(DeterministicWork, m)
  {
    hide AllScoped, OutputsPass, PayloadsPass, DistinctActions, QuietSchedule, Fresh, Conforming, Harmless, Fold, Next, IsChain,
      CreatedRun, Finishes, TokensLeft, Usual, Reached;
    CreationIsFresh(runId, data);
    DeterministicConforms(runId);
    DeterministicHarmless(runId);
    CrashesFollowChain(DeterministicWork, CreatedRun(runId, data), schedule);
    RecoveryCompletes(DeterministicWork, CreatedRun(runId, data), schedule, worker);
  }
}
