/**
  What every process of a quiet Run knows, and what the holder of the current
  lease can therefore do: its writes extend the chain, everyone else's are refused.
*/
module Leader {
  import opened Wrappers
  import opened Types
  import opened Decider
  import opened Reducer
  import opened Projection
  import opened Lifecycle
  import opened Effects
  import opened Evidence
  import opened EventStore
  import opened ReceiptScan
  import opened Database
  import opened StoreInvariants
  import opened Managed
  import opened UnsafeOnce
  import opened Chain

  // ----- the invariant -----

  function ArtifactFor(runId: string, actionId: string): Artifact {
    Artifact(runId, FirstAttempt(runId), ARTIFACT_TYPE, ContentDigest(runId, actionId), true)
  }

  ghost predicate ArtifactsKnown(db: Tables) {
    forall x {:trigger ArtifactIdFor(x)} :: ArtifactIdFor(x) in db.artifacts ==>
      db.artifacts[ArtifactIdFor(x)] == ArtifactFor(db.runId, x)
  }

  ghost predicate ReceiptIds(db: Tables) {
    forall a :: a in db.receipts ==> db.receipts[a].id == db.runId + ":" + a
  }

  predicate Stored(db: Tables, r: Receipt) {
    r.artifactId != "" ==> r.artifactId in db.artifacts
  }

  /** A receipt of the pending action is the one the executor determines. */
  ghost predicate PendingReceipt(exec: Executor, db: Tables, s: State) {
    s.pendingId != "" && s.pendingId in db.receipts ==>
      var r := db.receipts[s.pendingId];
      r == ReceiptFor(exec, s).(worker := r.worker, token := r.token) && Stored(db, r)
  }

  ghost predicate Core(exec: Executor, db: Tables) {
    && Consistent(db) && IsChain(exec, db.log) && Steady(Final(db.log)) && Final(db.log).run.id == db.runId
    && ReceiptIds(db) && ArtifactsKnown(db) && PendingReceipt(exec, db, Final(db.log))
  }

  ghost predicate Awaiting(db: Tables, s: State, c: Command) {
    s.pendingId != "" && c == PendingCommand(s) && s.pendingId !in db.receipts
  }

  /** What every process knows, even one that lost its lease. */
  ghost predicate Common(runId: string, now: State, token: nat, phase: Phase) {
    match phase
    case Loaded(s) => Steady(s) && s.run.id == runId
    case Replanned(c) => c.kind == ApplyPatch ==> now.attemptId == FirstAttempt(runId)
    case Planned(c, _) => c.kind == ApplyPatch ==> now.attemptId == FirstAttempt(runId)
    case Ready(s, c, _) => c.kind == ApplyPatch ==> s.attemptId == FirstAttempt(runId) && s.run.id == runId
    case Finishing(e, _, _) => e.token == token && (e.kind == ActionCompleted || e.kind == ActionFailed)
    case Conflicted(e) => e.token == token && (e.kind == ActionCompleted || e.kind == ActionFailed)
    case _ => true
  }

  /** The holder of the current token has seen the whole log; `now` is its projection. */
  ghost predicate Live(exec: Executor, db: Tables, now: State, worker: string, token: nat, phase: Phase) {
    match phase
    case Loaded(s) => s == now
    case Replanned(_) => false
    case Planned(c, version) => version == |db.log| && Awaiting(db, now, c)
    case Ready(s, c, version) => s == now && version == |db.log| && Awaiting(db, now, c)
    case Executed(s, c, version, r) =>
      s == now && version == |db.log| && Awaiting(db, now, c)
      && r == Addressed(Perform(exec, s, c).receipt, s, c) && Stored(db, r)
    case Evident(s, c, version, r) =>
      s == now && version == |db.log| && s.pendingId != "" && s.pendingId in db.receipts && r == db.receipts[s.pendingId]
    case Finishing(e, version, _) =>
      version == |db.log| && now.pendingId != "" && now.pendingId in db.receipts
      && e == CompletedEvent(db.runId, worker, token, db.receipts[now.pendingId])
    case Conflicted(_) => false
    case _ => true
  }

  predicate Leads(db: Tables, token: nat) {
    db.lease.Some? && db.lease.value.token == token
  }

  ghost predicate ProcessKnows(exec: Executor, db: Tables, now: State, token: nat, p: Process) {
    && HeldBy(db, p.worker, token)
    && Common(db.runId, now, token, p.phase)
    && (Leads(db, token) ==> Live(exec, db, now, p.worker, token, p.phase))
  }

  ghost predicate Transparent(exec: Executor, m: Machine) {
    && Core(exec, m.db)
    && (forall t :: t in m.procs ==> ProcessKnows(exec, m.db, Final(m.db.log), t, m.procs[t]))
    && m.tally.broken == multiset{} && m.tally.rejected == multiset{}
  }

  // ----- frames -----

  /** Nothing processes depend on has changed, except that artifacts may have been added. */
  ghost predicate Frame(db: Tables, after: Tables) {
    && after.runId == db.runId && after.log == db.log && after.receipts == db.receipts
    && (forall id :: id in db.artifacts ==> id in after.artifacts)
    && (forall w, t :: HeldBy(db, w, t) ==> HeldBy(after, w, t))
    && (forall t :: Leads(after, t) ==> Leads(db, t))
  }

  lemma FrameKeeps(exec: Executor, db: Tables, after: Tables, now: State, token: nat, p: Process)
    requires Frame(db, after) && ProcessKnows(exec, db, now, token, p)
    ensures ProcessKnows(exec, after, now, token, p)
  {
    hide HeldBy, Steady, Perform, CompletedEvent, Leads, Common;
  }

  /** A process without the lease keeps what it knows while the log grows. */
  lemma BystanderKeeps(exec: Executor, db: Tables, after: Tables, now: State, later: State, token: nat, p: Process)
    requires ProcessKnows(exec, db, now, token, p) && !Leads(db, token)
    requires after.runId == db.runId && after.lease == db.lease
    requires now.attemptId == FirstAttempt(db.runId) ==> later.attemptId == FirstAttempt(db.runId)
    ensures ProcessKnows(exec, after, later, token, p)
  {
    hide Live, Steady;
  }

  // ----- processes that lost the lease -----

  /** Fencing refuses every write of a process that does not hold the current token. */
  lemma StaleRefused(db: Tables, expected: nat, e: Event)
    requires e.runId == db.runId && LeaseSensitive(e) && !Leads(db, e.token)
    ensures AppendAnswer(db, expected, e).Refused? && !AppendAnswer(db, expected, e).error.VersionConflict?
    ensures AfterAppend(db, expected, e) == db
  {
    hide Fold, FindKey, CheckReceipt;
  }

  lemma StaleReceipt(db: Tables, auth: Authority, r: Receipt)
    requires !Leads(db, auth.token)
    ensures ReceiptOutcome(db, auth, r).ReceiptRefused? && AfterReceipt(db, auth, r) == db
    ensures CheckAuthority(db, auth).Some?
  {
    hide ReceiptPlan, ValidateEvidence, Insertable;
  }

  // ----- the leader plans -----

  lemma PlanIsNext(exec: Executor, db: Tables, worker: string, token: nat, s: State, stored: Event)
    requires s.run.id == db.runId && s.pendingId == "" && Decide(s).kind != Noop
    requires stored == Numbered(db, s.run.version, PlannedEvent(db.runId, worker, token, Decide(s)))
    ensures NextEvent(exec, s) == Some(Bare(stored))
    ensures stored.kind == ActionPlanned && stored.data == PlanData(Decide(s), Safety(Decide(s)))
    ensures stored.key == Decide(s).actionId + ":action-planned"
  {
    hide Decide;
  }

  lemma ReceiptHasPlan(db: Tables, a: string) returns (i: nat)
    requires Consistent(db) && a in db.receipts
    ensures i < |db.log| && db.log[i].kind == ActionPlanned && db.log[i].data.actionId == a
  {
    hide Fold, Derived, FencingRules, ModeRules, NothingSplit, CompletionsSandwiched;
    assert HasPlan(db.log, |db.log|, db.receipts[a]);
    var k :| k < |db.log| && PlannedBy(db.log, k, db.receipts[a]);
    i := k;
  }

  /** A stored plan is of an action no receipt exists for. */
  lemma PlanIsFresh(exec: Executor, db: Tables, stored: Event)
    requires Consistent(db) && IsChain(exec, db.log) && ValidLog(db.log + [stored])
    requires stored.key == stored.data.actionId + ":action-planned"
    ensures stored.data.actionId !in db.receipts
  {
    hide Fold, IsChain, Consistent;
    var a := stored.data.actionId;
    if a in db.receipts {
      ChainPlanKeys(exec, db.log);
      var i := ReceiptHasPlan(db, a);
      var longer := db.log + [stored];
      assert longer[i] == db.log[i] && longer[|db.log|] == stored;
      KeysDistinct(longer, i, |db.log|);
    }
  }

  lemma AppendedPlan(exec: Executor, db: Tables, worker: string, token: nat, s: State) returns (now: State)
    requires Conforming(exec, db.runId) && AllScoped() && Core(exec, db) && s == Final(db.log) && s.pendingId == "" && Decide(s).kind != Noop
    requires AppendAnswer(db, s.run.version, PlannedEvent(db.runId, worker, token, Decide(s))).Appended?
    ensures
      var e := PlannedEvent(db.runId, worker, token, Decide(s));
      var after := AfterAppend(db, s.run.version, e);
      && Core(exec, after) && now == Final(after.log)
      && after.runId == db.runId && after.lease == db.lease
      && now.attemptId == s.attemptId
      && AppendAnswer(db, s.run.version, e).event.seqNo == |after.log|
      && Awaiting(after, now, Decide(s))
  {
    hide Fold, AppendAnswer, AfterAppend, Decide, Consistent, Admitted, Steady, IsChain, NextEvent, PlannedEvent,
      ApplyEvent, Reachable, PlanData, Conforming;
    var c := Decide(s);
    var e := PlannedEvent(db.runId, worker, token, c);
    PlannedEventRun(db.runId, worker, token, c);
    AppendKeeps(db, s.run.version, e);
    var stored := AppendAdmits(db, s.run.version, e);
    AdmittedValid(db, stored);
    PlanIsNext(exec, db, worker, token, s, stored);
    ChainGrows(exec, db.log, stored);
    PlanDataId(c, Safety(c));
    PlanIsFresh(exec, db, stored);
    ConsistentLog(db);
    ProjectionReachable(db.log);
    var t := LastStep(db.log, stored);
    PlanApplies(s, stored);
    PlanSteady(s, c);
    StampSteady(t, stored);
    now := Final(db.log + [stored]);
  }

  lemma PlanDataId(c: Command, scope: IdempotencyScope)
    ensures PlanData(c, scope).actionId == c.actionId
  {
  }

  // ----- the leader completes -----

  lemma CompletionIsNext(exec: Executor, db: Tables, worker: string, token: nat, s: State, version: nat, stored: Event)
    requires s.run.id == db.runId && s.pendingId != "" && s.pendingId in db.receipts && PendingReceipt(exec, db, s)
    requires version == s.run.version
    requires stored == Numbered(db, version, CompletedEvent(db.runId, worker, token, db.receipts[s.pendingId]))
    ensures NextEvent(exec, s) == Some(Bare(stored))
    ensures stored.kind == ActionCompleted && stored.data == CompletionOf(ReceiptFor(exec, s))
  {
    hide Perform;
  }

  lemma AppendedCompletion(exec: Executor, db: Tables, worker: string, token: nat, s: State) returns (now: State)
    requires Conforming(exec, db.runId) && AllScoped() && Core(exec, db) && s == Final(db.log)
    requires s.pendingId != "" && s.pendingId in db.receipts
    requires AppendAnswer(db, |db.log|, CompletedEvent(db.runId, worker, token, db.receipts[s.pendingId])).Appended?
    ensures
      var e := CompletedEvent(db.runId, worker, token, db.receipts[s.pendingId]);
      var after := AfterAppend(db, |db.log|, e);
      && Core(exec, after) && now == Final(after.log)
      && after.runId == db.runId && after.lease == db.lease
      && (s.attemptId != "" ==> now.attemptId == s.attemptId)
  {
    hide Fold, AppendAnswer, AfterAppend, Consistent, Admitted, Steady, IsChain, NextEvent,
      ApplyEvent, Reachable, ReceiptFor, CompletionOf, ApplyActionCompleted, Conforming, ConformsAt;
    CoreConforms(exec, db);
    var e := CompletedEvent(db.runId, worker, token, db.receipts[s.pendingId]);
    AppendKeeps(db, |db.log|, e);
    var stored := AppendAdmits(db, |db.log|, e);
    AdmittedValid(db, stored);
    ConsistentLog(db);
    ProjectionReachable(db.log);
    CompletionIsNext(exec, db, worker, token, s, |db.log|, stored);
    ChainGrows(exec, db.log, stored);
    var t := LastStep(db.log, stored);
    CompletionApplies(s, stored);
    CompletionSteady(exec, s);
    StampSteady(t, stored);
    now := Final(db.log + [stored]);
  }

  // ----- the leader executes and records -----

  lemma ArtifactWritten(exec: Executor, db: Tables, s: State, c: Command)
    requires Core(exec, db)
    requires c.kind == ApplyPatch ==> s.attemptId == FirstAttempt(db.runId) && s.run.id == db.runId
    ensures
      var x := Perform(exec, s, c);
      var after := if x.artifact.None? then db else AfterArtifact(db, ArtifactIdFor(c.actionId), x.artifact.value);
      && Settled(db, c, x) == x
      && Core(exec, after) && Frame(db, after) && after.lease == db.lease
      && Stored(after, Addressed(x.receipt, s, c))
  {
    hide Fold, Consistent, IsChain, Steady, ReceiptFor;
    var x := Perform(exec, s, c);
    if x.artifact.Some? {
      var id := ArtifactIdFor(c.actionId);
      ArtifactKeeps(db, id, x.artifact.value);
      var after := AfterArtifact(db, id, x.artifact.value);
      forall y | ArtifactIdFor(y) in after.artifacts
        ensures after.artifacts[ArtifactIdFor(y)] == ArtifactFor(after.runId, y)
      {
        if ArtifactIdFor(y) == id {
          assert y == ArtifactIdFor(y)[7..] == ArtifactIdFor(c.actionId)[7..] == c.actionId;
        }
      }
    }
  }

  lemma CoreConforms(exec: Executor, db: Tables)
    requires Conforming(exec, db.runId) && Core(exec, db) && Final(db.log).pendingId != ""
    ensures ConformsAt(exec, Final(db.log))
  {
    hide Fold, Steady, IsChain, Consistent, ConformsAt, PendingReceipt, ArtifactsKnown, ReceiptIds;
    assert ChainOf(exec, db.log, db.runId);
  }

  lemma PerformedEvidence(exec: Executor, s: State)
    requires ConformsAt(exec, s) && Steady(s) && s.pendingId != ""
    ensures
      var r := ReceiptFor(exec, s);
      ValidateEvidence(r.kind, r.actionId, s.pendingAttempt, r.output, r.outputDigest, r.artifactId, r.artifactDigest).Pass?
  {
    hide Reachable;
    assert ForwardKind(s.pendingType);
  }

  /** RecordReceipt identifies the executor's receipt. */
  lemma PerformedReceipt(exec: Executor, db: Tables, s: State)
    requires s.run.id == db.runId
    ensures
      var r := Addressed(Perform(exec, s, PendingCommand(s)).receipt, s, PendingCommand(s));
      && Identified(db, r) == ReceiptFor(exec, s) == r.(id := db.runId + ":" + s.pendingId)
      && r.actionId == s.pendingId && r.kind == s.pendingType && r.scope == s.pendingScope
      && r.output == exec(Timeless(s), PendingCommand(s)).output && r.cost == exec(Timeless(s), PendingCommand(s)).cost
  {
  }

  lemma SuffixDiffers(prefix: string, a: string, b: string)
    requires prefix + ":" + a == prefix + ":" + b
    ensures a == b
  {
    var x, y := prefix + ":" + a, prefix + ":" + b;
    assert x[|prefix| + 1..] == a && y[|prefix| + 1..] == b;
  }

  lemma ReceiptInsertable(exec: Executor, db: Tables, s: State)
    requires ReceiptIds(db) && s.run.id == db.runId && s.pendingId !in db.receipts && Stored(db, ReceiptFor(exec, s))
    ensures Insertable(db, ReceiptFor(exec, s))
  {
    hide Perform;
    forall a | a in db.receipts
      ensures db.receipts[a].id != ReceiptFor(exec, s).id
    {
      if db.receipts[a].id == ReceiptFor(exec, s).id {
        SuffixDiffers(db.runId, a, s.pendingId);
      }
    }
  }

  lemma PendingPlanned(exec: Executor, db: Tables, s: State)
    requires IsChain(exec, db.log) && s == Final(db.log) && Steady(s) && s.pendingId != ""
    ensures ReceiptPlan(db.log, s.pendingId, s.pendingType, s.pendingScope) == Some(s.pendingAttempt)
    ensures s.pendingType != NoCommand && s.pendingScope.Valid() && s.pendingType != FailRun
    ensures s.pendingType == StartAttempt ==> s.pendingAttempt != ""
  {
    hide Fold, IsChain, ReceiptPlan, Reachable;
    ChainPlanKeys(exec, db.log);
    assert ValidLog(db.log) by { ChainShape(exec, db.log); }
    PlanKeysMakeScanExact(db.log, s.pendingId, s.pendingType, s.pendingScope);
  }

  /** With current authority the receipt of the pending action is always recorded. */
  lemma LeaderRecords(exec: Executor, db: Tables, worker: string, token: nat, s: State, c: Command, r: Receipt)
    requires Conforming(exec, db.runId) && Core(exec, db) && s == Final(db.log) && Awaiting(db, s, c)
    requires r == Addressed(Perform(exec, s, c).receipt, s, c) && Stored(db, r)
    ensures
      ReceiptOutcome(db, Authority(worker, token), r)
      == (match CheckAuthority(db, Authority(worker, token))
          case None => ReceiptRecorded(ReceiptFor(exec, s).(worker := worker, token := token))
          case Some(error) => ReceiptRefused(error))
  {
    hide Fold, Consistent, IsChain, Steady, Perform, ReceiptPlan, ValidateEvidence, Insertable, ReceiptFor, Conforming;
    CoreConforms(exec, db);
    PerformedReceipt(exec, db, s);
    PendingPlanned(exec, db, s);
    PerformedEvidence(exec, s);
    ReceiptInsertable(exec, db, s);
  }

  lemma RecordedCore(exec: Executor, db: Tables, worker: string, token: nat, s: State, c: Command, r: Receipt)
    requires Conforming(exec, db.runId) && Core(exec, db) && s == Final(db.log) && Awaiting(db, s, c)
    requires r == Addressed(Perform(exec, s, c).receipt, s, c) && Stored(db, r)
    requires CheckAuthority(db, Authority(worker, token)).None?
    ensures
      var after := AfterReceipt(db, Authority(worker, token), r);
      var kept := ReceiptFor(exec, s).(worker := worker, token := token);
      && after == db.(receipts := db.receipts[s.pendingId := kept])
      && Core(exec, after)
  {
    hide Fold, Consistent, IsChain, Steady, Perform, ReceiptOutcome, CheckAuthority, Conforming;
    LeaderRecords(exec, db, worker, token, s, c, r);
    PerformedReceipt(exec, db, s);
    ReceiptKeeps(db, Authority(worker, token), r);
  }

  // ----- the leader verifies -----

  lemma EvidenceVerified(exec: Executor, db: Tables, s: State)
    requires Conforming(exec, db.runId) && Core(exec, db) && s == Final(db.log) && s.pendingId != "" && s.pendingId in db.receipts
    ensures EvidenceHolds(db, s, db.receipts[s.pendingId])
  {
    hide Fold, Consistent, IsChain, ApplyActionCompleted, Reachable, ValidateEvidence, Conforming, ConformsAt;
    CoreConforms(exec, db);
    var r := db.receipts[s.pendingId];
    PerformedEvidence(exec, s);
    SteadyPending(s);
    SteadyCompletes(exec, s, r);
    if r.artifactId != "" {
      assert r.artifactId == ArtifactIdFor(s.pendingId);
      assert db.artifacts[ArtifactIdFor(s.pendingId)] == ArtifactFor(db.runId, s.pendingId);
    }
  }

  lemma SteadyCompletes(exec: Executor, s: State, r: Receipt)
    requires ConformsAt(exec, s) && Steady(s) && s.pendingId != ""
    requires r == ReceiptFor(exec, s).(worker := r.worker, token := r.token)
    ensures ValidateActionCompletion(s, CompletionOf(r)).Pass?
  {
    hide ApplyActionCompleted, Reachable;
    PerformedEvidence(exec, s);
    CompletionAccepted(s, CompletionOf(r));
  }
}
