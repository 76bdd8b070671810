/**
  The transactions as the source runs them, statement by statement on mutable
  rows. Each is proved to be the atomic step of the same name in Database, so
  everything known of those steps holds of these methods.
*/
module Postgres {
  import opened Wrappers
  import opened Types
  import opened Reducer
  import opened Projection
  import opened Lifecycle
  import opened Evidence
  import opened EventStore
  import opened Scans
  import opened ReceiptScan
  import opened Checkpoints
  import opened Database
  import opened StoreInvariants

  class RunDatabase {
    const runId: string
    var row: Option<RunRow>
    var log: seq<Event>
    var attempts: seq<AttemptRow>
    var workers: set<string>
    var lease: Option<Lease>
    var receipts: map<string, Receipt>
    var artifacts: map<string, Artifact>
    var checkpoint: Stored
    var clock: nat

    function Snapshot(): Tables
      reads this
    {
      Tables(runId, row, log, attempts, workers, lease, receipts, artifacts, checkpoint, clock)
    }

    ghost predicate Valid()
      reads this
    {
      Consistent(Snapshot())
    }

    constructor (runId: string)
      ensures Snapshot() == Empty(runId) && Valid()
    {
      this.runId := runId;
      row, log, attempts, workers, lease := None, [], [], {}, None;
      receipts, artifacts, checkpoint, clock := map[], map[], NOTHING_STORED, 0;
      new;
      EmptyConsistent(runId);
    }

    method ValidateFencingToken(event: Event) returns (ok: bool)
      ensures ok == Current(Snapshot(), event.worker, event.token)
    {
      if event.worker == "" || event.token == 0 || event.token > MAX_BIGINT {
        return false;
      }
      if lease.None? {
        return false;
      }
      var expired := lease.value.expiresAt <= clock;
      return !(expired || lease.value.worker != event.worker || lease.value.token != event.token);
    }

    /** Fencing of lease-sensitive events and managed Runs, and no legacy event in a managed Run. */
    method CheckExecutionMode(event: Event) returns (refusal: Option<StoreError>)
      ensures refusal == CheckMode(Snapshot(), event)
    {
      var managed := false;
      if event.kind != RunCreated && event.kind != DesiredStateChanged {
        managed := lease.Some?;
      }
      if LeaseSensitive(event) || managed {
        var fenced := ValidateFencingToken(event);
        if !fenced {
          return Some(StaleFencingToken);
        }
      }
      if managed && LegacyResult(event.kind) {
        return Some(ManagedRunLegacyEvent);
      }
      return None;
    }

    /** Reduces the candidate log and writes event, attempt and Run rows, or nothing. */
    method Store(event: Event) returns (r: AppendResult)
      modifies this
      ensures
        match Fold(old(log) + [event])
        case Ok(state) => r == Appended(event) && Snapshot() == Commit(old(Snapshot()), event, state)
        case Err(error) => r == Refused(Rejected(error)) && Snapshot() == old(Snapshot())
    {
      hide Fold, RowOf;
      var state := Reduce(log + [event]);
      if state.Err? {
        return Refused(Rejected(state.error));
      }
      log := log + [event];
      if event.kind == AttemptStarted
         || (event.kind == ActionCompleted && event.data.actionType == StartAttempt && state.value.run.currentAttempt > 0) {
        attempts := attempts + [AttemptRow(event.data.attemptId, state.value.run.currentAttempt)];
      }
      row := Some(RowOf(state.value));
      return Appended(event);
    }

    method Append(expected: nat, request: Event) returns (r: AppendResult)
      requires Valid() && request.runId == runId
      modifies this
      ensures Valid()
      ensures r == AppendAnswer(old(Snapshot()), expected, request)
      ensures Snapshot() == AfterAppend(old(Snapshot()), expected, request)
    {
      hide Fold, CheckReceipt, FindKey, Consistent, CheckMode, HasCredential, Commit;
      ghost var before := Snapshot();
      AppendKeeps(before, expected, request);
      if expected > MAX_BIGINT || !WellFormed(request) {
        return Refused(InvalidAppend);
      }
      if HasCredential(request.data) {
        return Refused(SensitivePayload);
      }
      var event := Normalized(request);
      // The inserted Run row is rolled back unless the append commits.
      var current := row;
      if event.kind == RunCreated && current.None? {
        current := Some(RunRow(event.data.scenarioId, event.data.specHash, DesiredRunning, Queued, 0, 0));
      }
      var refusal := CheckExecutionMode(event);
      ModeNormal(before, request);
      if refusal.Some? {
        return Refused(refusal.value);
      }
      if current.None? {
        return Refused(RunNotFound);
      }
      var existing := FindKey(log, event.key);
      if existing.Some? {
        if !SameEvent(existing.value, event) {
          return Refused(IdempotencyConflict);
        }
        return Replayed(existing.value);
      }
      if current.value.version != expected {
        return Refused(VersionConflict(current.value.version));
      }
      if event.kind == ActionCompleted {
        var mismatch := CheckReceipt(Snapshot(), event.data);
        if mismatch.Some? {
          return Refused(mismatch.value);
        }
      }
      event := event.(seqNo := expected + 1, createdAt := TimeText(clock));
      r := Store(event);
    }

    /** Whatever the checkpoint columns hold, a Run reads as the projection of its log. */
    method Rebuild() returns (r: Result<State, StoreError>)
      requires Valid()
      ensures log == [] ==> r == Failure(RunNotFound)
      ensures log != [] ==> ValidLog(log) && r == Success(Final(log))
    {
      hide Fold, FencingRules, ModeRules, EvidenceRules, NothingSplit, HidesRepetition;
      if row.None? {
        return Failure(RunNotFound);
      }
      forall i, j | 0 <= i < j < |log|
        ensures log[i].key != log[j].key
      {
        KeysDistinct(log, i, j);
      }
      UniqueKeysHideNothing(checkpoint, runId, log);
      var state := Checkpoints.Rebuild(checkpoint, runId, log);
      return Success(state.value);
    }

    method SaveCheckpoint(expected: nat) returns (refusal: Option<StoreError>)
      requires Valid()
      modifies this
      ensures Valid()
      ensures refusal == SaveRefusal(old(Snapshot()), expected)
      ensures Snapshot() == AfterSaveCheckpoint(old(Snapshot()), expected)
    {
      hide Fold, Consistent, RowOf;
      ghost var before := Snapshot();
      OthersKeep(before, AfterSaveCheckpoint(before, expected));
      if expected == 0 || expected > MAX_BIGINT {
        return Some(InvalidAppend);
      }
      if row.None? {
        return Some(RunNotFound);
      }
      if row.value.version != expected {
        return Some(VersionConflict(row.value.version));
      }
      var state := Reduce(log);
      if state.Err? {
        return Some(Rejected(state.error));
      }
      if state.value.run.version != expected {
        return Some(VersionConflict(state.value.run.version));
      }
      checkpoint := Stored(Some(expected), Some(state.value), Some(StateDigest(state.value)), Some(LogDigest(log)));
      return None;
    }

    method Acquire(worker: string, ttl: int) returns (r: Result<Lease, LeaseError>)
      requires Valid()
      modifies this
      ensures Valid()
      ensures r == AcquireAnswer(old(Snapshot()), worker, ttl)
      ensures Snapshot() == AfterAcquire(old(Snapshot()), worker, ttl)
    {
      hide Fold, Consistent, UnresolvedLegacyAction;
      DoKeeps(Snapshot(), Op.Acquire(worker, ttl));
      if worker == "" || ttl <= 0 {
        return Failure(InvalidLease);
      }
      if worker !in workers {
        return Failure(WorkerNotFound);
      }
      if row.None? {
        return Failure(UnknownRun);
      }
      if lease.None? {
        var pending := UnresolvedLegacyAction(log);
        if pending.Some? {
          return Failure(LegacyExecutionInProgress);
        }
        lease := Some(Lease(worker, 1, clock + ttl));
        return Success(lease.value);
      }
      if lease.value.expiresAt > clock {
        if lease.value.worker == worker {
          return Success(lease.value);
        }
        return Failure(LeaseHeld);
      }
      if lease.value.token >= MAX_BIGINT {
        return Failure(InvalidLease);
      }
      lease := Some(Lease(worker, lease.value.token + 1, clock + ttl));
      return Success(lease.value);
    }

    method Validate(auth: Authority) returns (refusal: Option<LeaseError>)
      ensures refusal == CheckAuthority(Snapshot(), auth)
    {
      if auth.worker == "" || auth.token == 0 || auth.token > MAX_BIGINT {
        return Some(InvalidLease);
      }
      if lease.None? {
        return Some(LeaseNotFound);
      }
      var expired := lease.value.expiresAt <= clock;
      if lease.value.worker != auth.worker || lease.value.token != auth.token || expired {
        if expired && lease.value.worker == auth.worker && lease.value.token == auth.token {
          return Some(LeaseExpiredError);
        }
        return Some(StaleLease);
      }
      return None;
    }

    method Renew(auth: Authority, ttl: int) returns (refusal: Option<LeaseError>)
      requires Valid()
      modifies this
      ensures Valid()
      ensures Snapshot() == AfterRenew(old(Snapshot()), auth, ttl)
      ensures refusal == if ttl <= 0 then Some(InvalidLease) else CheckAuthority(old(Snapshot()), auth)
    {
      hide Consistent;
      RenewEffect(Snapshot(), auth, ttl);
      if ttl <= 0 {
        return Some(InvalidLease);
      }
      refusal := Validate(auth);
      if refusal.None? {
        lease := Some(lease.value.(expiresAt := clock + ttl));
      }
    }

    method RecordReceipt(auth: Authority, presented: Receipt) returns (r: ReceiptAnswer)
      requires Valid()
      modifies this
      ensures Valid()
      ensures r == ReceiptOutcome(old(Snapshot()), auth, presented)
      ensures Snapshot() == AfterReceipt(old(Snapshot()), auth, presented)
    {
      hide Consistent, ReceiptPlan, ValidateEvidence;
      ReceiptKeeps(Snapshot(), auth, presented);
      var receipt := presented;
      if !Presentable(auth) || receipt.actionId == "" || receipt.kind == NoCommand
         || !receipt.scope.Valid() || receipt.cost < 0 {
        return ReceiptRefused(InvalidLease);
      }
      if HasCredential(receipt.output) {
        return ReceiptRefused(SensitiveOutput);
      }
      if receipt.id == "" {
        receipt := receipt.(id := runId + ":" + receipt.actionId);
      }
      var refusal := Validate(auth);
      if refusal.Some? {
        return ReceiptRefused(refusal.value);
      }
      if receipt.actionId in receipts {
        var existing := receipts[receipt.actionId];
        if !SameReceipt(existing, receipt) {
          return ReceiptRefused(ReceiptConflict);
        }
        return ReceiptReplayed(existing);
      }
      var planned := ReceiptPlan(log, receipt.actionId, receipt.kind, receipt.scope);
      if planned.None? {
        return ReceiptRefused(ReceiptWithoutPlan);
      }
      var evidence := ValidateEvidence(receipt.kind, receipt.actionId, planned.value, receipt.output,
                                       receipt.outputDigest, receipt.artifactId, receipt.artifactDigest);
      if evidence.Fail? {
        return ReceiptRefused(InvalidEvidence);
      }
      if !Insertable(Snapshot(), receipt) {
        return ReceiptRefused(ConstraintViolation);
      }
      receipt := receipt.(worker := auth.worker, token := auth.token);
      receipts := receipts[receipt.actionId := receipt];
      return ReceiptRecorded(receipt);
    }

    /** Transactions of others, committed between two of ours. */
    method Adopt(after: Tables)
      requires after.runId == runId && Consistent(after)
      modifies this
      ensures Valid() && Snapshot() == after
    {
      hide Consistent;
      row, log, attempts, workers, lease := after.row, after.log, after.attempts, after.workers, after.lease;
      receipts, artifacts, checkpoint, clock := after.receipts, after.artifacts, after.checkpoint, after.clock;
    }

    /** An artifact row is written once; an identical retry is answered, a different one refused. */
    method WriteArtifact(artifactId: string, artifact: Artifact) returns (ok: bool)
      requires Valid()
      modifies this
      ensures Valid()
      ensures Snapshot() == AfterArtifact(old(Snapshot()), artifactId, artifact)
      ensures ok <==> !ArtifactConflict(old(Snapshot()), artifactId, artifact)
      ensures ok ==> artifactId in artifacts && artifacts[artifactId].(intact := artifact.intact) == artifact
    {
      hide Consistent;
      OthersKeep(Snapshot(), AfterArtifact(Snapshot(), artifactId, artifact));
      if artifactId !in artifacts {
        artifacts := artifacts[artifactId := artifact];
        return true;
      }
      var existing := artifacts[artifactId];
      if existing.runId != artifact.runId || existing.attemptId != artifact.attemptId
         || existing.kind != artifact.kind || existing.digest != artifact.digest {
        return false;
      }
      return true;
    }
  }

  lemma ModeNormal(db: Tables, e: Event)
    ensures CheckMode(db, Normalized(e)) == CheckMode(db, e)
  {
  }

  lemma VersionIsLength(db: Tables)
    requires Consistent(db)
    ensures ValidLog(db.log) && Version(db) == |db.log| && (db.row.None? <==> db.log == [])
    ensures db.log != [] ==> Final(db.log).run.version == |db.log|
  {
    hide Fold, FencingRules, ModeRules, EvidenceRules, NothingSplit, Reachable;
    ProjectionReachable(db.log);
  }

  /** A consistent store takes a snapshot exactly at its length; reduction never stands in the way. */
  lemma SavesAtItsLength(db: Tables, expected: nat)
    requires Consistent(db)
    ensures SaveRefusal(db, expected).None? <==> 0 < expected <= MAX_BIGINT && |db.log| == expected
  {
    hide Fold, Consistent;
    VersionIsLength(db);
  }
}
