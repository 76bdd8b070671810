/**
  The PostgreSQL rows one Run owns, and its transactions as atomic steps on them:
  the event store (internal/store/postgres.go) and the lease and receipt manager
  (internal/lease/postgres.go). Database time is a number that never goes back.
*/
module Database {
  import opened Wrappers
  import opened Types
  import opened Reducer
  import opened Projection
  import opened Evidence
  import opened EventStore
  import opened Scans
  import opened ReceiptScan
  import opened Checkpoints

  /** 2^63 - 1: the largest bigint, hence the largest version and fencing token. */
  const MAX_BIGINT := 0x7fff_ffff_ffff_ffff

  const ARTIFACT_TYPE := "phase-3-action-receipt"

  /** RFC 3339 text of a database time. */
  const TimeText: nat -> Text

  datatype Lease = Lease(worker: string, token: nat, expiresAt: int)

  /** A lease as presented by a worker. */
  datatype Authority = Authority(worker: string, token: nat)

  datatype Receipt = Receipt(
    id: string, actionId: string, kind: CommandType, scope: IdempotencyScope,
    output: EventData, outputDigest: string, artifactId: string, artifactDigest: string, cost: int,
    worker: string, token: nat)

  datatype Artifact = Artifact(runId: string, attemptId: string, kind: string, digest: string, intact: bool)

  datatype AttemptRow = AttemptRow(id: string, number: nat)

  datatype RunRow = RunRow(
    scenarioId: string, specHash: string, desired: DesiredState, observed: Status,
    currentAttempt: nat, version: nat)

  datatype Tables = Tables(
    runId: string, row: Option<RunRow>, log: seq<Event>, attempts: seq<AttemptRow>,
    workers: set<string>, lease: Option<Lease>,
    receipts: map<string, Receipt>, artifacts: map<string, Artifact>,
    checkpoint: Stored, clock: nat)

  function Empty(runId: string): Tables {
    Tables(runId, None, [], [], {}, None, map[], map[], NOTHING_STORED, 0)
  }

  datatype LeaseError =
    | InvalidLease | WorkerNotFound | WorkerRegistered | UnknownRun | LeaseNotFound | LeaseHeld
    | LegacyExecutionInProgress | LeaseExpiredError | StaleLease
    | ReceiptConflict | ReceiptWithoutPlan | SensitiveOutput | InvalidEvidence | ConstraintViolation

  // ----- event store -----

  predicate LeaseSensitive(e: Event) {
    || e.kind.LeaseFact() || e.kind == ActionPlanned || e.kind == ActionCompleted || e.kind == ActionFailed
    || e.worker != "" || e.token != 0
  }

  /** Operator intent and creation select no execution mode. */
  predicate ModeFree(kind: EventType) {
    kind == RunCreated || kind == DesiredStateChanged
  }

  predicate Current(db: Tables, worker: string, token: nat) {
    && worker != "" && 0 < token <= MAX_BIGINT
    && db.lease.Some? && db.lease.value.worker == worker && db.lease.value.token == token
    && db.lease.value.expiresAt > db.clock
  }

  /** ORDER BY seq DESC LIMIT 1: the attempt of the latest plan of an action. */
  function PlannedAttempt(log: seq<Event>, n: nat, actionId: string, kind: CommandType): Option<string>
    requires n <= |log|
  {
    if n == 0 then None
    else
      var e := log[n - 1];
      if e.kind == ActionPlanned && e.data.actionId == actionId && e.data.actionType == kind then Some(e.data.attemptId)
      else PlannedAttempt(log, n - 1, actionId, kind)
  }

  function CompletionOf(r: Receipt): EventData {
    CompletionData(r.output, r.actionId, r.kind, r.scope, r.id, r.outputDigest, r.artifactId, r.artifactDigest)
  }

  predicate ArtifactMatches(db: Tables, artifactId: string, attemptId: string, digest: string) {
    && artifactId in db.artifacts
    && db.artifacts[artifactId].runId == db.runId
    && db.artifacts[artifactId].attemptId == attemptId
    && db.artifacts[artifactId].kind == ARTIFACT_TYPE
    && db.artifacts[artifactId].digest == digest
  }

  /** validateActionReceipt: the durable receipt a completion has to repeat. */
  function CheckReceipt(db: Tables, d: EventData): Option<StoreError> {
    if d.receiptId == "" || d.actionId == "" || d.actionId !in db.receipts then Some(MissingActionReceipt)
    else
      var r := db.receipts[d.actionId];
      var planned := PlannedAttempt(db.log, |db.log|, d.actionId, d.actionType);
      if r.id != d.receiptId || r.kind != d.actionType then Some(MissingActionReceipt)
      else if planned.None? then Some(ActionReceiptMismatch)
      else if ValidateEvidence(d.actionType, d.actionId, planned.value, r.output, r.outputDigest,
                               r.artifactId, r.artifactDigest).Fail? then Some(ActionReceiptMismatch)
      else if r.artifactId != "" && !ArtifactMatches(db, r.artifactId, planned.value, r.artifactDigest) then
        Some(ActionReceiptMismatch)
      else if r.artifactId != "" && !db.artifacts[r.artifactId].intact then Some(ArtifactIntegrity)
      else if CompletionOf(r.(actionId := d.actionId)) != d then Some(ActionReceiptMismatch)
      else None
  }

  /** Fencing and mode, decided before the Run row is read. */
  function CheckMode(db: Tables, e: Event): Option<StoreError> {
    var managed := !ModeFree(e.kind) && db.lease.Some?;
    if (LeaseSensitive(e) || managed) && !Current(db, e.worker, e.token) then Some(StaleFencingToken)
    else if managed && LegacyResult(e.kind) then Some(ManagedRunLegacyEvent)
    else None
  }

  function Version(db: Tables): nat {
    if db.row.Some? then db.row.value.version else 0
  }

  /** The event as it would be stored. */
  function Numbered(db: Tables, expected: nat, e: Event): Event {
    Normalized(e).(seqNo := expected + 1, createdAt := TimeText(db.clock))
  }

  function AppendAnswer(db: Tables, expected: nat, e: Event): AppendResult
    requires e.runId == db.runId
  {
    if expected > MAX_BIGINT || !WellFormed(e) then Refused(InvalidAppend)
    else if HasCredential(e.data) then Refused(SensitivePayload)
    else if CheckMode(db, e).Some? then Refused(CheckMode(db, e).value)
    else if db.row.None? && e.kind != RunCreated then Refused(RunNotFound)
    else if FindKey(db.log, e.key).Some? then
      if SameEvent(FindKey(db.log, e.key).value, e) then Replayed(FindKey(db.log, e.key).value)
      else Refused(IdempotencyConflict)
    else if Version(db) != expected then Refused(VersionConflict(Version(db)))
    else if e.kind == ActionCompleted && CheckReceipt(db, e.data).Some? then Refused(CheckReceipt(db, e.data).value)
    else
      match Fold(db.log + [Numbered(db, expected, e)])
      case Ok(_) => Appended(Numbered(db, expected, e))
      case Err(error) => Refused(Rejected(error))
  }

  function RowOf(s: State): RunRow {
    RunRow(s.run.scenarioId, s.run.specHash, s.run.desired, s.run.observed, s.run.currentAttempt, s.run.version)
  }

  /** The rows an accepted event adds, given the projection it leads to. */
  function Commit(db: Tables, e: Event, s: State): Tables {
    db.(log := db.log + [e],
        row := Some(RowOf(s)),
        attempts := if e.kind == AttemptStarted
                       || (e.kind == ActionCompleted && e.data.actionType == StartAttempt && s.run.currentAttempt > 0)
                    then db.attempts + [AttemptRow(e.data.attemptId, s.run.currentAttempt)]
                    else db.attempts)
  }

  function AfterAppend(db: Tables, expected: nat, e: Event): Tables
    requires e.runId == db.runId
  {
    match AppendAnswer(db, expected, e)
    case Appended(stored) => Commit(db, stored, Fold(db.log + [stored]).value)
    case _ => db
  }

  /** Why SaveCheckpoint refuses, if it does. */
  function SaveRefusal(db: Tables, expected: nat): Option<StoreError> {
    if expected == 0 || expected > MAX_BIGINT then Some(InvalidAppend)
    else if db.row.None? then Some(RunNotFound)
    else if Version(db) != expected then Some(VersionConflict(Version(db)))
    else
      match Fold(db.log)
      case Err(error) => Some(Rejected(error))
      case Ok(s) => if s.run.version != expected then Some(VersionConflict(s.run.version)) else None
  }

  function AfterSaveCheckpoint(db: Tables, expected: nat): Tables {
    if SaveRefusal(db, expected).Some? then db
    else
      var s := Fold(db.log).value;
      db.(checkpoint := Stored(Some(expected), Some(s), Some(StateDigest(s)), Some(LogDigest(db.log))))
  }

  // ----- lease manager -----

  function AcquireAnswer(db: Tables, worker: string, ttl: int): Result<Lease, LeaseError> {
    if worker == "" || ttl <= 0 then Failure(InvalidLease)
    else if worker !in db.workers then Failure(WorkerNotFound)
    else if db.row.None? then Failure(UnknownRun)
    else
      match db.lease
      case None =>
        if UnresolvedLegacyAction(db.log).Some? then Failure(LegacyExecutionInProgress)
        else Success(Lease(worker, 1, db.clock + ttl))
      case Some(lease) =>
        if lease.expiresAt > db.clock then
          if lease.worker == worker then Success(lease) else Failure(LeaseHeld)
        else if lease.token >= MAX_BIGINT then Failure(InvalidLease)
        else Success(Lease(worker, lease.token + 1, db.clock + ttl))
  }

  function AfterAcquire(db: Tables, worker: string, ttl: int): Tables {
    match AcquireAnswer(db, worker, ttl)
    case Success(lease) => db.(lease := Some(lease))
    case Failure(_) => db
  }

  predicate Presentable(auth: Authority) {
    auth.worker != "" && 0 < auth.token <= MAX_BIGINT
  }

  /** leaseAuthorityError: an expired lease is only called expired if it is otherwise the current one. */
  function CheckAuthority(db: Tables, auth: Authority): Option<LeaseError> {
    if !Presentable(auth) then Some(InvalidLease)
    else if db.lease.None? then Some(LeaseNotFound)
    else if Current(db, auth.worker, auth.token) then None
    else if db.lease.value.worker == auth.worker && db.lease.value.token == auth.token then Some(LeaseExpiredError)
    else Some(StaleLease)
  }

  function AfterRenew(db: Tables, auth: Authority, ttl: int): Tables {
    if CheckAuthority(db, auth).None? && ttl > 0 then db.(lease := Some(Lease(auth.worker, auth.token, db.clock + ttl)))
    else db
  }

  datatype ReceiptAnswer = ReceiptRecorded(receipt: Receipt) | ReceiptReplayed(receipt: Receipt) | ReceiptRefused(error: LeaseError)

  predicate SameReceipt(existing: Receipt, replay: Receipt) {
    existing == replay.(worker := existing.worker, token := existing.token)
  }

  function Identified(db: Tables, r: Receipt): Receipt {
    if r.id == "" then r.(id := db.runId + ":" + r.actionId) else r
  }

  /** Primary key on receipt id, and the foreign key of an artifact. */
  predicate Insertable(db: Tables, r: Receipt) {
    && (forall actionId :: actionId in db.receipts ==> db.receipts[actionId].id != r.id)
    && (r.artifactId != "" ==> r.artifactId in db.artifacts)
  }

  function ReceiptOutcome(db: Tables, auth: Authority, receipt: Receipt): ReceiptAnswer {
    var r := Identified(db, receipt);
    if !Presentable(auth) || r.actionId == "" || r.kind == NoCommand || !r.scope.Valid() || r.cost < 0 then
      ReceiptRefused(InvalidLease)
    else if HasCredential(r.output) then ReceiptRefused(SensitiveOutput)
    else if CheckAuthority(db, auth).Some? then ReceiptRefused(CheckAuthority(db, auth).value)
    else if r.actionId in db.receipts then
      if SameReceipt(db.receipts[r.actionId], r) then ReceiptReplayed(db.receipts[r.actionId])
      else ReceiptRefused(ReceiptConflict)
    else
      var planned := ReceiptPlan(db.log, r.actionId, r.kind, r.scope);
      if planned.None? then ReceiptRefused(ReceiptWithoutPlan)
      else if ValidateEvidence(r.kind, r.actionId, planned.value, r.output, r.outputDigest,
                               r.artifactId, r.artifactDigest).Fail? then ReceiptRefused(InvalidEvidence)
      else if !Insertable(db, r) then ReceiptRefused(ConstraintViolation)
      else ReceiptRecorded(r.(worker := auth.worker, token := auth.token))
  }

  function AfterReceipt(db: Tables, auth: Authority, receipt: Receipt): Tables {
    match ReceiptOutcome(db, auth, receipt)
    case ReceiptRecorded(r) => db.(receipts := db.receipts[r.actionId := r])
    case _ => db
  }

  /** A different artifact is registered under this id; the bytes on disk are not compared. */
  predicate ArtifactConflict(db: Tables, artifactId: string, artifact: Artifact) {
    artifactId in db.artifacts && db.artifacts[artifactId].(intact := artifact.intact) != artifact
  }

  /** ON CONFLICT DO NOTHING. */
  function AfterArtifact(db: Tables, artifactId: string, artifact: Artifact): Tables {
    if artifactId in db.artifacts then db else db.(artifacts := db.artifacts[artifactId := artifact])
  }

  // ----- every transaction -----

  datatype Op =
    | Append(expected: nat, event: Event)
    | Register(worker: string)
    | Acquire(worker: string, ttl: int)
    | Renew(auth: Authority, ttl: int)
    | RecordReceipt(auth: Authority, receipt: Receipt)
    | WriteArtifact(artifactId: string, artifact: Artifact)
    | DamageArtifact(artifactId: string)
    | SaveCheckpoint(expected: nat)
    | ForgeCheckpoint(content: Stored)
    | Tick(elapsed: nat)

  function Do(db: Tables, op: Op): Tables {
    match op
    case Append(expected, event) => if event.runId == db.runId then AfterAppend(db, expected, event) else db
    case Register(worker) => if worker == "" then db else db.(workers := db.workers + {worker})
    case Acquire(worker, ttl) => AfterAcquire(db, worker, ttl)
    case Renew(auth, ttl) => AfterRenew(db, auth, ttl)
    case RecordReceipt(auth, receipt) => AfterReceipt(db, auth, receipt)
    case WriteArtifact(artifactId, artifact) => AfterArtifact(db, artifactId, artifact)
    case DamageArtifact(artifactId) =>
      if artifactId in db.artifacts then
        db.(artifacts := db.artifacts[artifactId := db.artifacts[artifactId].(intact := false)])
      else db
    case SaveCheckpoint(expected) => AfterSaveCheckpoint(db, expected)
    case ForgeCheckpoint(content) => db.(checkpoint := content)
    case Tick(elapsed) => db.(clock := db.clock + elapsed)
  }

  /** The tables after any history of transactions, in any order, by any callers. */
  function After(runId: string, history: seq<Op>): Tables {
    if history == [] then Empty(runId)
    else Do(After(runId, history[..|history| - 1]), history[|history| - 1])
  }
}
