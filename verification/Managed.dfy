/**
  The leased reconcile protocol (internal/controller/managed.go) as a machine.
  Every database transaction and every executor call of ReconcileLeased is one
  step of a process; processes, operators, crashes and takeovers interleave
  freely. A process is named by its fencing token: one reconciler per lease.
*/
module Managed {
  import opened Wrappers
  import opened Types
  import opened Decider
  import opened Reducer
  import opened Projection
  import opened Evidence
  import opened EventStore
  import opened Database

  /** The idempotency scope the safety policy gives a command. */
  const Safety: Command -> IdempotencyScope

  /** Where a reconciler stands, and what it holds in memory. */
  datatype Phase =
    | Idle
    | Validated
    | Loaded(state: State)
    | Replanned(command: Command)
    | Planned(command: Command, version: nat)
    | Ready(state: State, command: Command, version: nat)
    | Executed(state: State, command: Command, version: nat, receipt: Receipt)
    | Evident(state: State, command: Command, version: nat, receipt: Receipt)
    | Finishing(event: Event, version: nat, retried: bool)
    | Conflicted(event: Event)

  datatype Process = Process(worker: string, phase: Phase)

  datatype Action = Action(kind: CommandType, id: string)

  function ActionOf(c: Command): Action {
    Action(c.kind, c.actionId)
  }

  /** What became of every execution: counts per action. */
  datatype Tally = Tally(
    executed: multiset<Action>, broken: multiset<Action>, crashed: multiset<Action>,
    fencedOut: multiset<Action>, rejected: multiset<Action>)

  datatype Machine = Machine(db: Tables, procs: map<nat, Process>, tally: Tally)

  /** What an executor call yields: a receipt and perhaps an artifact, or an error. */
  datatype Execution =
    | Done(receipt: Receipt, artifact: Option<Artifact>)
    | Broken(reason: string)

  const CANCELLED := "cancel intent superseded the pending action"
  const UNVERIFIED := "durable action receipt evidence cannot be verified"
  const CONFLICTING := "write action Artifact: idempotency conflict"
  const AMBIGUOUS := "action outcome is ambiguous and no durable receipt proves completion"

  // ----- events -----

  function Signed(runId: string, worker: string, token: nat, kind: EventType, data: EventData, key: string): Event {
    Event(runId, 0, kind, 0, data, key, "", runId, worker, token, "")
  }

  function PlannedEvent(runId: string, worker: string, token: nat, c: Command): Event {
    Signed(runId, worker, token, ActionPlanned, PlanData(c, Safety(c)), c.actionId + ":action-planned")
  }

  function CompletedEvent(runId: string, worker: string, token: nat, r: Receipt): Event {
    Signed(runId, worker, token, ActionCompleted, CompletionOf(r), r.actionId + ":action-completed")
  }

  function OutcomeText(outcome: ActionOutcome): string {
    if outcome == OutcomeFailed then "failed" else "ambiguous"
  }

  function FailedEvent(runId: string, worker: string, token: nat, c: Command, reason: string, outcome: ActionOutcome): Event {
    Signed(runId, worker, token, ActionFailed,
           NO_DATA.(actionId := c.actionId, actionType := c.kind, reason := reason, outcome := outcome),
           c.actionId + ":action-failed:" + OutcomeText(outcome))
  }

  /** The command recovery rebuilds from the projection. */
  function PendingCommand(s: State): Command {
    Command(s.pendingType, s.run.id, s.pendingId, s.pendingAttempt)
  }

  /** validateReceiptEvidence. */
  predicate EvidenceHolds(db: Tables, s: State, r: Receipt) {
    && ValidateEvidence(r.kind, r.actionId, s.pendingAttempt, r.output, r.outputDigest, r.artifactId, r.artifactDigest).Pass?
    && ValidateActionCompletion(s, CompletionOf(r)).Pass?
    && (r.artifactId != "" ==>
          ArtifactMatches(db, r.artifactId, s.pendingAttempt, r.artifactDigest) && db.artifacts[r.artifactId].intact)
  }

  // ----- one step of a process -----

  /** What one step yields for a process: the database, its next phase, and the fate of an execution. */
  datatype Effect = Effect(db: Tables, phase: Phase, tally: Tally)

  function Load(db: Tables): Option<State> {
    if db.row.None? || Fold(db.log).Err? then None else Some(Fold(db.log).value)
  }

  function Plan(m: Machine, worker: string, token: nat, s: State): Effect {
    var c := Decide(s);
    if c.kind == Noop || !Safety(c).Valid() then Effect(m.db, Idle, m.tally)
    else
      var e := PlannedEvent(m.db.runId, worker, token, c);
      var db := AfterAppend(m.db, s.run.version, e);
      match AppendAnswer(m.db, s.run.version, e)
      case Appended(stored) => Effect(db, Planned(c, stored.seqNo), m.tally)
      case Replayed(_) => Effect(db, Replanned(c), m.tally)
      case Refused(_) => Effect(db, Idle, m.tally)
  }

  function Recover(db: Tables, worker: string, token: nat, s: State): Phase {
    var c := PendingCommand(s);
    if s.run.desired == DesiredPaused || s.run.observed == Paused then Idle
    else if s.run.desired == DesiredCancelled then
      Finishing(FailedEvent(db.runId, worker, token, c, CANCELLED, OutcomeFailed), s.run.version, false)
    else if s.pendingId in db.receipts then Evident(s, c, s.run.version, db.receipts[s.pendingId])
    else if s.pendingScope != ScopedIdempotent then
      Finishing(FailedEvent(db.runId, worker, token, c, AMBIGUOUS, OutcomeAmbiguous), s.run.version, false)
    else Ready(s, c, s.run.version)
  }

  /** The receipt as executeManagedAction addresses it before recording. */
  function Addressed(r: Receipt, s: State, c: Command): Receipt {
    r.(actionId := c.actionId, kind := c.kind, scope := s.pendingScope)
  }

  /** An executor whose artifact conflicts with the registered one fails. */
  function Settled(db: Tables, c: Command, x: Execution): Execution {
    if x.Done? && x.artifact.Some? && ArtifactConflict(db, ArtifactIdFor(c.actionId), x.artifact.value) then Broken(CONFLICTING)
    else x
  }

  function Execute(m: Machine, worker: string, token: nat, s: State, c: Command, version: nat, x: Execution): Effect {
    var ran := m.tally.(executed := m.tally.executed + multiset{ActionOf(c)});
    match Settled(m.db, c, x)
    case Done(receipt, artifact) =>
      var db := if artifact.None? then m.db else AfterArtifact(m.db, ArtifactIdFor(c.actionId), artifact.value);
      Effect(db, Executed(s, c, version, Addressed(receipt, s, c)), ran)
    case Broken(reason) =>
      Effect(m.db, Finishing(FailedEvent(m.db.runId, worker, token, c, reason, OutcomeFailed), version, false),
            ran.(broken := ran.broken + multiset{ActionOf(c)}))
  }

  function Record(m: Machine, worker: string, token: nat, s: State, c: Command, version: nat, r: Receipt): Effect {
    var auth := Authority(worker, token);
    var db := AfterReceipt(m.db, auth, r);
    match ReceiptOutcome(m.db, auth, r)
    case ReceiptRecorded(kept) => Effect(db, Evident(s, c, version, kept), m.tally)
    case ReceiptReplayed(kept) =>
      Effect(db, Evident(s, c, version, kept), m.tally.(rejected := m.tally.rejected + multiset{ActionOf(c)}))
    case ReceiptRefused(_) =>
      Effect(db, Idle,
            if CheckAuthority(m.db, auth).Some? then m.tally.(fencedOut := m.tally.fencedOut + multiset{ActionOf(c)})
            else m.tally.(rejected := m.tally.rejected + multiset{ActionOf(c)}))
  }

  function Finish(m: Machine, e: Event, version: nat, retried: bool): Effect
    requires e.runId == m.db.runId
  {
    var db := AfterAppend(m.db, version, e);
    match AppendAnswer(m.db, version, e)
    case Refused(VersionConflict(_)) => Effect(db, if retried then Idle else Conflicted(e), m.tally)
    case _ => Effect(db, Idle, m.tally)
  }

  function Stay(m: Machine, phase: Phase): Effect {
    Effect(m.db, phase, m.tally)
  }

  /** The next transaction or executor call of the process holding `token`. */
  function WorkStep(m: Machine, worker: string, token: nat, phase: Phase, x: Execution): Effect {
    match phase
    case Idle => Stay(m, if CheckAuthority(m.db, Authority(worker, token)).None? then Validated else Idle)
    case Validated => Stay(m, if Load(m.db).Some? then Loaded(Load(m.db).value) else Idle)
    case Loaded(s) => if s.pendingId == "" then Plan(m, worker, token, s) else Stay(m, Recover(m.db, worker, token, s))
    case Replanned(c) => Stay(m, if Load(m.db).Some? then Planned(c, Load(m.db).value.run.version) else Idle)
    case Planned(c, version) => Stay(m, if Load(m.db).Some? then Ready(Load(m.db).value, c, version) else Idle)
    case Ready(s, c, version) => Execute(m, worker, token, s, c, version, x)
    case Executed(s, c, version, r) => Record(m, worker, token, s, c, version, r)
    case Evident(s, c, version, r) =>
      Stay(m, Finishing(if EvidenceHolds(m.db, s, r) then CompletedEvent(m.db.runId, worker, token, r)
                        else FailedEvent(m.db.runId, worker, token, c, UNVERIFIED, OutcomeAmbiguous), version, false))
    case Finishing(e, version, retried) => if e.runId == m.db.runId then Finish(m, e, version, retried) else Stay(m, Idle)
    case Conflicted(e) => Stay(m, if Load(m.db).Some? then Finishing(e, Load(m.db).value.run.version, true) else Idle)
  }

  // ----- the machine -----

  datatype Move =
    | Environment(op: Op)
    | AcquireLease(worker: string, ttl: int)
    | Crash(token: nat)
    | Work(token: nat, execution: Execution)

  /**
    Everything but processes: operators, legacy controllers, workers renewing and
    writing lease facts, artifact files, checkpoints and the clock. Action events and
    receipts belong to processes.
  */
  predicate Outside(op: Op) {
    match op
    case Append(_, event) => event.kind != ActionPlanned && event.kind != ActionCompleted && event.kind != ActionFailed
    case RecordReceipt(_, _) => false
    case Acquire(_, _) => false
    case _ => true
  }

  function Crashed(m: Machine, token: nat): Machine
    requires token in m.procs
  {
    var p := m.procs[token];
    Machine(m.db, m.procs[token := p.(phase := Idle)],
            if p.phase.Executed? then
              m.tally.(crashed := m.tally.crashed + multiset{ActionOf(p.phase.command)})
            else m.tally)
  }

  function Acquired(m: Machine, worker: string, ttl: int): Machine {
    var db := AfterAcquire(m.db, worker, ttl);
    match AcquireAnswer(m.db, worker, ttl)
    case Success(lease) =>
      Machine(db, if lease.token in m.procs then m.procs else m.procs[lease.token := Process(worker, Idle)], m.tally)
    case Failure(_) => m.(db := db)
  }

  function Worked(m: Machine, token: nat, x: Execution): Machine
    requires token in m.procs
  {
    var p := m.procs[token];
    var moved := WorkStep(m, p.worker, token, p.phase, x);
    Machine(moved.db, m.procs[token := p.(phase := moved.phase)], moved.tally)
  }

  function Next(m: Machine, step: Move): Machine {
    match step
    case Environment(op) => if Outside(op) then m.(db := Do(m.db, op)) else m
    case AcquireLease(worker, ttl) => Acquired(m, worker, ttl)
    case Crash(token) => if token in m.procs then Crashed(m, token) else m
    case Work(token, x) => if token in m.procs then Worked(m, token, x) else m
  }

  /** A move that is not of the process holding `token`. */
  predicate Foreign(step: Move, token: nat) {
    match step
    case Crash(t) => t != token
    case Work(t, _) => t != token
    case _ => true
  }

  /** Nobody else moves a process. */
  lemma ForeignKeeps(m: Machine, step: Move, token: nat)
    requires Foreign(step, token) && token in m.procs
    ensures token in Next(m, step).procs && Next(m, step).procs[token] == m.procs[token]
  {
    hide WorkStep, Do, AfterAcquire, AcquireAnswer;
  }

  const NOTHING_RUN := Tally(multiset{}, multiset{}, multiset{}, multiset{}, multiset{})

  function Start(runId: string): Machine {
    Machine(Empty(runId), map[], NOTHING_RUN)
  }

  /** The machine after a schedule of steps. */
  function Reached(start: Machine, schedule: seq<Move>): Machine {
    if schedule == [] then start
    else Next(Reached(start, schedule[..|schedule| - 1]), schedule[|schedule| - 1])
  }
}
