/**
  ReconcileLeased as the source writes it: one call, statement after statement,
  against the database. Before every transaction of the call any finite run of
  other moves may happen: operators, other controllers, takeovers, other processes,
  crashes of others, time. A ghost schedule records all moves, so what every
  schedule keeps, every call keeps, whoever else is at work.
*/
module Reconcile {
  import opened Wrappers
  import opened Types
  import opened Decider
  import opened Reducer
  import opened Projection
  import opened Evidence
  import opened ReceiptScan
  import opened EventStore
  import opened Database
  import opened StoreInvariants
  import opened Postgres
  import opened Managed
  import opened StoreLaws
  import UnsafeOnce
  import Chain
  import Leader
  import CrashTransparency

  datatype Refusal = LeaseRefused(lease: LeaseError) | StoreRefused(store: StoreError) | BadScope

  lemma ReachedSnoc(start: Machine, schedule: seq<Move>, step: Move)
    ensures Reached(start, schedule + [step]) == Next(Reached(start, schedule), step)
  {
    hide Next;
    assert (schedule + [step])[..|schedule|] == schedule;
  }

  // ----- one pass of a process among the moves of others -----

  /** The call's own move k: idle only at the first, with the executor's own results. */
  ghost predicate OwnMove(start: Machine, token: nat, executor: (State, Command) -> Execution,
                          begun: nat, schedule: seq<Move>, k: nat)
    requires k < |schedule|
  {
    && schedule[k].Work? && schedule[k].token == token
    && var procs := Reached(start, schedule[..k]).procs;
    && token in procs
    && (procs[token].phase.Idle? <==> k == begun)
    && (procs[token].phase.Ready? ==> schedule[k].execution == executor(procs[token].phase.state, procs[token].phase.command))
  }

  /**
    The moves since `origin` that are this process's own make up one pass, begun at
    move `begun` (or not yet, at the end); every other move is someone else's.
  */
  ghost predicate OnePass(start: Machine, token: nat, executor: (State, Command) -> Execution,
                          origin: seq<Move>, begun: nat, schedule: seq<Move>)
  {
    && origin <= schedule && |origin| <= begun <= |schedule|
    && (begun < |schedule| ==> OwnMove(start, token, executor, begun, schedule, begun))
    && forall k :: |origin| <= k < |schedule| ==>
         Foreign(schedule[k], token) || (begun <= k && OwnMove(start, token, executor, begun, schedule, k))
  }

  lemma OwnMoveStays(start: Machine, token: nat, executor: (State, Command) -> Execution,
                     begun: nat, schedule: seq<Move>, step: Move, k: nat)
    requires k < |schedule| && OwnMove(start, token, executor, begun, schedule, k)
    ensures OwnMove(start, token, executor, begun, schedule + [step], k)
  {
    hide Next, Reached;
    assert (schedule + [step])[..k] == schedule[..k];
  }

  lemma PassGrows(start: Machine, token: nat, executor: (State, Command) -> Execution,
                  origin: seq<Move>, begun: nat, schedule: seq<Move>, x: Execution)
    requires OnePass(start, token, executor, origin, begun, schedule)
    requires
      var procs := Reached(start, schedule).procs;
      && token in procs && (procs[token].phase.Idle? <==> begun == |schedule|)
      && (procs[token].phase.Ready? ==> x == executor(procs[token].phase.state, procs[token].phase.command))
    ensures OnePass(start, token, executor, origin, begun, schedule + [Work(token, x)])
  {
    hide Next, Reached;
    var longer := schedule + [Work(token, x)];
    assert longer[..|schedule|] == schedule;
    assert OwnMove(start, token, executor, begun, longer, |schedule|);
    forall k | |origin| <= k < |schedule|
      ensures Foreign(longer[k], token) || (begun <= k && OwnMove(start, token, executor, begun, longer, k))
    {
      if !Foreign(schedule[k], token) {
        OwnMoveStays(start, token, executor, begun, schedule, Work(token, x), k);
      }
    }
    if begun < |schedule| {
      OwnMoveStays(start, token, executor, begun, schedule, Work(token, x), begun);
    }
  }

  /** Someone else's move: before the first own move it only shifts the beginning. */
  lemma PassDisturbed(start: Machine, token: nat, executor: (State, Command) -> Execution,
                      origin: seq<Move>, begun: nat, schedule: seq<Move>, step: Move)
    requires OnePass(start, token, executor, origin, begun, schedule) && Foreign(step, token)
    ensures OnePass(start, token, executor, origin, if begun == |schedule| then begun + 1 else begun, schedule + [step])
  {
    hide Next, Reached;
    var longer := schedule + [step];
    var later := if begun == |schedule| then begun + 1 else begun;
    forall k | |origin| <= k < |longer|
      ensures Foreign(longer[k], token) || (later <= k && OwnMove(start, token, executor, later, longer, k))
    {
      if k < |schedule| && !Foreign(schedule[k], token) {
        OwnMoveStays(start, token, executor, begun, schedule, step, k);
      }
    }
    if begun < |schedule| {
      OwnMoveStays(start, token, executor, begun, schedule, step, begun);
    }
  }

  lemma PassEmpty(start: Machine, token: nat, executor: (State, Command) -> Execution, schedule: seq<Move>)
    ensures OnePass(start, token, executor, schedule, |schedule|, schedule)
  {
  }

  lemma PassExtends(start: Machine, token: nat, executor: (State, Command) -> Execution,
                    origin: seq<Move>, begun: nat, schedule: seq<Move>)
    requires OnePass(start, token, executor, origin, begun, schedule)
    ensures origin <= schedule && |origin| <= begun <= |schedule|
  {
    hide OwnMove;
  }

  // ----- what a call leaves in the log -----

  /** The events a call lists are in the log where their numbers say, in order, after everything it found. */
  ghost predicate Listed(log: seq<Event>, base: seq<Event>, events: seq<Event>) {
    && base <= log
    && (forall i :: 0 <= i < |events| ==> |base| < events[i].seqNo <= |log| && log[events[i].seqNo - 1] == events[i])
    && (forall i, j :: 0 <= i < j < |events| ==> events[i].seqNo < events[j].seqNo)
  }

  lemma ListedGrows(log: seq<Event>, longer: seq<Event>, base: seq<Event>, events: seq<Event>)
    requires Listed(log, base, events) && log <= longer
    ensures Listed(longer, base, events)
  {
  }

  /** What an append leaves in the log. */
  lemma AppendEffect(db: Tables, expected: nat, e: Event)
    requires Consistent(db) && e.runId == db.runId
    ensures
      var r, after := AppendAnswer(db, expected, e), AfterAppend(db, expected, e);
      && after.log == db.log + (if r.Appended? then [r.event] else [])
      && (r.Appended? ==> r.event.seqNo == |db.log| + 1)
      && (!r.Refused? ==> Durable(after.log, e))
  {
    hide Fold, CheckMode, CheckReceipt, FindKey, Consistent;
    VersionIsLength(db);
    var r, after := AppendAnswer(db, expected, e), AfterAppend(db, expected, e);
    if r.Appended? {
      assert SameEvent(after.log[|db.log|], e);
    } else if r.Replayed? {
      FindKeyFinds(db.log, e.key);
      var i :| 0 <= i < |db.log| && db.log[i] == r.event;
      assert SameEvent(db.log[i], e);
    }
  }

  // ----- what a call met -----

  /** The machine's database at some moment since `origin`. */
  ghost predicate Moment(start: Machine, origin: seq<Move>, schedule: seq<Move>, t: Tables) {
    exists k :: |origin| <= k <= |schedule| && t == Reached(start, schedule[..k]).db
  }

  ghost predicate Remembered(start: Machine, origin: seq<Move>, schedule: seq<Move>, history: seq<Tables>) {
    forall t :: t in history ==> Moment(start, origin, schedule, t)
  }

  lemma NothingRemembered(start: Machine, schedule: seq<Move>)
    ensures Remembered(start, schedule, schedule, [])
  {
  }

  lemma RemembersAll(start: Machine, origin: seq<Move>, schedule: seq<Move>, history: seq<Tables>)
    requires Remembered(start, origin, schedule, history)
    ensures forall t :: t in history ==> Moment(start, origin, schedule, t)
  {
  }

  lemma RemembersNow(start: Machine, origin: seq<Move>, schedule: seq<Move>, history: seq<Tables>)
    requires Remembered(start, origin, schedule, history) && |origin| <= |schedule|
    ensures Remembered(start, origin, schedule, history + [Reached(start, schedule).db])
  {
    hide Reached;
    assert schedule[..|schedule|] == schedule;
    assert Moment(start, origin, schedule, Reached(start, schedule).db);
  }

  lemma RemembersOn(start: Machine, origin: seq<Move>, schedule: seq<Move>, history: seq<Tables>, step: Move)
    requires Remembered(start, origin, schedule, history)
    ensures Remembered(start, origin, schedule + [step], history)
  {
    hide Reached;
    forall t | t in history
      ensures Moment(start, origin, schedule + [step], t)
    {
      var k :| |origin| <= k <= |schedule| && t == Reached(start, schedule[..k]).db;
      assert (schedule + [step])[..k] == schedule[..k];
    }
  }

  // ----- which result a call leaves -----

  predicate SignedBy(e: Event, worker: string, token: nat, runId: string) {
    e.worker == worker && e.token == token && e.runId == runId && e.correlationId == runId
  }

  /** The log holds this process's failure of the command, with this outcome and reason, under the controller's key. */
  ghost predicate FailedWith(log: seq<Event>, runId: string, worker: string, token: nat, c: Command,
                             outcome: ActionOutcome, reason: string)
  {
    exists i :: 0 <= i < |log| && log[i].kind == ActionFailed && SignedBy(log[i], worker, token, runId)
                && log[i].data.actionId == c.actionId && log[i].data.actionType == c.kind
                && log[i].data.outcome == outcome && log[i].data.reason == reason
                && log[i].key == c.actionId + ":action-failed:" + (if outcome == OutcomeFailed then "failed" else "ambiguous")
  }

  /** The log holds this process's completion that repeats the receipt, under the controller's key. */
  ghost predicate CompletedWith(log: seq<Event>, runId: string, worker: string, token: nat, r: Receipt) {
    exists i :: 0 <= i < |log| && log[i].kind == ActionCompleted && SignedBy(log[i], worker, token, runId)
                && Repeats(log[i].data, r) && log[i].key == r.actionId + ":action-completed"
  }

  lemma DurableFailure(log: seq<Event>, runId: string, worker: string, token: nat, c: Command, reason: string, outcome: ActionOutcome)
    requires Durable(log, FailedEvent(runId, worker, token, c, reason, outcome))
    requires outcome == OutcomeFailed || outcome == OutcomeAmbiguous
    ensures FailedWith(log, runId, worker, token, c, outcome, reason) && !NoResultFor(log, c.actionId)
  {
    var i :| 0 <= i < |log| && SameEvent(log[i], FailedEvent(runId, worker, token, c, reason, outcome));
    assert ActionResult(log[i]);
  }

  lemma DurableCompletion(log: seq<Event>, runId: string, worker: string, token: nat, r: Receipt)
    requires Durable(log, CompletedEvent(runId, worker, token, r))
    ensures CompletedWith(log, runId, worker, token, r) && !NoResultFor(log, r.actionId)
  {
    var i :| 0 <= i < |log| && SameEvent(log[i], CompletedEvent(runId, worker, token, r));
    assert ActionResult(log[i]);
    CompletionRepeats(log[i].data, r);
  }

  /** The receipt proves the pending action of the loaded state, the reducer would take it, and its artifact is sound. */
  ghost predicate Verified(db: Tables, s: State, r: Receipt) {
    && Proves(r, s.pendingAttempt) && ArtifactSound(db, r, s.pendingAttempt)
    && ApplyActionCompleted(s, CompletionOf(r)).Ok?
  }

  lemma VerificationLaw(db: Tables, s: State, r: Receipt)
    ensures EvidenceHolds(db, s, r) <==> Verified(db, s, r)
  {
    hide ValidateEvidence, Proves, ApplyActionCompleted;
    EvidenceLaw(r, s.pendingAttempt);
  }

  // ----- what a call answers -----

  /** The databases of one result append: at the first try, at the reread, and at the retry. */
  datatype Attempt = Attempt(first: Tables, reread: Tables, second: Tables)

  /** The store's answer; another Run's database knows nothing of this one. */
  ghost function Asked(db: Tables, version: nat, e: Event): AppendResult {
    if e.runId == db.runId then AppendAnswer(db, version, e) else Refused(RunNotFound)
  }

  ghost function RefusalOf(r: AppendResult): Option<Refusal> {
    if r.Refused? then Some(StoreRefused(r.error)) else None
  }

  /** The answer to a result append: the store's own, or, after one lost race, that at the reread version. */
  ghost function Reply(at: Attempt, version: nat, e: Event): Option<Refusal> {
    var r := Asked(at.first, version, e);
    if r.Refused? && r.error.VersionConflict? then
      match Load(at.reread)
      case None => Some(StoreRefused(RunNotFound))
      case Some(s) => RefusalOf(Asked(at.second, s.run.version, e))
    else RefusalOf(r)
  }

  /**
    What a call met on its way: at the receipt lookup, at the plan, at the rereads after it, at the
    execution, at the recording, the receipt kept, at its verification, and at the append of its result.
  */
  datatype Trail = Trail(seen: Tables, asked: Tables, reread: Tables, read: Tables, ran: Tables,
                         met: Tables, kept: Receipt, proof: Tables, at: Attempt)

  class Controller {
    const db: RunDatabase
    const worker: string
    const token: nat
    const executor: (State, Command) -> Execution

    /** Everything beside this call: the machine whose database `db` is. */
    var world: Machine

    /** The appender's captured variables. */
    var expectedVersion: nat
    var events: seq<Event>

    ghost const start: Machine
    ghost var schedule: seq<Move>
    /** The schedule and the log when the current call began, and its first own move. */
    ghost var origin: seq<Move>
    ghost var begun: nat
    ghost var base: seq<Event>
    /** The databases the current call met. */
    ghost var history: seq<Tables>

    /** The database is the machine's, the call's moves are one pass, and its events are in the log. */
    ghost predicate At(phase: Phase)
      reads this, db
    {
      && db.Valid() && OnePass(start, token, executor, origin, begun, schedule)
      && Listed(db.log, base, events) && Remembered(start, origin, schedule, history)
      && world == Reached(start, schedule) && world.db == db.Snapshot()
      && token in world.procs && world.procs[token] == Process(worker, phase)
    }

    /** Every database of the trail is one the call met. */
    ghost predicate Real(trail: Trail)
      reads this
    {
      && trail.seen in history && trail.asked in history && trail.reread in history && trail.read in history
      && trail.ran in history && trail.met in history && trail.proof in history && Tried(trail.at)
    }

    ghost predicate Tried(at: Attempt)
      reads this
    {
      at.first in history && at.reread in history && at.second in history
    }

    /** The database at some moment since the call began. */
    ghost predicate Met(t: Tables)
      reads this
    {
      Moment(start, origin, schedule, t)
    }

    ghost predicate MetAll(trail: Trail)
      reads this
    {
      && Met(trail.seen) && Met(trail.asked) && Met(trail.reread) && Met(trail.read) && Met(trail.ran) && Met(trail.met)
      && Met(trail.proof) && Met(trail.at.first) && Met(trail.at.reread) && Met(trail.at.second)
    }

    /** In the middle of a call. */
    ghost predicate Within(phase: Phase)
      reads this, db
    {
      At(phase) && begun < |schedule|
    }

    /** A controller for the process that holds `token` in any machine over this database. */
    constructor (db: RunDatabase, worker: string, token: nat, executor: (State, Command) -> Execution, start: Machine)
      requires db.Valid() && start.db == db.Snapshot()
      requires token in start.procs && start.procs[token] == Process(worker, Idle)
      ensures this.db == db && this.worker == worker && this.token == token && this.executor == executor
      ensures At(Idle) && events == []
      ensures this.start == start && schedule == []
    {
      this.db, this.worker, this.token, this.executor, this.start, world := db, worker, token, executor, start, start;
      expectedVersion, events, base := 0, [], db.log;
      schedule, origin, begun, history := [], [], 0, [];
    }

    /** Any finite run of moves of others; this process does not move. */
    method Interfere(ghost phase: Phase)
      requires At(phase)
      modifies this`world, this`schedule, this`begun, this`history, db
      ensures At(phase) && old(db.log) <= db.log && old(schedule) <= schedule
      ensures old(history) <= history && db.Snapshot() in history
      ensures old(begun < |schedule|) ==> begun == old(begun) < |schedule|
      ensures old(begun == |schedule|) ==> begun == |schedule|
    {
      hide OnePass, Reached, Next, Consistent, Listed, Remembered, Foreign;
      var others: seq<Move> := *;
      for index := 0 to |others|
        invariant At(phase) && old(db.log) <= db.log && old(schedule) <= schedule && history == old(history)
        invariant old(begun < |schedule|) ==> begun == old(begun) < |schedule|
        invariant old(begun == |schedule|) ==> begun == |schedule|
      {
        if Foreign(others[index], token) {
          Disturb(others[index], phase);
        }
      }
      PassExtends(start, token, executor, origin, begun, schedule);
      RemembersNow(start, origin, schedule, history);
      history := history + [db.Snapshot()];
    }

    method Disturb(step: Move, ghost phase: Phase)
      requires At(phase) && Foreign(step, token)
      modifies this`world, this`schedule, this`begun, db
      ensures At(phase) && old(db.log) <= db.log && schedule == old(schedule) + [step]
      ensures begun == if old(begun == |schedule|) then old(begun) + 1 else old(begun)
    {
      hide OnePass, Reached, Next, Consistent, Listed, Remembered, Foreign;
      ghost var log := db.log;
      CrashTransparency.StepAppends(world, step);
      ForeignKeeps(world, step, token);
      ReachedSnoc(start, schedule, step);
      PassDisturbed(start, token, executor, origin, begun, schedule, step);
      world := Next(world, step);
      db.Adopt(world.db);
      ListedGrows(log, db.log, base, events);
      RemembersOn(start, origin, schedule, history, step);
      begun := if begun == |schedule| then begun + 1 else begun;
      schedule := schedule + [step];
    }

    /** The machine makes this process's next move. */
    method Moved(ghost phase: Phase, x: Execution)
      requires db.Valid() && world == Reached(start, schedule) && OnePass(start, token, executor, origin, begun, schedule)
      requires Listed(db.log, base, events) && Remembered(start, origin, schedule, history)
      requires token in world.procs && world.procs[token] == Process(worker, phase)
      requires phase.Idle? <==> begun == |schedule|
      requires phase.Ready? ==> x == executor(phase.state, phase.command)
      requires WorkStep(world, worker, token, phase, x).db == db.Snapshot()
      modifies this`schedule, this`world
      ensures Within(WorkStep(old(world), worker, token, phase, x).phase)
    {
      hide WorkStep, OnePass, Reached, Listed, Remembered;
      PassExtends(start, token, executor, origin, begun, schedule);
      ReachedSnoc(start, schedule, Work(token, x));
      PassGrows(start, token, executor, origin, begun, schedule, x);
      RemembersOn(start, origin, schedule, history, Work(token, x));
      world := Next(world, Work(token, x));
      schedule := schedule + [Work(token, x)];
    }

    /** GetRun: reading never fails on a Run that exists. */
    method GetRun() returns (r: Option<State>)
      requires db.Valid()
      ensures r == Load(db.Snapshot())
    {
      hide Fold, Consistent;
      var rebuilt := db.Rebuild();
      VersionIsLength(db.Snapshot());
      return match rebuilt case Success(state) => Some(state) case Failure(_) => None;
    }

    /** One append of a result, to whatever database it meets, with the appender's bookkeeping. */
    method Submit(event: Event, retried: bool) returns (r: AppendResult, ghost met: Tables)
      requires Within(Finishing(event, expectedVersion, retried)) && event.runId == db.runId
      modifies this, db
      ensures origin == old(origin) && base == old(base) && old(history) <= history
      ensures met in history && old(db.log) <= met.log <= db.log && met.runId == db.runId
      ensures r == AppendAnswer(met, old(expectedVersion), event) && db.Snapshot() == AfterAppend(met, old(expectedVersion), event)
      ensures Within(if r.Refused? && r.error.VersionConflict? && !retried then Conflicted(event) else Idle)
      ensures events == old(events) + (if r.Appended? then [r.event] else [])
      ensures !r.Refused? ==> Durable(db.log, event)
    {
      hide OnePass, Fold, Consistent, AppendAnswer, AfterAppend, Reached, Durable, Listed, Remembered;
      Interfere(Finishing(event, expectedVersion, retried));
      met := db.Snapshot();
      AppendEffect(met, expectedVersion, event);
      ghost var version := expectedVersion;
      r := db.Append(expectedVersion, event);
      assert met.log + [] == met.log;
      if r.Appended? {
        Enlist(met.log, base, events, r.event);
        events := events + [r.event];
        expectedVersion := r.event.seqNo;
      }
      Moved(Finishing(event, version, retried), Broken(""));
    }

    /** Another writer won: rereads the version and appends once more, to whatever database it meets then. */
    method RetryAppend(event: Event) returns (r: AppendResult, ghost read: Tables, ghost met: Tables)
      requires Within(Conflicted(event)) && event.runId == db.runId
      modifies this, db
      ensures origin == old(origin) && base == old(base) && old(history) <= history
      ensures Within(Idle) && read in history && met in history && old(db.log) <= read.log <= met.log <= db.log && met.runId == db.runId
      ensures
        match Load(read)
        case None => r == Refused(RunNotFound)
        case Some(state) => r == AppendAnswer(met, state.run.version, event)
      ensures events == old(events) + (if r.Appended? then [r.event] else [])
      ensures !r.Refused? ==> Durable(db.log, event)
    {
      hide OnePass, Fold, Consistent, AppendAnswer, AfterAppend, Reached, Durable, Load, Listed, Remembered;
      Interfere(Conflicted(event));
      read := db.Snapshot();
      met := read;
      var current := GetRun();
      Moved(Conflicted(event), Broken(""));
      if current.None? {
        return Refused(RunNotFound), read, met;
      }
      expectedVersion := current.value.run.version;
      r, met := Submit(event, true);
    }

    /** The appender for results: no refusal means the event is durable, a refusal that this call appended nothing. */
    method AppendResultEvent(event: Event) returns (refusal: Option<Refusal>, ghost at: Attempt)
      requires Within(Finishing(event, expectedVersion, false)) && event.runId == db.runId
      modifies this, db
      ensures origin == old(origin) && base == old(base) && old(history) <= history && old(db.log) <= db.log
      ensures Within(Idle)
      ensures refusal.None? ==> Durable(db.log, event) && old(events) <= events && |events| <= |old(events)| + 1
      ensures refusal.Some? ==> events == old(events) && refusal.value.StoreRefused?
      ensures Tried(at) && refusal == Reply(at, old(expectedVersion), event)
    {
      hide OnePass, Fold, Consistent, WorkStep, AppendAnswer, AfterAppend, Reached, Durable, Load, Listed, Remembered;
      var r;
      ghost var first, read, second;
      r, first := Submit(event, false);
      read, second := first, first;
      if r.Refused? && r.error.VersionConflict? {
        r, read, second := RetryAppend(event);
      }
      at := Attempt(first, read, second);
      refusal := if r.Refused? then Some(StoreRefused(r.error)) else None;
    }

    /** Fails the action. */
    method FailAction(command: Command, reason: string, outcome: ActionOutcome) returns (refusal: Option<Refusal>, ghost at: Attempt)
      requires outcome == OutcomeFailed || outcome == OutcomeAmbiguous
      requires Within(Finishing(FailedEvent(db.runId, worker, token, command, reason, outcome), expectedVersion, false))
      modifies this, db
      ensures origin == old(origin) && base == old(base) && old(history) <= history && old(db.log) <= db.log
      ensures Within(Idle)
      ensures refusal.None? ==>
                && FailedWith(db.log, db.runId, worker, token, command, outcome, reason)
                && !NoResultFor(db.log, command.actionId) && old(events) <= events && |events| <= |old(events)| + 1
      ensures refusal.Some? ==> events == old(events) && refusal.value.StoreRefused?
      ensures Tried(at) && refusal == Reply(at, old(expectedVersion), FailedEvent(db.runId, worker, token, command, reason, outcome))
    {
      hide OnePass, Fold, Consistent, WorkStep, Reached, Durable, NoResultFor, Listed, Remembered, FailedWith, Reply;
      refusal, at := AppendResultEvent(FailedEvent(db.runId, worker, token, command, reason, outcome));
      if refusal.None? {
        DurableFailure(db.log, db.runId, worker, token, command, reason, outcome);
      }
    }

    /** Completes the action with its receipt. */
    method CompleteAction(command: Command, receipt: Receipt) returns (refusal: Option<Refusal>, ghost at: Attempt)
      requires receipt.actionId == command.actionId
      requires Within(Finishing(CompletedEvent(db.runId, worker, token, receipt), expectedVersion, false))
      modifies this, db
      ensures origin == old(origin) && base == old(base) && old(history) <= history && old(db.log) <= db.log
      ensures Within(Idle)
      ensures refusal.None? ==>
                && CompletedWith(db.log, db.runId, worker, token, receipt)
                && !NoResultFor(db.log, command.actionId) && old(events) <= events && |events| <= |old(events)| + 1
      ensures refusal.Some? ==> events == old(events) && refusal.value.StoreRefused?
      ensures Tried(at) && refusal == Reply(at, old(expectedVersion), CompletedEvent(db.runId, worker, token, receipt))
    {
      hide OnePass, Fold, Consistent, WorkStep, Reached, Durable, NoResultFor, Listed, Remembered, CompletedWith, Reply;
      refusal, at := AppendResultEvent(CompletedEvent(db.runId, worker, token, receipt));
      if refusal.None? {
        DurableCompletion(db.log, db.runId, worker, token, receipt);
      }
    }

    /** A verified receipt is completed, any other fails the action as ambiguous. */
    ghost predicate Concluded(log: seq<Event>, runId: string, s: State, c: Command, r: Receipt, proof: Tables) {
      if Verified(proof, s, r) then CompletedWith(log, runId, worker, token, r)
      else FailedWith(log, runId, worker, token, c, OutcomeAmbiguous, UNVERIFIED)
    }

    /** The event that verification leads to. */
    ghost function Conclusion(runId: string, s: State, c: Command, r: Receipt, proof: Tables): Event {
      if Verified(proof, s, r) then CompletedEvent(runId, worker, token, r)
      else FailedEvent(runId, worker, token, c, UNVERIFIED, OutcomeAmbiguous)
    }

    /** Verifies a durable receipt and appends the completion, or an ambiguous failure. */
    method Conclude(state: State, command: Command, receipt: Receipt) returns (refusal: Option<Refusal>, ghost proof: Tables, ghost at: Attempt)
      requires Within(Evident(state, command, expectedVersion, receipt)) && receipt.actionId == command.actionId
      modifies this, db
      ensures origin == old(origin) && base == old(base) && old(history) <= history && proof in history && old(db.log) <= proof.log <= db.log
      ensures Within(Idle)
      ensures refusal.None? ==>
                && Concluded(db.log, db.runId, state, command, receipt, proof)
                && !NoResultFor(db.log, command.actionId) && old(events) <= events && |events| <= |old(events)| + 1
      ensures refusal.Some? ==> events == old(events) && refusal.value.StoreRefused?
      ensures Tried(at) && refusal == Reply(at, old(expectedVersion), Conclusion(db.runId, state, command, receipt, proof))
    {
      hide OnePass, Fold, Consistent, EvidenceHolds, Reached, NoResultFor, Listed, Remembered, FailedWith, CompletedWith, Verified,
        FailedEvent, CompletedEvent, Reply;
      Interfere(Evident(state, command, expectedVersion, receipt));
      proof := db.Snapshot();
      VerificationLaw(proof, state, receipt);
      var verified := EvidenceHolds(db.Snapshot(), state, receipt);
      Moved(Evident(state, command, expectedVersion, receipt), Broken(""));
      if !verified {
        refusal, at := FailAction(command, UNVERIFIED, OutcomeAmbiguous);
      } else {
        refusal, at := CompleteAction(command, receipt);
      }
    }

    /** Records the executor's receipt: a refused receipt is the answer, a kept one is concluded. */
    method RecordExecuted(state: State, command: Command, receipt: Receipt)
      returns (refusal: Option<Refusal>, ghost met: Tables, ghost kept: Receipt, ghost proof: Tables, ghost at: Attempt)
      requires Within(Executed(state, command, expectedVersion, receipt)) && receipt.actionId == command.actionId
      modifies this, db
      ensures origin == old(origin) && base == old(base) && old(history) <= history && met in history && old(db.log) <= met.log <= db.log && met.runId == db.runId
      ensures Within(Idle)
      ensures proof in history
      ensures refusal.None? ==>
                && SameClaim(kept, Claimed(met, receipt)) && Concluded(db.log, db.runId, state, command, kept, proof)
                && !NoResultFor(db.log, command.actionId) && old(events) <= events && |events| <= |old(events)| + 1
      ensures refusal.Some? ==> events == old(events) && !refusal.value.BadScope?
      ensures Tried(at)
      ensures
        var answer := ReceiptOutcome(met, Authority(worker, token), receipt);
        refusal == if answer.ReceiptRefused? then Some(LeaseRefused(answer.error))
                   else Reply(at, old(expectedVersion), Conclusion(db.runId, state, command, kept, proof))
    {
      hide OnePass, Fold, Consistent, Reached, ReceiptOutcome, AfterReceipt, NoResultFor, Listed, Remembered, Concluded, SameClaim, Claimed, Reply, Conclusion;
      Interfere(Executed(state, command, expectedVersion, receipt));
      met := db.Snapshot();
      proof, kept, at := met, receipt, Attempt(met, met, met);
      ReceiptEffect(met, Authority(worker, token), receipt);
      var recorded := db.RecordReceipt(Authority(worker, token), receipt);
      Moved(Executed(state, command, expectedVersion, receipt), Broken(""));
      if recorded.ReceiptRefused? {
        return Some(LeaseRefused(recorded.error)), met, kept, proof, at;
      }
      kept := recorded.receipt;
      refusal, proof, at := Conclude(state, command, recorded.receipt);
    }

    /** Calls the executor, which may write its artifact. */
    method RunExecutor(state: State, command: Command) returns (result: Result<Receipt, string>, ghost ran: Tables)
      requires Within(Ready(state, command, expectedVersion))
      modifies this`world, this`schedule, this`begun, this`history, db
      ensures old(history) <= history && ran in history && old(db.log) <= db.log && old(db.log) <= ran.log
      ensures result == ExecutorAnswer(ran, state, command)
      ensures
        match result
        case Success(receipt) =>
          Within(Executed(state, command, expectedVersion, receipt)) && receipt.actionId == command.actionId
        case Failure(reason) =>
          Within(Finishing(FailedEvent(db.runId, worker, token, command, reason, OutcomeFailed), expectedVersion, false))
    {
      hide OnePass, Fold, Consistent, Reached, Listed, Remembered;
      Interfere(Ready(state, command, expectedVersion));
      ran := db.Snapshot();
      var x := executor(state, command);
      result := if x.Broken? then Failure(x.reason) else Success(Addressed(x.receipt, state, command));
      if x.Done? && x.artifact.Some? {
        var ok := db.WriteArtifact(ArtifactIdFor(command.actionId), x.artifact.value);
        if !ok {
          result := Failure(CONFLICTING);
        }
      }
      Moved(Ready(state, command, expectedVersion), x);
    }

    /**
      What the executor's answer amounts to: its error, a conflict with another registered
      artifact, or its receipt addressed to the action under the scope it was planned with.
    */
    ghost function ExecutorAnswer(ran: Tables, s: State, c: Command): Result<Receipt, string> {
      match executor(s, c)
      case Broken(reason) => Failure(reason)
      case Done(receipt, artifact) =>
        var id := "action-" + c.actionId;
        if artifact.Some? && id in ran.artifacts
           && (ran.artifacts[id].runId != artifact.value.runId || ran.artifacts[id].attemptId != artifact.value.attemptId
               || ran.artifacts[id].kind != artifact.value.kind || ran.artifacts[id].digest != artifact.value.digest)
        then Failure(CONFLICTING)
        else Success(receipt.(actionId := c.actionId, kind := c.kind, scope := s.pendingScope))
    }

    /** An executor error fails the action; a receipt is kept as claimed and concluded. */
    ghost predicate ExecutedTo(log: seq<Event>, runId: string, s: State, c: Command, trail: Trail) {
      match ExecutorAnswer(trail.ran, s, c)
      case Failure(reason) => FailedWith(log, runId, worker, token, c, OutcomeFailed, reason)
      case Success(receipt) =>
        && SameClaim(trail.kept, if receipt.id == "" then receipt.(id := runId + ":" + c.actionId) else receipt)
        && Concluded(log, runId, s, c, trail.kept, trail.proof)
    }

    /** The answer of an execution, by what the executor, the receipt table and the store said. */
    ghost function ExecutionReply(runId: string, version: nat, s: State, c: Command, trail: Trail): Option<Refusal> {
      match ExecutorAnswer(trail.ran, s, c)
      case Failure(reason) => Reply(trail.at, version, FailedEvent(runId, worker, token, c, reason, OutcomeFailed))
      case Success(receipt) =>
        var answer := ReceiptOutcome(trail.met, Authority(worker, token), receipt);
        if answer.ReceiptRefused? then Some(LeaseRefused(answer.error))
        else Reply(trail.at, version, Conclusion(runId, s, c, trail.kept, trail.proof))
    }

    /** Executes, records and concludes: no refusal means a durable result, a refusal that this call appended nothing. */
    method ExecuteManagedAction(state: State, command: Command, ghost before: Trail) returns (refusal: Option<Refusal>, ghost trail: Trail)
      requires Within(Ready(state, command, expectedVersion))
      requires Real(before)
      modifies this, db
      ensures origin == old(origin) && base == old(base) && old(history) <= history && old(db.log) <= db.log
      ensures Real(trail)
      ensures Within(Idle)
      ensures trail.seen == before.seen && trail.asked == before.asked && trail.reread == before.reread && trail.read == before.read
      ensures refusal.None? ==>
                && ExecutedTo(db.log, db.runId, state, command, trail)
                && !NoResultFor(db.log, command.actionId) && old(events) <= events && |events| <= |old(events)| + 1
      ensures refusal.Some? ==> events == old(events) && !refusal.value.BadScope?
      ensures refusal == ExecutionReply(db.runId, old(expectedVersion), state, command, trail)
    {
      hide OnePass, Fold, Consistent, Reached, NoResultFor, Listed, Remembered, WorkStep, Concluded, FailedWith, CompletedWith, FailedEvent, Reply,
        Conclusion, ReceiptOutcome;
      trail := before;
      ghost var ran;
      var result;
      result, ran := RunExecutor(state, command);
      trail := trail.(ran := ran);
      if result.Failure? {
        ghost var at;
        refusal, at := FailAction(command, result.error, OutcomeFailed);
        trail := trail.(at := at);
        return;
      }
      ghost var met, kept, proof, at;
      refusal, met, kept, proof, at := RecordExecuted(state, command, result.value);
      trail := trail.(met := met, kept := kept, proof := proof, at := at);
    }

    /**
      What a recovery leaves, by the intent, receipt and scope it found: cancel intent fails the
      action, a receipt is concluded, an unsafe action without one is ambiguous, a scoped one is executed.
    */
    ghost predicate RecoveredTo(log: seq<Event>, runId: string, s: State, trail: Trail) {
      var c := Command(s.pendingType, s.run.id, s.pendingId, s.pendingAttempt);
      if s.run.desired == DesiredCancelled then
        FailedWith(log, runId, worker, token, c, OutcomeFailed, "cancel intent superseded the pending action")
      else if s.pendingId in trail.seen.receipts then
        Concluded(log, runId, s, c, trail.seen.receipts[s.pendingId], trail.proof)
      else if s.pendingScope != ScopedIdempotent then
        FailedWith(log, runId, worker, token, c, OutcomeAmbiguous,
                   "action outcome is ambiguous and no durable receipt proves completion")
      else ExecutedTo(log, runId, s, c, trail)
    }

    /** The answer of a recovery. */
    ghost function RecoveryReply(runId: string, s: State, trail: Trail): Option<Refusal> {
      var c, version := Command(s.pendingType, s.run.id, s.pendingId, s.pendingAttempt), s.run.version;
      if Halted(s) then None
      else if s.run.desired == DesiredCancelled then
        Reply(trail.at, version, FailedEvent(runId, worker, token, c, CANCELLED, OutcomeFailed))
      else if s.pendingId in trail.seen.receipts then
        Reply(trail.at, version, Conclusion(runId, s, c, trail.seen.receipts[s.pendingId], trail.proof))
      else if s.pendingScope != ScopedIdempotent then
        Reply(trail.at, version, FailedEvent(runId, worker, token, c, AMBIGUOUS, OutcomeAmbiguous))
      else ExecutionReply(runId, version, s, c, trail)
    }

    /** Takes the recovery decision on the receipts of this moment. */
    method LookUp(state: State, ghost before: Trail) returns (ghost trail: Trail)
      requires Within(Loaded(state)) && state.pendingId != "" && Real(before)
      modifies this`world, this`schedule, this`begun, this`history, db
      ensures old(history) <= history && old(db.log) <= db.log && Real(trail)
      ensures trail == before.(seen := db.Snapshot())
      ensures Within(Recover(db.Snapshot(), worker, token, state))
    {
      hide OnePass, Fold, Consistent, Reached, Listed, Remembered, Recover;
      Interfere(Loaded(state));
      trail := before.(seen := db.Snapshot());
      Moved(Loaded(state), Broken(""));
    }

    /** The recovery branches, by intent, receipt and scope. */
    method RecoverPendingAction(state: State, ghost before: Trail) returns (refusal: Option<Refusal>, ghost trail: Trail)
      requires Within(Loaded(state)) && state.pendingId != "" && expectedVersion == state.run.version
      requires Real(before)
      modifies this, db
      ensures origin == old(origin) && base == old(base) && old(history) <= history && old(db.log) <= db.log && old(db.log) <= trail.seen.log
      ensures Real(trail)
      ensures Within(Idle)
      ensures refusal == RecoveryReply(db.runId, state, trail)
      ensures Halted(state) ==> refusal.None? && events == old(events)
      ensures refusal.None? && !Halted(state) ==>
                !NoResultFor(db.log, state.pendingId) && RecoveredTo(db.log, db.runId, state, trail)
      ensures old(events) <= events && |events| <= |old(events)| + 1 && (refusal.Some? ==> events == old(events))
    {
      hide WorkStep, OnePass, Fold, Consistent, Reached, NoResultFor, Listed, Remembered, FailedWith, CompletedWith, Concluded, ExecutedTo, FailedEvent, Reply,
        Conclusion, ExecutionReply;
      trail := LookUp(state, before);
      var command := PendingCommand(state);
      ghost var at;
      if state.run.desired == DesiredPaused || state.run.observed == Paused {
        return None, trail;
      }
      if state.run.desired == DesiredCancelled {
        refusal, at := FailAction(command, CANCELLED, OutcomeFailed);
        trail := trail.(at := at);
        return;
      }
      if state.pendingId in db.receipts {
        ReceiptNamed(db.Snapshot(), state.pendingId);
        ghost var proof;
        refusal, proof, at := Conclude(state, command, db.receipts[state.pendingId]);
        trail := trail.(proof := proof, at := at);
        return;
      }
      if state.pendingScope != ScopedIdempotent {
        refusal, at := FailAction(command, AMBIGUOUS, OutcomeAmbiguous);
        trail := trail.(at := at);
        return;
      }
      refusal, trail := ExecuteManagedAction(state, command, trail);
    }

    /** The answer of the execution after a plan. */
    ghost function PlannedReply(runId: string, version: nat, c: Command, trail: Trail): Option<Refusal> {
      match Load(trail.read)
      case None => Some(StoreRefused(RunNotFound))
      case Some(s) => ExecutionReply(runId, version, s, c, trail)
    }

    /** The result the execution after a plan leaves, on the Run it read. */
    ghost predicate PlannedResult(log: seq<Event>, runId: string, c: Command, trail: Trail) {
      Load(trail.read).Some? && ExecutedTo(log, runId, Load(trail.read).value, c, trail)
    }

    /** Rereads the Run and executes the planned command on what it finds. */
    method ExecutePlanned(command: Command, ghost before: Trail) returns (refusal: Option<Refusal>, ghost trail: Trail)
      requires Within(Planned(command, expectedVersion))
      requires Real(before)
      modifies this, db
      ensures origin == old(origin) && base == old(base) && old(history) <= history && old(db.log) <= db.log
      ensures Real(trail)
      ensures Within(Idle)
      ensures trail.asked == before.asked && trail.reread == before.reread
      ensures refusal == PlannedReply(db.runId, old(expectedVersion), command, trail)
      ensures refusal.None? ==>
                && PlannedResult(db.log, db.runId, command, trail)
                && !NoResultFor(db.log, command.actionId) && old(events) <= events && |events| <= |old(events)| + 1
      ensures refusal.Some? ==> events == old(events) && !refusal.value.BadScope?
    {
      hide OnePass, Fold, Consistent, Reached, NoResultFor, Load, Listed, Remembered, ExecutedTo, ExecutionReply;
      Interfere(Planned(command, expectedVersion));
      trail := before.(read := db.Snapshot());
      var planned := GetRun();
      Moved(Planned(command, expectedVersion), Broken(""));
      if planned.None? {
        return Some(StoreRefused(RunNotFound)), trail;
      }
      refusal, trail := ExecuteManagedAction(planned.value, command, trail);
    }

    /** Appends the plan at the loaded version, to whatever database it meets. */
    method AppendPlan(state: State, command: Command) returns (r: AppendResult, ghost met: Tables)
      requires Within(Loaded(state)) && state.pendingId == "" && expectedVersion == state.run.version
      requires command == Decide(state) && command.kind != Noop && Safety(command).Valid()
      modifies this, db
      ensures origin == old(origin) && base == old(base) && old(history) <= history && met in history && old(db.log) <= met.log <= db.log && met.runId == db.runId
      ensures
        match r
        case Appended(stored) => Within(Planned(command, expectedVersion)) && events == old(events) + [stored] && expectedVersion == stored.seqNo
        case Replayed(_) => Within(Replanned(command)) && events == old(events)
        case Refused(_) => Within(Idle) && events == old(events)
      ensures r == AppendAnswer(met, state.run.version, PlannedEvent(db.runId, worker, token, command))
    {
      hide OnePass, Fold, Consistent, Reached, AppendAnswer, AfterAppend, Decide, Durable, Listed, Remembered;
      Interfere(Loaded(state));
      met := db.Snapshot();
      var event := PlannedEvent(db.runId, worker, token, command);
      AppendEffect(met, expectedVersion, event);
      r := db.Append(expectedVersion, event);
      assert met.log + [] == met.log;
      if r.Appended? {
        Enlist(met.log, base, events, r.event);
        events := events + [r.event];
        expectedVersion := r.event.seqNo;
      }
      Moved(Loaded(state), Broken(""));
    }

    /** Finds the plan already stored and rereads the version. */
    method Reread(command: Command) returns (refusal: Option<Refusal>, ghost reread: Tables)
      requires Within(Replanned(command))
      modifies this`expectedVersion, this`world, this`schedule, this`begun, this`history, db
      ensures old(history) <= history && old(db.log) <= db.log
      ensures reread in history
      ensures
        match Load(reread)
        case None => Within(Idle) && refusal == Some(StoreRefused(RunNotFound))
        case Some(s) => Within(Planned(command, expectedVersion)) && refusal.None? && expectedVersion == s.run.version
    {
      hide OnePass, Fold, Consistent, Reached, Load, Listed, Remembered;
      Interfere(Replanned(command));
      reread := db.Snapshot();
      var current := GetRun();
      Moved(Replanned(command), Broken(""));
      if current.None? {
        return Some(StoreRefused(RunNotFound)), reread;
      }
      expectedVersion := current.value.run.version;
      return None, reread;
    }

    /**
      What planning a command leaves, by scope and the store's answer to the plan: an invalid scope
      and a refused plan append nothing, a lost race is no refusal, a stored plan is executed.
    */
    ghost predicate PlannedTo(log: seq<Event>, runId: string, version: nat, c: Command, refusal: Option<Refusal>,
                              added: seq<Event>, before: seq<Event>, trail: Trail)
    {
      if !Safety(c).Valid() then refusal == Some(BadScope) && added == before
      else if trail.asked.runId != runId then false
      else
        match AppendAnswer(trail.asked, version, PlannedEvent(runId, worker, token, c))
        case Refused(error) =>
          added == before && refusal == (if error.VersionConflict? then None else Some(StoreRefused(error)))
        case answer => StoredTo(log, runId, answer, c, refusal, added, before, trail)
    }

    /** What executing a stored plan leaves: a plan stored by this call is listed, one found there is not. */
    ghost predicate StoredTo(log: seq<Event>, runId: string, answer: AppendResult, c: Command, refusal: Option<Refusal>,
                             added: seq<Event>, before: seq<Event>, trail: Trail)
      requires !answer.Refused?
    {
      var listed := if answer.Appended? then before + [answer.event] else before;
      && listed <= added && |added| <= |listed| + 1 && (refusal.Some? ==> added == listed)
      && refusal == StoredReply(runId, answer, c, trail)
      && (refusal.None? ==> !NoResultFor(log, c.actionId) && PlannedResult(log, runId, c, trail))
    }

    /** The answer after a stored plan: at its own number, or at the version reread after a replay. */
    ghost function StoredReply(runId: string, answer: AppendResult, c: Command, trail: Trail): Option<Refusal>
      requires !answer.Refused?
    {
      if answer.Appended? then PlannedReply(runId, answer.event.seqNo, c, trail)
      else
        match Load(trail.reread)
        case None => Some(StoreRefused(RunNotFound))
        case Some(s) => PlannedReply(runId, s.run.version, c, trail)
    }

    /** Executes a plan that is stored, by this call or before it. */
    method ExecuteStored(answer: AppendResult, command: Command, ghost before: Trail)
      returns (refusal: Option<Refusal>, ghost trail: Trail)
      requires !answer.Refused? && Real(before)
      requires answer.Appended? ==> Within(Planned(command, expectedVersion)) && expectedVersion == answer.event.seqNo
      requires answer.Replayed? ==> Within(Replanned(command))
      modifies this, db
      ensures origin == old(origin) && base == old(base) && old(history) <= history && old(db.log) <= db.log
      ensures Real(trail) && trail.asked == before.asked
      ensures Within(Idle)
      ensures old(events) <= events && |events| <= |old(events)| + 1 && (refusal.Some? ==> events == old(events))
      ensures refusal == StoredReply(db.runId, answer, command, trail) && refusal != Some(BadScope)
      ensures refusal.None? ==> !NoResultFor(db.log, command.actionId) && PlannedResult(db.log, db.runId, command, trail)
    {
      hide OnePass, Fold, Consistent, Reached, NoResultFor, Load, Listed, Remembered, PlannedResult, PlannedReply;
      trail := before;
      if answer.Replayed? {
        ghost var reread;
        refusal, reread := Reread(command);
        trail := trail.(reread := reread);
        if refusal.Some? {
          return;
        }
      }
      refusal, trail := ExecutePlanned(command, trail);
    }

    /** Plans and executes the decided command; a lost race for the version is no refusal. */
    method PlanAction(state: State, command: Command, ghost before: Trail) returns (refusal: Option<Refusal>, ghost trail: Trail)
      requires Within(Loaded(state)) && state.pendingId == "" && expectedVersion == state.run.version
      requires command == Decide(state) && command.kind != Noop
      requires Real(before)
      modifies this, db
      ensures origin == old(origin) && base == old(base) && old(history) <= history && old(db.log) <= db.log
      ensures Real(trail)
      ensures Within(Idle)
      ensures PlannedTo(db.log, db.runId, state.run.version, command, refusal, events, old(events), trail)
      ensures |events| <= |old(events)| + (if refusal.Some? then 1 else 2)
    {
      hide PlannedEvent, OnePass, Fold, Consistent, Reached, Decide, NoResultFor, Load, AppendAnswer, Listed, Remembered, PlannedResult, StoredReply;
      trail := before;
      if !Safety(command).Valid() {
        Moved(Loaded(state), Broken(""));
        return Some(BadScope), trail;
      }
      ghost var met;
      var r;
      r, met := AppendPlan(state, command);
      trail := trail.(asked := met);
      if r.Refused? {
        return if r.error.VersionConflict? then None else Some(StoreRefused(r.error)), trail;
      }
      refusal, trail := ExecuteStored(r, command, trail);
    }

    /** Recovers what is pending, or plans what is decided. */
    method Dispatch(state: State, ghost before: Trail) returns (refusal: Option<Refusal>, ghost trail: Trail)
      requires Within(Loaded(state)) && events == []
      requires Real(before)
      modifies this, db
      ensures origin == old(origin) && base == old(base) && old(history) <= history && old(db.log) <= db.log
      ensures Real(trail)
      ensures Within(Idle) && Handled(state, db.log, db.runId, refusal, events, trail)
    {
      hide OnePass, Fold, Consistent, Reached, Decide, NoResultFor, Listed, Remembered, RecoveredTo, ExecutedTo, RecoveryReply,
        PlannedTo;
      expectedVersion := state.run.version;
      trail := before;
      if state.pendingId != "" {
        refusal, trail := RecoverPendingAction(state, trail);
        return;
      }
      var command := Decide(state);
      if command.kind == Noop {
        Moved(Loaded(state), Broken(""));
        return None, trail;
      }
      refusal, trail := PlanAction(state, command, trail);
    }

    /** Loads the Run of this moment. */
    method LoadRun() returns (loaded: Option<State>, ghost found: Tables)
      requires Within(Validated)
      modifies this`world, this`schedule, this`begun, this`history, db
      ensures old(history) <= history && old(db.log) <= db.log && found == db.Snapshot() && found in history
      ensures loaded == Load(found) && Within(if loaded.Some? then Loaded(loaded.value) else Idle)
    {
      hide OnePass, Fold, Consistent, Reached, Load, Listed, Remembered;
      Interfere(Validated);
      found := db.Snapshot();
      loaded := GetRun();
      Moved(Validated, Broken(""));
    }

    /** Validates, loads and dispatches: one pass of the process. */
    method Call() returns (refusal: Option<Refusal>, ghost checked: Tables, ghost found: Tables, ghost trail: Trail)
      requires At(Idle)
      modifies this, db
      ensures Within(Idle) && origin == old(schedule) && base == old(db.log)
      ensures base <= checked.log <= found.log <= db.log && checked in history && found in history && Real(trail)
      ensures Outcome(checked, found, db.log, db.runId, refusal, events, trail)
    {
      hide OnePass, Fold, Consistent, Reached, CheckAuthority, Load, Listed, Remembered, Handled;
      PassEmpty(start, token, executor, schedule);
      origin, base, events, begun, history := schedule, db.log, [], |schedule|, [];
      assert Listed(db.log, base, events) by { NothingListed(db.log); }
      assert Remembered(start, origin, schedule, history) by { NothingRemembered(start, schedule); }
      Interfere(Idle);
      checked := db.Snapshot();
      found := checked;
      trail := Trail(found, found, found, found, found, found, Receipt("", "", NoCommand, NoScope, NO_DATA, "", "", "", 0, "", 0), found,
                     Attempt(found, found, found));
      var stale := db.Validate(Authority(worker, token));
      Moved(Idle, Broken(""));
      if stale.Some? {
        return Some(LeaseRefused(stale.value)), checked, found, trail;
      }
      var loaded;
      loaded, found := LoadRun();
      if loaded.None? {
        return Some(StoreRefused(RunNotFound)), checked, found, trail;
      }
      refusal, trail := Dispatch(loaded.value, trail);
    }

    /** What a call answers, appends and leaves for the Run it loaded. */
    ghost predicate Handled(s: State, log: seq<Event>, runId: string, refusal: Option<Refusal>, added: seq<Event>, trail: Trail) {
      && |added| <= (if refusal.Some? then 1 else 2)
      && if s.pendingId != "" then
           && (Halted(s) ==> refusal.None? && added == [])
           && (refusal.Some? ==> added == []) && refusal == RecoveryReply(runId, s, trail)
           && (refusal.None? && !Halted(s) ==> !NoResultFor(log, s.pendingId) && RecoveredTo(log, runId, s, trail))
         else if Decide(s).kind == Noop then refusal.None? && added == []
         else PlannedTo(log, runId, s.run.version, Decide(s), refusal, added, [], trail)
    }

    /** What a call answers and leaves, by the authority it was checked for and the Run it found. */
    ghost predicate Outcome(checked: Tables, found: Tables, log: seq<Event>, runId: string,
                            refusal: Option<Refusal>, added: seq<Event>, trail: Trail)
    {
      var stale := CheckAuthority(checked, Authority(worker, token));
      if stale.Some? then refusal == Some(LeaseRefused(stale.value)) && added == []
      else if Load(found).None? then refusal == Some(StoreRefused(RunNotFound)) && added == []
      else Handled(Load(found).value, log, runId, refusal, added, trail)
    }

    /**
      One call, whatever others do meanwhile, is exactly one pass of its process, from
      idle to idle: its answer, its events and the result it leaves are fixed by what it
      met on its way, and it keeps what every schedule keeps.
    */
    method ReconcileLeased() returns (refusal: Option<Refusal>, ghost checked: Tables, ghost found: Tables, ghost trail: Trail)
      requires At(Idle)
      modifies this, db
      ensures Within(Idle) && origin == old(schedule)
      ensures old(db.log) <= checked.log <= found.log <= db.log && Listed(db.log, old(db.log), events)
      ensures Met(checked) && Met(found) && MetAll(trail)
      ensures Outcome(checked, found, db.log, db.runId, refusal, events, trail)
      ensures UnsafeOnce.Guarded(Reached(start, old(schedule))) ==> UnsafeOnce.Guarded(Reached(start, schedule))
    {
      hide OnePass, Fold, Consistent, Reached, Outcome, UnsafeOnce.Guarded, Listed, Remembered;
      refusal, checked, found, trail := Call();
      assert Met(checked) && Met(found) && MetAll(trail) by {
        RemembersAll(start, origin, schedule, history);
      }
      if UnsafeOnce.Guarded(Reached(start, origin)) {
        PassExtends(start, token, executor, origin, begun, schedule);
        UnsafeOnce.GuardedAlong(start, origin, schedule);
      }
    }
  }

  /** Recovery leaves a paused Run alone. */
  predicate Halted(s: State) {
    s.run.desired == DesiredPaused || s.run.observed == Paused
  }

  lemma NothingListed(log: seq<Event>)
    ensures Listed(log, log, [])
  {
  }

  /** Listing what an append stored. */
  lemma Enlist(log: seq<Event>, base: seq<Event>, events: seq<Event>, e: Event)
    requires Listed(log, base, events) && e.seqNo == |log| + 1
    ensures Listed(log + [e], base, events + [e])
  {
  }

  lemma ReceiptEffect(db: Tables, auth: Authority, r: Receipt)
    ensures AfterReceipt(db, auth, r).log == db.log
    ensures
      var answer := ReceiptOutcome(db, auth, r);
      !answer.ReceiptRefused? ==> answer.receipt.actionId == r.actionId && SameClaim(answer.receipt, Claimed(db, r))
  {
    hide ReceiptPlan, ValidateEvidence, Insertable, CheckAuthority;
  }

  lemma ReceiptNamed(db: Tables, a: string)
    requires Consistent(db) && a in db.receipts
    ensures db.receipts[a].actionId == a
  {
    hide Derived, FencingRules, ModeRules, NothingSplit, CompletionsSandwiched, HasPlan;
  }

  /** A version that another writer moved on is what sends a result to the retry. */
  lemma LostRaceRetries(m: Machine, worker: string, token: nat, e: Event, version: nat, x: Execution)
    requires e.runId == m.db.runId && WellFormed(e) && version <= MAX_BIGINT && !HasCredential(e.data)
    requires CheckMode(m.db, e).None? && m.db.row.Some? && FindKey(m.db.log, e.key).None?
    ensures WorkStep(m, worker, token, Finishing(e, version, false), x).phase == Conflicted(e) <==> Version(m.db) != version
  {
    hide Fold, CheckMode, CheckReceipt, FindKey;
    if Version(m.db) == version {
      CrashTransparency.NoConflict(m.db, version, e);
    }
  }

  /** Calls with a deterministic conforming executor, among quiet moves of others, keep crash transparency. */
  lemma CallsStayTransparent(exec: Chain.Executor, start: Machine, token: nat, executor: (State, Command) -> Execution,
                             origin: seq<Move>, begun: nat, schedule: seq<Move>)
    requires OnePass(start, token, executor, origin, begun, schedule) && Leader.Transparent(exec, Reached(start, origin))
    requires Chain.Conforming(exec, Reached(start, origin).db.runId) && Chain.AllScoped()
    requires forall s, c :: executor(s, c) == Chain.Perform(exec, s, c)
    requires forall k :: |origin| <= k < |schedule| && Foreign(schedule[k], token) ==>
               CrashTransparency.Quiet(exec, Reached(start, schedule[..k]), schedule[k])
    ensures Leader.Transparent(exec, Reached(start, schedule))
  {
    hide Chain.Conforming, Chain.AllScoped, Leader.Transparent, Next, Chain.Perform;
    forall k | |origin| <= k < |schedule|
      ensures CrashTransparency.Quiet(exec, Reached(start, schedule[..k]), schedule[k])
    {
      if !Foreign(schedule[k], token) {
        assert OwnMove(start, token, executor, begun, schedule, k);
      }
    }
    CrashTransparency.TransparentAlong(exec, start, origin, schedule);
  }
}
