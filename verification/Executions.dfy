/** Every execution is accounted for, under every schedule. */
module Executions {
  import opened Types
  import opened Decider
  import opened Projection
  import opened EventStore
  import opened Evidence
  import opened ReceiptScan
  import opened Database
  import opened Managed

  predicate Holds(p: Process, x: Action) {
    p.phase.Executed? && ActionOf(p.phase.command) == x
  }

  /** The processes that hold a result of this action which no receipt records yet. */
  function InFlight(procs: map<nat, Process>, x: Action): set<nat> {
    set t | t in procs && Holds(procs[t], x)
  }

  function Count(b: bool): nat {
    if b then 1 else 0
  }

  predicate Receipted(db: Tables, x: Action) {
    x.id in db.receipts && db.receipts[x.id].kind == x.kind
  }

  /** Executions whose result reached no receipt. */
  function Losses(t: Tally, x: Action): nat {
    t.broken[x] + t.crashed[x] + t.fencedOut[x] + t.rejected[x]
  }

  /** A held result is addressed to the action it was executed for. */
  predicate Fits(p: Process) {
    p.phase.Executed? ==> p.phase.receipt.actionId == p.phase.command.actionId && p.phase.receipt.kind == p.phase.command.kind
  }

  ghost predicate Balanced(m: Machine) {
    && (forall t :: t in m.procs ==> Fits(m.procs[t]))
    && forall x :: m.tally.executed[x] == Count(Receipted(m.db, x)) + Losses(m.tally, x) + |InFlight(m.procs, x)|
  }

  lemma InFlightUpdate(procs: map<nat, Process>, t: nat, p: Process, x: Action)
    requires t in procs
    ensures |InFlight(procs[t := p], x)| == |InFlight(procs, x)| - Count(Holds(procs[t], x)) + Count(Holds(p, x))
  {
    var rest := InFlight(procs, x) - {t};
    assert InFlight(procs, x) == if Holds(procs[t], x) then rest + {t} else rest;
    assert InFlight(procs[t := p], x) == if Holds(p, x) then rest + {t} else rest;
  }

  /** What a process step does to the books of one action. */
  ghost predicate Books(m: Machine, phase: Phase, moved: Effect, x: Action) {
    moved.tally.executed[x] + Count(Receipted(m.db, x)) + Losses(m.tally, x) + Count(Holds(Process("", phase), x))
    == m.tally.executed[x] + Count(Receipted(moved.db, x)) + Losses(moved.tally, x)
       + Count(Holds(Process("", moved.phase), x))
  }

  lemma RecordBooks(m: Machine, worker: string, token: nat, s: State, c: Command, version: nat, r: Receipt, x: Action)
    requires r.actionId == c.actionId && r.kind == c.kind
    ensures Books(m, Executed(s, c, version, r), Record(m, worker, token, s, c, version, r), x)
    ensures !Record(m, worker, token, s, c, version, r).phase.Executed?
  {
    hide ReceiptPlan, ValidateEvidence, Insertable, CheckAuthority, HasCredential;
  }

  lemma AppendBooks(db: Tables, expected: nat, e: Event)
    requires e.runId == db.runId
    ensures AfterAppend(db, expected, e).receipts == db.receipts
  {
    hide AppendAnswer, Fold;
  }

  lemma ExecuteBooks(m: Machine, worker: string, token: nat, s: State, c: Command, version: nat, x: Execution, a: Action)
    ensures
      var moved := Execute(m, worker, token, s, c, version, x);
      Books(m, Ready(s, c, version), moved, a) && Fits(Process(worker, moved.phase))
  {
  }

  lemma PlanBooks(m: Machine, worker: string, token: nat, s: State, a: Action)
    ensures
      var moved := Plan(m, worker, token, s);
      Books(m, Loaded(s), moved, a) && !moved.phase.Executed?
  {
    hide AppendAnswer, AfterAppend, Fold, Decide;
    AppendBooks(m.db, s.run.version, PlannedEvent(m.db.runId, worker, token, Decide(s)));
  }

  lemma FinishBooks(m: Machine, e: Event, version: nat, retried: bool, a: Action)
    requires e.runId == m.db.runId
    ensures
      var moved := Finish(m, e, version, retried);
      Books(m, Finishing(e, version, retried), moved, a) && !moved.phase.Executed?
  {
    hide AppendAnswer, AfterAppend, Fold;
    AppendBooks(m.db, version, e);
  }

  lemma WorkBooks(m: Machine, worker: string, token: nat, phase: Phase, x: Execution, a: Action)
    requires Fits(Process(worker, phase))
    ensures
      var moved := WorkStep(m, worker, token, phase, x);
      Books(m, phase, moved, a) && Fits(Process(worker, moved.phase))
  {
    hide Fold, Record, Execute, Plan, Finish, Recover, EvidenceHolds, CheckAuthority, Losses, Receipted, Load;
    match phase
    case Executed(s, c, version, r) => RecordBooks(m, worker, token, s, c, version, r, a);
    case Finishing(e, version, retried) =>
      if e.runId == m.db.runId {
        FinishBooks(m, e, version, retried, a);
      }
    case Loaded(s) =>
      PlanBooks(m, worker, token, s, a);
      RecoverHoldsNothing(m.db, worker, token, s);
    case Ready(s, c, version) => ExecuteBooks(m, worker, token, s, c, version, x, a);
    case _ =>
  }

  lemma RecoverHoldsNothing(db: Tables, worker: string, token: nat, s: State)
    ensures !Recover(db, worker, token, s).Executed?
  {
  }

  lemma WorkBalances(m: Machine, token: nat, x: Execution)
    requires Balanced(m) && token in m.procs
    ensures Balanced(Worked(m, token, x))
  {
    hide WorkStep, Fold, Receipted, InFlight, Losses;
    var p := m.procs[token];
    var after := Worked(m, token, x);
    forall a
      ensures after.tally.executed[a] == Count(Receipted(after.db, a)) + Losses(after.tally, a) + |InFlight(after.procs, a)|
    {
      WorkBooks(m, p.worker, token, p.phase, x, a);
      InFlightUpdate(m.procs, token, after.procs[token], a);
    }
    WorkBooks(m, p.worker, token, p.phase, x, Action(Noop, ""));
  }

  lemma CrashBalances(m: Machine, token: nat)
    requires Balanced(m) && token in m.procs
    ensures Balanced(Crashed(m, token))
  {
    hide InFlight;
    var after := Crashed(m, token);
    forall a
      ensures after.tally.executed[a] == Count(Receipted(after.db, a)) + Losses(after.tally, a) + |InFlight(after.procs, a)|
    {
      InFlightUpdate(m.procs, token, after.procs[token], a);
    }
  }

  lemma OutsideKeepsReceipts(db: Tables, op: Op)
    requires Outside(op)
    ensures Do(db, op).receipts == db.receipts
  {
    hide AppendAnswer, CheckAuthority, Fold;
  }

  lemma AcquireBalances(m: Machine, worker: string, ttl: int)
    requires Balanced(m)
    ensures Balanced(Acquired(m, worker, ttl))
  {
    hide AcquireAnswer;
    var after := Acquired(m, worker, ttl);
    forall x
      ensures InFlight(after.procs, x) == InFlight(m.procs, x)
    {
    }
  }

  lemma StepBalances(m: Machine, step: Move)
    requires Balanced(m)
    ensures Balanced(Next(m, step))
  {
    hide Balanced, Worked, Crashed, Acquired, Do;
    match step
    case Environment(op) =>
      if Outside(op) {
        OutsideKeepsReceipts(m.db, op);
        SameBooks(m, m.(db := Do(m.db, op)));
      }
    case AcquireLease(worker, ttl) => AcquireBalances(m, worker, ttl);
    case Crash(token) =>
      if token in m.procs {
        CrashBalances(m, token);
      }
    case Work(token, x) =>
      if token in m.procs {
        WorkBalances(m, token, x);
      }
  }

  lemma SameBooks(m: Machine, after: Machine)
    requires Balanced(m) && after == m.(db := after.db) && after.db.receipts == m.db.receipts
    ensures Balanced(after)
  {
    hide InFlight, Losses;
    assert forall x :: Receipted(after.db, x) == Receipted(m.db, x);
  }

  /**
    Under every schedule of steps, crashes and takeovers, an action was executed
    once for its receipt, once per result lost to a crash, to fencing, to an
    executor error or to a refused receipt, and once per result still held.
  */
  lemma ExecutionsAccounted(runId: string, schedule: seq<Move>, x: Action)
    ensures
      var m := Reached(Start(runId), schedule);
      m.tally.executed[x]
      == Count(Receipted(m.db, x)) + m.tally.crashed[x] + m.tally.fencedOut[x] + m.tally.broken[x] + m.tally.rejected[x]
         + |InFlight(m.procs, x)|
  {
    hide Next;
    RunBalanced(runId, schedule);
  }

  lemma {:induction false} RunBalanced(runId: string, schedule: seq<Move>)
    ensures Balanced(Reached(Start(runId), schedule))
  {
    hide Next;
    if schedule != [] {
      var n := |schedule| - 1;
      RunBalanced(runId, schedule[..n]);
      StepBalances(Reached(Start(runId), schedule[..n]), schedule[n]);
    }
  }
}
