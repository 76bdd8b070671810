/**
  Leases exclude each other: who can take a lease and when, what a lease allows,
  and that between a grant and its expiry nobody else holds the Run.
*/
module LeaseLaws {
  import opened Wrappers
  import opened Types
  import opened Reducer
  import opened Projection
  import opened EventStore
  import opened Evidence
  import opened Scans
  import opened ReceiptScan
  import opened Database
  import opened StoreInvariants

  predicate Unexpired(db: Tables) {
    db.lease.Some? && db.clock < db.lease.value.expiresAt
  }

  /** The holder named in the lease row, while the row is unexpired. */
  predicate Holder(db: Tables, worker: string, token: nat) {
    Unexpired(db) && db.lease.value.worker == worker && db.lease.value.token == token
  }

  /** Being current is holding the unexpired row; in particular nobody is current after its expiry. */
  lemma CurrentIsHolder(db: Tables, worker: string, token: nat)
    requires FencingRules(db)
    ensures Current(db, worker, token) <==> Holder(db, worker, token)
  {
    hide LogHeld, ReceiptsHeld, TokensOrdered;
  }

  /** Every answer of Acquire and what it changes, by worker, Run, lease row and clock. */
  lemma AcquireLaw(db: Tables, worker: string, ttl: int)
    requires Consistent(db)
    ensures
      var r, after := AcquireAnswer(db, worker, ttl), AfterAcquire(db, worker, ttl);
      && after == db.(lease := if r.Success? then Some(r.value) else db.lease)
      && r == (if worker == "" || ttl <= 0 then Failure(InvalidLease)
               else if worker !in db.workers then Failure(WorkerNotFound)
               else if db.log == [] then Failure(UnknownRun)
               else if db.lease.None? && LegacyPending(Final(db.log)) then Failure(LegacyExecutionInProgress)
               else if Unexpired(db) && db.lease.value.worker != worker then Failure(LeaseHeld)
               else if Unexpired(db) then Success(db.lease.value)
               else if db.lease.Some? && db.lease.value.token == MAX_BIGINT then Failure(InvalidLease)
               else Success(Lease(worker, if db.lease.Some? then db.lease.value.token + 1 else 1, db.clock + ttl)))
  {
    hide Fold, UnresolvedLegacyAction, LegacyPending, LogHeld, ReceiptsHeld, TokensOrdered, ModeRules, EvidenceRules;
    LegacyScanAgrees(db.log);
  }

  /** An unexpired lease shuts every other worker out and is handed back unchanged to its own. */
  lemma UnexpiredExcludes(db: Tables, worker: string, ttl: int)
    requires Consistent(db) && Unexpired(db)
    ensures AfterAcquire(db, worker, ttl) == db
    ensures AcquireAnswer(db, worker, ttl).Success? ==>
              worker == db.lease.value.worker && AcquireAnswer(db, worker, ttl).value == db.lease.value
  {
    hide Fold, LegacyPending, Consistent, AcquireAnswer, AfterAcquire;
    AcquireLaw(db, worker, ttl);
    ConsistentNonempty(db);
  }

  lemma ConsistentNonempty(db: Tables)
    requires Consistent(db)
    ensures ValidLog(db.log) && (db.lease.Some? ==> db.log != [])
  {
    hide Fold, FencingRules, ModeRules, NothingSplit, EvidenceRules;
  }

  /** A grant makes its worker the holder. */
  lemma GrantHolds(db: Tables, worker: string, ttl: int)
    requires Consistent(db) && AcquireAnswer(db, worker, ttl).Success?
    ensures Holder(AfterAcquire(db, worker, ttl), worker, AcquireAnswer(db, worker, ttl).value.token)
  {
    hide Fold, LegacyPending, Consistent, AcquireAnswer, AfterAcquire;
    ConsistentNonempty(db);
    AcquireLaw(db, worker, ttl);
  }

  /** Renewal succeeds for exactly the holder, and sets exactly the expiry. */
  lemma RenewLaw(db: Tables, auth: Authority, ttl: int)
    requires FencingRules(db)
    ensures AfterRenew(db, auth, ttl)
            == if ttl > 0 && Holder(db, auth.worker, auth.token)
               then db.(lease := Some(db.lease.value.(expiresAt := db.clock + ttl)))
               else db
  {
    hide LogHeld, ReceiptsHeld, TokensOrdered;
  }

  /** How a presented lease is refused. */
  lemma AuthorityLaw(db: Tables, auth: Authority)
    requires FencingRules(db)
    ensures CheckAuthority(db, auth)
            == if auth.worker == "" || auth.token == 0 || auth.token > MAX_BIGINT then Some(InvalidLease)
               else if db.lease.None? then Some(LeaseNotFound)
               else if db.lease.value.worker != auth.worker || db.lease.value.token != auth.token then Some(StaleLease)
               else if db.lease.value.expiresAt <= db.clock then Some(LeaseExpiredError)
               else None
  {
    hide LogHeld, ReceiptsHeld, TokensOrdered;
  }

  /** No transaction changes the worker or the token of an unexpired lease; only its holder moves its expiry. */
  lemma LeaseStable(db: Tables, op: Op)
    requires Consistent(db) && Unexpired(db)
    ensures
      var after := Do(db, op);
      && after.clock >= db.clock
      && after.lease
         == if op.Renew? && op.ttl > 0 && Holder(db, op.auth.worker, op.auth.token)
            then Some(db.lease.value.(expiresAt := db.clock + op.ttl))
            else db.lease
  {
    hide Fold, Consistent, AppendAnswer, AcquireAnswer, AfterAcquire, ReceiptOutcome, CheckAuthority, AfterRenew;
    assert FencingRules(db) by { ConsistentParts(db); }
    match op
    case Acquire(worker, ttl) => UnexpiredExcludes(db, worker, ttl);
    case Renew(auth, ttl) => RenewLaw(db, auth, ttl);
    case _ =>
  }

  /** What only a holder can do: store a fenced event, or anything of a managed action, or a receipt. */
  lemma WritesNeedHolder(db: Tables, op: Op)
    requires Consistent(db)
    ensures
      var after := Do(db, op);
      && (after.log != db.log ==>
            && |after.log| == |db.log| + 1
            && var e := after.log[|db.log|];
            (Fenced(e) || ManagedKind(e.kind) || (db.lease.Some? && e.kind != DesiredStateChanged) ==> Holder(db, e.worker, e.token)))
      && (after.receipts != db.receipts ==>
            op.RecordReceipt? && Holder(db, op.auth.worker, op.auth.token))
  {
    hide Fold, Consistent, AppendAnswer, AcquireAnswer, ReceiptOutcome, CheckAuthority, AfterAppend, CheckMode;
    assert FencingRules(db) && Derived(db) by { ConsistentParts(db); }
    match op
    case Append(expected, event) =>
      if event.runId == db.runId && AppendAnswer(db, expected, event).Appended? {
        var stored := AppendAdmits(db, expected, event);
        AdmittedHolder(db, stored);
      } else if event.runId == db.runId {
        NotAppended(db, expected, event);
      }
    case RecordReceipt(auth, receipt) => RecordedHolder(db, auth, receipt);
    case _ =>
  }

  lemma NotAppended(db: Tables, expected: nat, e: Event)
    requires e.runId == db.runId && !AppendAnswer(db, expected, e).Appended?
    ensures AfterAppend(db, expected, e) == db
  {
    hide AppendAnswer, Fold;
  }

  lemma AdmittedHolder(db: Tables, e: Event)
    requires Derived(db) && FencingRules(db) && Admitted(db, e)
    ensures Fenced(e) || ManagedKind(e.kind) || (db.lease.Some? && e.kind != DesiredStateChanged) ==> Holder(db, e.worker, e.token)
  {
    hide LogHeld, ReceiptsHeld, TokensOrdered, Fold, CheckReceipt;
    AdmittedMode(db, e);
  }

  lemma RecordedHolder(db: Tables, auth: Authority, receipt: Receipt)
    requires FencingRules(db)
    ensures AfterReceipt(db, auth, receipt).receipts != db.receipts ==> Holder(db, auth.worker, auth.token)
    ensures AfterReceipt(db, auth, receipt).log == db.log
  {
    hide LogHeld, ReceiptsHeld, TokensOrdered, ReceiptPlan, ValidateEvidence, Insertable;
  }

  // ----- over histories -----

  /** The tables after more transactions, in order. */
  function DoAll(db: Tables, ops: seq<Op>): Tables {
    if ops == [] then db else Do(DoAll(db, ops[..|ops| - 1]), ops[|ops| - 1])
  }

  lemma {:induction false} ConsistentAlong(db: Tables, ops: seq<Op>)
    requires Consistent(db)
    ensures Consistent(DoAll(db, ops))
  {
    hide Do, Consistent;
    if ops != [] {
      ConsistentAlong(db, ops[..|ops| - 1]);
      DoKeeps(DoAll(db, ops[..|ops| - 1]), ops[|ops| - 1]);
    }
  }

  /** The holder's own renewals never move the expiry before `until`. */
  ghost predicate NeverShortened(db: Tables, ops: seq<Op>, auth: Authority, until: int) {
    forall k :: 0 <= k < |ops| && ops[k].Renew? && ops[k].auth == auth && ops[k].ttl > 0 ==>
      DoAll(db, ops[..k]).clock + ops[k].ttl >= until
  }

  lemma ClockMoves(db: Tables, op: Op)
    ensures Do(db, op).clock >= db.clock
  {
    hide Fold, AppendAnswer, AcquireAnswer, ReceiptOutcome, CheckAuthority;
  }

  lemma {:induction false} LeaseLasts(db: Tables, ops: seq<Op>, worker: string, token: nat, until: int)
    requires Consistent(db) && Holder(db, worker, token) && until <= db.lease.value.expiresAt
    requires NeverShortened(db, ops, Authority(worker, token), until) && DoAll(db, ops).clock < until
    ensures Consistent(DoAll(db, ops)) && Holder(DoAll(db, ops), worker, token)
    ensures DoAll(db, ops).lease.value.expiresAt >= until
    decreases |ops|
  {
    hide Do, Consistent;
    ConsistentAlong(db, ops);
    if ops != [] {
      var n := |ops| - 1;
      var before := DoAll(db, ops[..n]);
      ClockMoves(before, ops[n]);
      assert NeverShortened(db, ops[..n], Authority(worker, token), until) by {
        assert forall k :: 0 <= k < n ==> ops[..n][..k] == ops[..k] && ops[..n][k] == ops[k];
      }
      LeaseLasts(db, ops[..n], worker, token, until);
      LeaseStable(before, ops[n]);
    }
  }

  /**
    Mutual exclusion: from a grant until its expiry, through any transactions of anyone,
    exactly the granted worker with the granted token is current, unless that worker itself
    renewed for a shorter time.
  */
  lemma LeaseExcludes(db: Tables, ops: seq<Op>, worker: string, token: nat, other: string, presented: nat)
    requires Consistent(db) && Holder(db, worker, token)
    requires NeverShortened(db, ops, Authority(worker, token), db.lease.value.expiresAt)
    requires DoAll(db, ops).clock < db.lease.value.expiresAt
    ensures Current(DoAll(db, ops), other, presented) <==> other == worker && presented == token
  {
    hide Consistent, Do, Current;
    LeaseLasts(db, ops, worker, token, db.lease.value.expiresAt);
    var after := DoAll(db, ops);
    assert FencingRules(after) by { ConsistentParts(after); }
    CurrentIsHolder(after, other, presented);
  }

  /** The exception is real: a holder that renews for one unit hands over after that unit, before the granted expiry. */
  lemma ShorteningHandsOver(db: Tables, worker: string, token: nat, other: string)
    requires Consistent(db) && Holder(db, worker, token) && db.clock + 1 < db.lease.value.expiresAt
    requires other != "" && other in db.workers && token < MAX_BIGINT
    ensures
      var after := DoAll(db, [Renew(Authority(worker, token), 1), Tick(1), Acquire(other, 1)]);
      after.clock < db.lease.value.expiresAt && Current(after, other, token + 1)
  {
    hide Consistent, Fold, UnresolvedLegacyAction, Current, CheckAuthority, AfterRenew, AfterAcquire, AcquireAnswer, LegacyPending;
    var renew, tick, acquire := Renew(Authority(worker, token), 1), Tick(1), Acquire(other, 1);
    assert [renew, tick, acquire][..2] == [renew, tick] && [renew, tick][..1] == [renew] && [renew][..0] == [];
    assert FencingRules(db) by { ConsistentParts(db); }
    RenewLaw(db, Authority(worker, token), 1);
    var renewed := Do(db, renew);
    DoKeeps(db, renew);
    var later := Do(renewed, tick);
    DoKeeps(renewed, tick);
    ConsistentNonempty(later);
    AcquireLaw(later, other, 1);
    var after := Do(later, acquire);
    DoKeeps(later, acquire);
    assert FencingRules(after) by { ConsistentParts(after); }
    CurrentIsHolder(after, other, token + 1);
    assert DoAll(db, [renew]) == renewed;
    assert DoAll(db, [renew, tick]) == later;
    assert DoAll(db, [renew, tick, acquire]) == after;
  }
}
