/**
  What holds of the tables after every history of transactions, whatever the
  callers and their interleaving: the derived rows are the projection, and
  the fencing tokens, the execution modes and the receipts line up with the log.
*/
module StoreInvariants {
  import opened Wrappers
  import opened Types
  import opened Reducer
  import opened Projection
  import opened Lifecycle
  import opened Effects
  import opened Evidence
  import opened EventStore
  import opened Scans
  import opened ReceiptScan
  import opened Database

  // ----- the invariants -----

  /** The attempt rows a projection accounts for. */
  function AttemptsOf(s: State): seq<AttemptRow> {
    if s.run.currentAttempt == 0 then [] else [AttemptRow(s.attemptId, s.run.currentAttempt)]
  }

  /** Run row and attempt rows are exactly the projection of the log. */
  ghost predicate Derived(db: Tables) {
    && ValidLog(db.log)
    && (forall i :: 0 <= i < |db.log| ==> db.log[i].runId == db.runId)
    && db.row == (if db.log == [] then None else Some(RowOf(Final(db.log))))
    && db.attempts == AttemptsOf(Final(db.log))
    && (db.lease.Some? ==> db.log != [])
  }

  predicate Fenced(e: Event) {
    e.worker != "" || e.token != 0
  }

  predicate Token(worker: string, token: nat) {
    worker != "" && 0 < token <= MAX_BIGINT
  }

  /** `worker` held `token` no later than the current lease. */
  predicate HeldBy(db: Tables, worker: string, token: nat) {
    && Token(worker, token)
    && db.lease.Some? && token <= db.lease.value.token
    && (token == db.lease.value.token ==> worker == db.lease.value.worker)
  }

  ghost predicate LogHeld(db: Tables) {
    forall i :: 0 <= i < |db.log| && Fenced(db.log[i]) ==> HeldBy(db, db.log[i].worker, db.log[i].token)
  }

  ghost predicate ReceiptsHeld(db: Tables) {
    forall a :: a in db.receipts ==> HeldBy(db, db.receipts[a].worker, db.receipts[a].token)
  }

  /** Fenced events carry non-decreasing tokens, and equal tokens mean the same worker. */
  ghost predicate TokensOrdered(log: seq<Event>) {
    forall i, j :: 0 <= i <= j < |log| && Fenced(log[i]) && Fenced(log[j]) ==>
      log[i].token <= log[j].token && (log[i].token == log[j].token ==> log[i].worker == log[j].worker)
  }

  ghost predicate FencingRules(db: Tables) {
    && (db.lease.Some? ==> Token(db.lease.value.worker, db.lease.value.token))
    && LogHeld(db) && ReceiptsHeld(db)
    && TokensOrdered(db.log)
  }

  predicate ManagedKind(kind: EventType) {
    kind.LeaseFact() || kind == ActionPlanned || kind == ActionCompleted || kind == ActionFailed
  }

  predicate UnmanagedKind(kind: EventType) {
    kind == RunCreated || LegacyResult(kind)
  }

  ghost predicate ModeOf(e: Event) {
    && (e.kind == DesiredStateChanged || UnmanagedKind(e.kind) || ManagedKind(e.kind))
    && (UnmanagedKind(e.kind) ==> !Fenced(e))
    && (ManagedKind(e.kind) ==> Fenced(e))
  }

  ghost predicate ModeRules(db: Tables) {
    && (forall i :: 0 <= i < |db.log| ==> ModeOf(db.log[i]))
    && (forall i :: 0 <= i < |db.log| && ManagedKind(db.log[i].kind) ==> db.lease.Some?)
    && (forall i, j :: 0 <= i < j < |db.log| && ManagedKind(db.log[i].kind) ==> !UnmanagedKind(db.log[j].kind))
  }

  /** No action is split across the two event models: a managed Run has no legacy action pending. */
  ghost predicate NothingSplit(db: Tables) {
    ValidLog(db.log) && (db.lease.Some? ==> !LegacyPending(Final(db.log)))
  }

  ghost predicate PlannedBy(log: seq<Event>, i: int, r: Receipt) {
    0 <= i < |log| && PlanRow(log[i], r.actionId, r.kind, r.scope) && log[i].token <= r.token
  }

  ghost predicate HasPlan(log: seq<Event>, n: nat, r: Receipt) {
    exists i :: i < n && PlannedBy(log, i, r)
  }

  ghost predicate ReceiptsPlanned(db: Tables) {
    forall a :: a in db.receipts ==> db.receipts[a].actionId == a && HasPlan(db.log, |db.log|, db.receipts[a])
  }

  /** plan token <= receipt token <= completion token, around one immutable receipt. */
  ghost predicate Sandwiched(db: Tables, j: nat)
    requires j < |db.log|
  {
    var d := db.log[j].data;
    && d.actionId in db.receipts
    && CompletionOf(db.receipts[d.actionId]) == d
    && HasPlan(db.log, j, db.receipts[d.actionId])
    && db.receipts[d.actionId].token <= db.log[j].token
  }

  ghost predicate CompletionsSandwiched(db: Tables) {
    forall j :: 0 <= j < |db.log| && db.log[j].kind == ActionCompleted ==> Sandwiched(db, j)
  }

  ghost predicate EvidenceRules(db: Tables) {
    ReceiptsPlanned(db) && CompletionsSandwiched(db)
  }

  ghost predicate Consistent(db: Tables) {
    Derived(db) && FencingRules(db) && ModeRules(db) && NothingSplit(db) && EvidenceRules(db)
  }

  // ----- an accepted append -----

  /** What Append has established about an event it stores. */
  ghost predicate Admitted(db: Tables, e: Event) {
    && e.runId == db.runId
    && CheckMode(db, e).None?
    && (db.row.None? ==> e.kind == RunCreated)
    && (e.kind == ActionCompleted ==> CheckReceipt(db, e.data).None?)
    && ValidLog(db.log + [e])
  }

  lemma AppendAdmits(db: Tables, expected: nat, e: Event) returns (stored: Event)
    requires e.runId == db.runId && AppendAnswer(db, expected, e).Appended?
    ensures AppendAnswer(db, expected, e) == Appended(stored)
    ensures stored == Numbered(db, expected, e) && Admitted(db, stored)
    ensures AfterAppend(db, expected, e) == Commit(db, stored, Final(db.log + [stored]))
  {
    hide Fold, CheckReceipt, FindKey;
    stored := Numbered(db, expected, e);
  }

  // ----- derived rows -----

  predicate StartsAttempt(e: Event, t: State) {
    || e.kind == AttemptStarted
    || (e.kind == ActionCompleted && e.data.actionType == StartAttempt && t.run.currentAttempt > 0)
  }

  ghost predicate AttemptStep(s: State, e: Event, t: State) {
    if StartsAttempt(e, t) then
      s.run.currentAttempt == 0 && t.run.currentAttempt == 1 && t.attemptId == e.data.attemptId
    else t.run.currentAttempt == s.run.currentAttempt && t.attemptId == s.attemptId
  }

  lemma AdvanceAttempts(s: State, next: Status)
    ensures Advance(s, next).Ok? ==>
              Advance(s, next).value.run.currentAttempt == s.run.currentAttempt && Advance(s, next).value.attemptId == s.attemptId
    ensures Transition(s, next).Ok? ==>
              Transition(s, next).value.run.currentAttempt == s.run.currentAttempt && Transition(s, next).value.attemptId == s.attemptId
  {
    hide ValidateTransition;
  }

  lemma LegacyAttempts(s: State, e: Event)
    requires Reachable(s) && ApplyLegacy(s, e.kind, e.data).Ok?
    ensures e.kind != ActionCompleted && AttemptStep(s, e, ApplyLegacy(s, e.kind, e.data).value)
  {
    hide Advance, Transition, PendingRules, StatusRules;
    match e.kind
    case AttemptStarted => AdvanceAttempts(Attempted(s, e.data.attemptId), Provisioning);
    case WorkspaceProvisioned => AdvanceAttempts(s, Reasoning);
    case ReasoningCompleted => AdvanceAttempts(Reasoned(s, e.data).(pendingId := ""), Acting);
    case PatchProduced => AdvanceAttempts(s.(patchProduced := true), Verifying);
    case RunSucceeded => AdvanceAttempts(s, Succeeded);
    case RunFailed =>
      AdvanceAttempts(s.(failureReason := if e.data.reason != "" then e.data.reason else s.failureReason, pendingId := ""), Failed);
    case RunCancelled => AdvanceAttempts(s.(pendingId := ""), Cancelled);
    case _ =>
  }

  lemma ResultAttempts(s: State, d: EventData)
    requires ApplyResult(s, d).Ok?
    ensures
      var t := ApplyResult(s, d).value;
      if d.actionType == StartAttempt then t.run.currentAttempt == s.run.currentAttempt + 1 && t.attemptId == d.attemptId
      else t.run.currentAttempt == s.run.currentAttempt && t.attemptId == s.attemptId
  {
    hide Advance;
    match d.actionType
    case StartAttempt => AdvanceAttempts(Attempted(s, d.attemptId), Provisioning);
    case ProvisionWorkspace => AdvanceAttempts(s, Reasoning);
    case RunReasoner => AdvanceAttempts(Reasoned(s, d), Acting);
    case ApplyPatch => AdvanceAttempts(s.(patchProduced := true), Verifying);
    case SucceedRun => AdvanceAttempts(s, Succeeded);
    case FailRun => AdvanceAttempts(s.(failureReason := if d.reason != "" then d.reason else s.failureReason), Failed);
    case CancelRun => AdvanceAttempts(s, Cancelled);
    case _ =>
  }

  lemma StartsFromNone(s: State)
    requires Reachable(s) && s.pendingType == StartAttempt
    ensures s.run.currentAttempt == 0
  {
  }

  /** A StartAttempt completion that loses to cancel starts no attempt. */
  lemma CompletionAttempts(s: State, e: Event)
    requires Reachable(s) && e.kind == ActionCompleted && ApplyActionCompleted(s, e.data).Ok?
    ensures AttemptStep(s, e, ApplyActionCompleted(s, e.data).value)
  {
    hide ApplyResult, Reachable;
    if e.data.actionType == StartAttempt {
      StartsFromNone(s);
    }
    if !CancelWins(s, e.data) {
      ResultAttempts(s, e.data);
    }
  }

  lemma FailureAttempts(s: State, e: Event)
    requires e.kind == ActionFailed && ApplyActionFailed(s, e.data).Ok?
    ensures AttemptStep(s, e, ApplyActionFailed(s, e.data).value)
  {
    hide Allowed;
  }

  lemma AttemptEffect(s: State, e: Event)
    requires Reachable(s) && ApplyEvent(s, e).Ok?
    ensures AttemptStep(s, e, ApplyEvent(s, e).value)
  {
    hide ApplyLegacy, ApplyActionCompleted, ApplyDesired, ApplyActionPlanned, ApplyActionFailed, Reachable;
    if e.kind == ActionCompleted {
      CompletionAttempts(s, e);
    } else if e.kind == ActionFailed {
      FailureAttempts(s, e);
    } else if e.kind == ActionPlanned {
      PlanEffect(s, e.data);
    } else if e.kind == DesiredStateChanged {
      DesiredEffect(s, e.data.desired);
    } else if e.kind == RunCreated {
      CreatedAttempts(s, e);
    } else if !e.kind.LeaseFact() {
      LegacyAttempts(s, e);
    }
  }

  lemma CreatedAttempts(s: State, e: Event)
    requires Reachable(s) && ApplyCreated(s, e).Ok?
    ensures ApplyCreated(s, e).value.run.currentAttempt == s.run.currentAttempt == 0
    ensures ApplyCreated(s, e).value.attemptId == s.attemptId
  {
  }

  /** One event of a valid log, without its bookkeeping. */
  lemma LastStep(log: seq<Event>, e: Event) returns (t: State)
    requires ValidLog(log + [e])
    ensures ValidLog(log) && Reachable(Final(log)) && (log == [] <==> !Final(log).present)
    ensures ApplyEvent(Final(log), e) == Ok(t) && Final(log + [e]) == Stamp(t, e)
  {
    hide Fold, ApplyEvent, Stamp, Reachable;
    assert (log + [e])[..|log|] == log && (log + [e])[..|log| + 1] == log + [e];
    StepAt(log + [e], |log|);
    t := ApplyEvent(Final(log), e).value;
  }

  lemma StampAttempts(s: State, t: State, e: Event)
    requires AttemptStep(s, e, t)
    ensures AttemptStep(s, e, Stamp(t, e))
  {
  }

  lemma DerivedAfterCommit(db: Tables, e: Event)
    requires Derived(db) && Admitted(db, e)
    ensures Derived(Commit(db, e, Final(db.log + [e])))
  {
    hide Fold, ApplyEvent, Stamp, Reachable, CheckMode, CheckReceipt;
    var t := LastStep(db.log, e);
    AttemptEffect(Final(db.log), e);
    StampAttempts(Final(db.log), t, e);
  }

  // ----- fencing -----

  lemma AdmittedFence(db: Tables, e: Event)
    requires Admitted(db, e) && (Fenced(e) || ManagedKind(e.kind))
    ensures Fenced(e) && Token(e.worker, e.token)
    ensures db.lease.Some? && db.lease.value.token == e.token && db.lease.value.worker == e.worker
  {
    hide Fold, CheckReceipt;
  }

  lemma FencingAfterCommit(db: Tables, e: Event, s: State)
    requires FencingRules(db) && Admitted(db, e)
    ensures FencingRules(Commit(db, e, s))
  {
    hide Admitted;
    if Fenced(e) {
      AdmittedFence(db, e);
    }
  }

  // ----- mode -----

  lemma KindsKnown(s: State, e: Event)
    requires ApplyEvent(s, e).Ok?
    ensures e.kind == DesiredStateChanged || UnmanagedKind(e.kind) || ManagedKind(e.kind)
    ensures e.kind == RunCreated ==> !s.present
  {
    hide ApplyLegacy, ApplyDesired, ApplyActionCompleted, ApplyActionFailed, ApplyActionPlanned;
    if ApplyLegacy(s, e.kind, e.data).Ok? {
      LegacyEffect(s, e.kind, e.data);
    }
  }

  /** In managed mode neither a creation nor a legacy event is admitted. */
  lemma AdmittedMode(db: Tables, e: Event)
    requires Derived(db) && Admitted(db, e)
    ensures ModeOf(e)
    ensures db.lease.Some? ==> !UnmanagedKind(e.kind)
  {
    hide Fold, CheckReceipt, ApplyEvent, Stamp, Reachable;
    var t := LastStep(db.log, e);
    KindsKnown(Final(db.log), e);
  }

  lemma ModeAfterCommit(db: Tables, e: Event, s: State)
    requires Derived(db) && ModeRules(db) && Admitted(db, e)
    ensures ModeRules(Commit(db, e, s))
  {
    hide Admitted, Derived, ModeOf;
    AdmittedMode(db, e);
    if ManagedKind(e.kind) {
      AdmittedFence(db, e);
    }
  }

  lemma LegacyPendingKept(s: State, e: Event)
    requires Reachable(s) && ApplyEvent(s, e).Ok? && !LegacyPending(s) && !UnmanagedKind(e.kind)
    ensures !LegacyPending(ApplyEvent(s, e).value)
  {
    hide ApplyLegacy, ApplyActionCompleted, ApplyDesired, ApplyActionPlanned, ApplyActionFailed, Reachable;
    if e.kind == ActionCompleted {
      CompletionEffect(s, e.data);
    } else if e.kind == ActionFailed {
      FailureEffect(s, e.data);
    } else if e.kind == ActionPlanned {
      PlanEffect(s, e.data);
    } else if e.kind == DesiredStateChanged {
      DesiredEffect(s, e.data.desired);
    } else if ApplyLegacy(s, e.kind, e.data).Ok? {
      LegacyEffect(s, e.kind, e.data);
    }
  }

  lemma StampPending(t: State, e: Event)
    ensures LegacyPending(Stamp(t, e)) == LegacyPending(t)
  {
  }

  lemma SplitAfterCommit(db: Tables, e: Event)
    requires Derived(db) && NothingSplit(db) && Admitted(db, e)
    ensures NothingSplit(Commit(db, e, Final(db.log + [e])))
  {
    hide Fold, CheckReceipt, CheckMode, ApplyEvent, Stamp, Reachable, LegacyPending;
    var t := LastStep(db.log, e);
    StampPending(t, e);
    if db.lease.Some? {
      AdmittedMode(db, e);
      LegacyPendingKept(Final(db.log), e);
    }
  }

  // ----- evidence -----

  lemma PlanSurvives(log: seq<Event>, n: nat, e: Event, r: Receipt)
    requires HasPlan(log, n, r)
    ensures HasPlan(log + [e], n, r)
  {
    var i :| i < n && PlannedBy(log, i, r);
    assert PlannedBy(log + [e], i, r);
  }

  lemma ReceiptRepeated(db: Tables, d: EventData)
    requires CheckReceipt(db, d).None? && ReceiptsPlanned(db)
    ensures d.actionId in db.receipts && CompletionOf(db.receipts[d.actionId]) == d
  {
    hide ValidateEvidence, PlannedAttempt, HasPlan;
  }

  lemma EvidenceAfterCommit(db: Tables, e: Event, s: State)
    requires FencingRules(db) && EvidenceRules(db) && Admitted(db, e)
    ensures EvidenceRules(Commit(db, e, s))
  {
    hide CheckReceipt, CheckMode, HasPlan, CompletionOf, Fold, LogHeld, TokensOrdered;
    var after := Commit(db, e, s);
    forall a | a in db.receipts
      ensures HasPlan(after.log, |after.log|, db.receipts[a])
    {
      PlanSurvives(db.log, |db.log|, e, db.receipts[a]);
      PlanEarlier(after.log, |db.log|, |after.log|, db.receipts[a]);
    }
    forall j | 0 <= j < |after.log| && after.log[j].kind == ActionCompleted
      ensures Sandwiched(after, j)
    {
      if j < |db.log| {
        assert Sandwiched(db, j);
        PlanSurvives(db.log, j, e, db.receipts[db.log[j].data.actionId]);
      } else {
        ReceiptRepeated(db, e.data);
        AdmittedFence(db, e);
        PlanSurvives(db.log, j, e, db.receipts[e.data.actionId]);
      }
    }
  }

  lemma PlanEarlier(log: seq<Event>, m: nat, n: nat, r: Receipt)
    requires HasPlan(log, m, r) && m <= n
    ensures HasPlan(log, n, r)
  {
  }

  // ----- the other transactions -----

  lemma AppendKeeps(db: Tables, expected: nat, e: Event)
    requires Consistent(db) && e.runId == db.runId
    ensures Consistent(AfterAppend(db, expected, e))
  {
    hide Derived, FencingRules, ModeRules, NothingSplit, EvidenceRules, AppendAnswer, Admitted, Commit, Fold;
    if AppendAnswer(db, expected, e).Appended? {
      var stored := AppendAdmits(db, expected, e);
      AdmittedValid(db, stored);
      DerivedAfterCommit(db, stored);
      FencingAfterCommit(db, stored, Final(db.log + [stored]));
      ModeAfterCommit(db, stored, Final(db.log + [stored]));
      SplitAfterCommit(db, stored);
      EvidenceAfterCommit(db, stored, Final(db.log + [stored]));
    }
  }

  lemma AdmittedValid(db: Tables, e: Event)
    requires Admitted(db, e)
    ensures ValidLog(db.log + [e])
  {
  }

  /** Acquiring never lowers the token, and a new worker gets a new one. */
  lemma AcquireEffect(db: Tables, worker: string, ttl: int)
    requires Consistent(db)
    ensures
      var after := AfterAcquire(db, worker, ttl);
      && after == db.(lease := after.lease)
      && (db.lease.Some? ==> after.lease.Some?)
      && (after.lease.Some? ==> Token(after.lease.value.worker, after.lease.value.token))
      && (after.lease.Some? ==> db.log != [] && !LegacyPending(Final(db.log)))
      && (forall w, t :: HeldBy(db, w, t) ==> HeldBy(after, w, t))
  {
    hide Fold, LogHeld, ReceiptsHeld, TokensOrdered, ModeRules, EvidenceRules, UnresolvedLegacyAction, LegacyPending;
    LegacyScanAgrees(db.log);
  }

  lemma LeaseKeeps(db: Tables, after: Tables)
    requires Consistent(db) && after == db.(lease := after.lease)
    requires db.lease.Some? ==> after.lease.Some?
    requires after.lease.Some? ==> Token(after.lease.value.worker, after.lease.value.token)
    requires after.lease.Some? ==> db.log != [] && !LegacyPending(Final(db.log))
    requires forall w, t :: HeldBy(db, w, t) ==> HeldBy(after, w, t)
    ensures Consistent(after)
  {
    hide Fold, HeldBy, TokensOrdered, HasPlan, LegacyPending, ModeOf;
    assert LogHeld(after) && ReceiptsHeld(after);
    assert ModeRules(after);
    assert EvidenceRules(after) by {
      assert forall j {:trigger after.log[j]} :: 0 <= j < |db.log| && db.log[j].kind == ActionCompleted ==>
        Sandwiched(db, j) && Sandwiched(after, j);
    }
  }

  lemma RenewEffect(db: Tables, auth: Authority, ttl: int)
    requires Consistent(db)
    ensures Consistent(AfterRenew(db, auth, ttl))
  {
    hide Fold, LogHeld, ReceiptsHeld, TokensOrdered, ModeRules, EvidenceRules, LegacyPending, Consistent;
    assert Derived(db) && FencingRules(db) && NothingSplit(db) by { ConsistentParts(db); }
    LeaseKeeps(db, AfterRenew(db, auth, ttl));
  }

  lemma ConsistentParts(db: Tables)
    requires Consistent(db)
    ensures Derived(db) && FencingRules(db) && ModeRules(db) && NothingSplit(db) && EvidenceRules(db)
  {
    hide Derived, FencingRules, ModeRules, NothingSplit, EvidenceRules;
  }

  /** A recorded receipt has an open plan, under a token no later than its own. */
  lemma RecordedHasPlan(db: Tables, auth: Authority, receipt: Receipt)
    requires LogHeld(db) && ModeRules(db) && ReceiptOutcome(db, auth, receipt).ReceiptRecorded?
    ensures
      var r := ReceiptOutcome(db, auth, receipt).receipt;
      && r.actionId !in db.receipts
      && HeldBy(db, r.worker, r.token)
      && HasPlan(db.log, |db.log|, r)
  {
    hide ValidateEvidence, LastPlan, NoResultFor, Insertable;
    var r := ReceiptOutcome(db, auth, receipt).receipt;
    LastPlanFinds(db.log, |db.log|, r.actionId, r.kind, r.scope);
    var i :| 0 <= i < |db.log| && PlanRow(db.log[i], r.actionId, r.kind, r.scope);
    assert ModeOf(db.log[i]) && ManagedKind(db.log[i].kind);
    assert PlannedBy(db.log, i, r);
  }

  lemma ReceiptKeeps(db: Tables, auth: Authority, receipt: Receipt)
    requires Consistent(db)
    ensures Consistent(AfterReceipt(db, auth, receipt))
  {
    hide Fold, TokensOrdered, HasPlan, ModeOf, ReceiptOutcome, LegacyPending, CompletionOf;
    if ReceiptOutcome(db, auth, receipt).ReceiptRecorded? {
      RecordedHasPlan(db, auth, receipt);
      var after := AfterReceipt(db, auth, receipt);
      assert CompletionsSandwiched(after) by {
        assert forall j {:trigger after.log[j]} :: 0 <= j < |db.log| && db.log[j].kind == ActionCompleted ==>
          Sandwiched(db, j) && Sandwiched(after, j);
      }
    }
  }

  /** The fields the invariants speak of. */
  predicate SameFacts(db: Tables, after: Tables) {
    after == db.(workers := after.workers, artifacts := after.artifacts, checkpoint := after.checkpoint, clock := after.clock)
  }

  lemma OthersKeep(db: Tables, after: Tables)
    requires Consistent(db) && SameFacts(db, after)
    ensures Consistent(after)
  {
    hide Fold, TokensOrdered, HasPlan, ModeOf, LegacyPending, CompletionOf;
    assert forall w, t :: HeldBy(db, w, t) <==> HeldBy(after, w, t);
    assert CompletionsSandwiched(after) by {
      assert forall j {:trigger after.log[j]} :: 0 <= j < |db.log| && db.log[j].kind == ActionCompleted ==>
        Sandwiched(db, j) && Sandwiched(after, j);
    }
  }

  lemma DoKeeps(db: Tables, op: Op)
    requires Consistent(db)
    ensures Consistent(Do(db, op))
  {
    hide Consistent, AfterAppend, AfterAcquire, AfterRenew, AfterReceipt, Fold;
    match op
    case Append(expected, event) =>
      if event.runId == db.runId {
        AppendKeeps(db, expected, event);
      }
    case Acquire(worker, ttl) =>
      AcquireEffect(db, worker, ttl);
      LeaseKeeps(db, AfterAcquire(db, worker, ttl));
    case Renew(auth, ttl) => RenewEffect(db, auth, ttl);
    case RecordReceipt(auth, receipt) => ReceiptKeeps(db, auth, receipt);
    case _ => OthersKeep(db, Do(db, op));
  }

  /** Every reachable store is consistent. */
  lemma {:induction false} AlwaysConsistent(runId: string, history: seq<Op>)
    ensures Consistent(After(runId, history))
  {
    hide Do, Consistent;
    if history == [] {
      EmptyConsistent(runId);
    } else {
      var n := |history| - 1;
      AlwaysConsistent(runId, history[..n]);
      DoKeeps(After(runId, history[..n]), history[n]);
    }
  }

  lemma EmptyConsistent(runId: string)
    ensures Consistent(Empty(runId))
  {
  }

  // ----- the theorems -----

  /** Nothing durable is ever rewritten: logs only grow, receipts are immutable, tokens never fall. */
  lemma NothingRewritten(db: Tables, op: Op)
    requires Consistent(db)
    ensures
      var after := Do(db, op);
      && after.runId == db.runId && db.log <= after.log && |after.log| <= |db.log| + 1
      && db.attempts <= after.attempts
      && (forall a :: a in db.receipts ==> a in after.receipts && after.receipts[a] == db.receipts[a])
      && (db.lease.Some? ==> after.lease.Some? && db.lease.value.token <= after.lease.value.token)
      && (db.lease.Some? && after.lease.value.token == db.lease.value.token
          ==> after.lease.value.worker == db.lease.value.worker)
  {
    hide Fold, Consistent, CheckReceipt, CheckMode, UnresolvedLegacyAction, ReceiptPlan, ValidateEvidence, Insertable, FindKey;
  }

  /** After every history, the run row and the attempt rows are the projection of the log. */
  lemma DerivedRowsEqualFold(runId: string, history: seq<Op>)
    ensures
      var db := After(runId, history);
      && ValidLog(db.log)
      && (db.row.None? <==> db.log == [])
      && (db.log != [] ==>
            var run := Final(db.log).run;
            && db.row.value.desired == run.desired && db.row.value.observed == run.observed
            && db.row.value.currentAttempt == run.currentAttempt && db.row.value.version == run.version == |db.log|
            && run.id == runId)
      && |db.attempts| == Final(db.log).run.currentAttempt
      && (forall i :: 0 <= i < |db.attempts| ==> db.attempts[i] == AttemptRow(Final(db.log).attemptId, i + 1))
  {
    hide Fold, Reachable, Do;
    var db := After(runId, history);
    AlwaysConsistent(runId, history);
    ConsistentParts(db);
    ProjectionReachable(db.log);
    AttemptsBounded(Final(db.log));
    SameRunId(runId, history);
    if db.log != [] {
      ProjectsOwnRun(db.log, runId);
    }
  }

  lemma AttemptsBounded(s: State)
    requires Reachable(s)
    ensures s.run.currentAttempt <= 1
  {
  }

  lemma {:induction false} SameRunId(runId: string, history: seq<Op>)
    ensures After(runId, history).runId == runId
  {
    hide AppendAnswer, AcquireAnswer, ReceiptOutcome, CheckAuthority, Fold;
    if history != [] {
      SameRunId(runId, history[..|history| - 1]);
    }
  }

  lemma {:induction false} ProjectsOwnRun(log: seq<Event>, runId: string)
    requires ValidLog(log) && log != [] && forall i :: 0 <= i < |log| ==> log[i].runId == runId
    ensures Final(log).run.id == runId
  {
    hide Fold, ApplyEvent, Stamp, Reachable;
    var n := |log| - 1;
    assert log == log[..n + 1] == log[..n] + [log[n]];
    StepAt(log, n);
    RunIdStep(Final(log[..n]), log[n]);
  }

  lemma RunIdStep(s: State, e: Event)
    requires Reachable(s) && ApplyEvent(s, e).Ok? && e.runId != "" && (s.present ==> s.run.id == e.runId)
    ensures Stamp(ApplyEvent(s, e).value, e).run.id == e.runId
  {
    hide ApplyLegacy, ApplyDesired, ApplyActionCompleted, ApplyActionFailed, ApplyActionPlanned, Reachable;
    ApplyKeeps(s, e);
    if !s.present {
      NotPresentCreates(s, e);
    }
  }

  lemma NotPresentCreates(s: State, e: Event)
    requires Reachable(s) && ApplyEvent(s, e).Ok? && !s.present
    ensures e.kind == RunCreated && ApplyEvent(s, e).value.run.id == e.runId
  {
  }

  /** Over every history: tokens in 1..2^63-1, non-decreasing in sequence order, equal tokens mean the same worker. */
  lemma FencingOrder(runId: string, history: seq<Op>, i: nat, j: nat)
    requires i <= j < |After(runId, history).log|
    requires Fenced(After(runId, history).log[i]) && Fenced(After(runId, history).log[j])
    ensures
      var db := After(runId, history);
      var first, second := db.log[i], db.log[j];
      && first.worker != "" && 1 <= first.token <= second.token <= MAX_BIGINT
      && (first.token == second.token ==> first.worker == second.worker)
      && db.lease.Some? && second.token <= db.lease.value.token
  {
    hide Fold, Do, ModeRules, Derived, NothingSplit, EvidenceRules;
    AlwaysConsistent(runId, history);
  }

  /** Apart from operator intent, the log is an unfenced legacy prefix and a fenced managed suffix. */
  lemma ModesSplit(runId: string, history: seq<Op>) returns (k: nat)
    ensures
      var log := After(runId, history).log;
      && k <= |log|
      && (forall i :: 0 <= i < k && log[i].kind != DesiredStateChanged ==> UnmanagedKind(log[i].kind) && !Fenced(log[i]))
      && (forall i :: k <= i < |log| && log[i].kind != DesiredStateChanged ==> ManagedKind(log[i].kind) && Fenced(log[i]))
  {
    hide Fold, Do, Derived, FencingRules, NothingSplit, EvidenceRules;
    AlwaysConsistent(runId, history);
    var log := After(runId, history).log;
    assert forall i :: 0 <= i < |log| ==> ModeOf(log[i]);
    k := 0;
    while k < |log| && !ManagedKind(log[k].kind)
      invariant k <= |log| && forall i :: 0 <= i < k ==> !ManagedKind(log[i].kind)
    {
      k := k + 1;
    }
  }

  /** A managed Run never has a legacy action pending. */
  lemma NoActionSplit(runId: string, history: seq<Op>)
    ensures
      var db := After(runId, history);
      ValidLog(db.log) && (db.lease.Some? ==> UnresolvedLegacyAction(db.log) == None)
  {
    hide Fold, Do, Derived, FencingRules, ModeRules, EvidenceRules, UnresolvedLegacyAction;
    AlwaysConsistent(runId, history);
    LegacyScanAgrees(After(runId, history).log);
  }

  /**
    In every reachable store each completion repeats a durable receipt of its
    action and follows a plan of it, with plan token <= receipt token <= completion token.
  */
  lemma EvidenceSandwich(runId: string, history: seq<Op>, j: nat) returns (i: nat)
    requires j < |After(runId, history).log| && After(runId, history).log[j].kind == ActionCompleted
    ensures
      var db := After(runId, history);
      var d := db.log[j].data;
      && i < j && db.log[i].kind == ActionPlanned
      && db.log[i].data.actionId == d.actionId && db.log[i].data.actionType == d.actionType && db.log[i].data.scope == d.scope
      && d.actionId in db.receipts
      && CompletionOf(db.receipts[d.actionId]) == d
      && 1 <= db.log[i].token <= db.receipts[d.actionId].token <= db.log[j].token
  {
    hide Fold, Do, Derived, NothingSplit, LogHeld, TokensOrdered, ReceiptsPlanned;
    AlwaysConsistent(runId, history);
    var db := After(runId, history);
    assert Sandwiched(db, j);
    var r := db.receipts[db.log[j].data.actionId];
    var k :| k < j && PlannedBy(db.log, k, r);
    i := k;
    assert ModeOf(db.log[i]) && Fenced(db.log[i]);
    FencingOrder(runId, history, i, i);
  }
}
