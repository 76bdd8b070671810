/**
  What the stores answer and keep, field by field: appends and replays, the evidence a
  completion needs at the moment it is stored, receipts, and snapshots.
*/
module StoreLaws {
  import opened Wrappers
  import opened Types
  import opened Reducer
  import opened Projection
  import opened Lifecycle
  import opened Evidence
  import opened EventStore
  import opened MemoryStore
  import opened ReceiptScan
  import opened Checkpoints
  import opened Database
  import opened StoreInvariants
  import opened LeaseLaws

  // ----- evidence -----

  /** The completion payload repeats the receipt in every field. */
  predicate Repeats(d: EventData, r: Receipt) {
    && d.actionId == r.actionId && d.actionType == r.kind && d.scope == r.scope && d.receiptId == r.id
    && d.outputDigest == r.outputDigest && d.artifactId == r.artifactId && d.artifactDigest == r.artifactDigest
    && d.scenarioId == r.output.scenarioId && d.specHash == r.output.specHash && d.desired == r.output.desired
    && d.attemptId == r.output.attemptId && d.outcome == r.output.outcome && d.output == r.output.output
    && d.toolName == r.output.toolName && d.toolArguments == r.output.toolArguments && d.reason == r.output.reason
  }

  lemma CompletionRepeats(d: EventData, r: Receipt)
    ensures CompletionOf(r) == d <==> Repeats(d, r)
  {
  }

  /** The receipt proves its action for this attempt. */
  predicate Proves(r: Receipt, attempt: string) {
    && (r.kind == StartAttempt ==> r.output.attemptId == attempt && attempt != "")
    && (r.kind == RunReasoner ==> r.output.toolName != "")
    && (r.kind == FailRun ==> r.output.reason != "")
    && r.outputDigest == DataDigest(r.output)
    && (r.kind != ApplyPatch ==> r.artifactId == "" && r.artifactDigest == "")
    && (r.kind == ApplyPatch ==>
          && r.artifactId == "action-" + r.actionId
          && |r.artifactDigest| == 71 && r.artifactDigest[..7] == "sha256:"
          && forall i :: 7 <= i < 71 ==> '0' <= r.artifactDigest[i] <= '9' || 'a' <= r.artifactDigest[i] <= 'f')
  }

  lemma EvidenceLaw(r: Receipt, attempt: string)
    ensures ValidateEvidence(r.kind, r.actionId, attempt, r.output, r.outputDigest, r.artifactId, r.artifactDigest).Pass?
            <==> Proves(r, attempt)
  {
  }

  /** The artifact row of a receipt that names one: this Run, this attempt, this kind of artifact, this digest. */
  predicate RowFits(db: Tables, r: Receipt, attempt: string) {
    && r.artifactId in db.artifacts
    && var row := db.artifacts[r.artifactId];
    && row.runId == db.runId && row.attemptId == attempt && row.kind == "phase-3-action-receipt" && row.digest == r.artifactDigest
  }

  /** A receipt that names an artifact has its row, and the bytes are intact. */
  predicate ArtifactSound(db: Tables, r: Receipt, attempt: string) {
    r.artifactId != "" ==> RowFits(db, r, attempt) && db.artifacts[r.artifactId].intact
  }

  /** The last plan of the action was for this attempt. */
  ghost predicate LastPlannedFor(log: seq<Event>, i: int, d: EventData, attempt: string) {
    && 0 <= i < |log| && PlansAction(log[i], d) && log[i].data.attemptId == attempt
    && forall j :: i < j < |log| ==> !PlansAction(log[j], d)
  }

  predicate PlansAction(e: Event, d: EventData) {
    e.kind == ActionPlanned && e.data.actionId == d.actionId && e.data.actionType == d.actionType
  }

  lemma {:induction false} PlannedAttemptLaw(log: seq<Event>, n: nat, d: EventData)
    requires n <= |log|
    ensures
      var a := PlannedAttempt(log, n, d.actionId, d.actionType);
      && (a.Some? ==> exists i :: LastPlannedFor(log[..n], i, d, a.value))
      && (a.None? ==> forall j :: 0 <= j < n ==> !PlansAction(log[j], d))
  {
    if n > 0 {
      assert log[..n][..n - 1] == log[..n - 1];
      if PlansAction(log[n - 1], d) {
        assert LastPlannedFor(log[..n], n - 1, d, log[n - 1].data.attemptId);
      } else {
        PlannedAttemptLaw(log, n - 1, d);
        var a := PlannedAttempt(log, n - 1, d.actionId, d.actionType);
        if a.Some? {
          var i :| LastPlannedFor(log[..n - 1], i, d, a.value);
          assert LastPlannedFor(log[..n], i, d, a.value);
        }
      }
    }
  }

  /** The receipt row the completion names: same action, same id, same kind. */
  predicate Named(db: Tables, d: EventData) {
    && d.receiptId != "" && d.actionId != "" && d.actionId in db.receipts
    && db.receipts[d.actionId].id == d.receiptId && db.receipts[d.actionId].kind == d.actionType
  }

  /** Exactly how the evidence of a completion is judged. */
  lemma CheckReceiptLaw(db: Tables, d: EventData)
    requires ReceiptsPlanned(db)
    ensures !Named(db, d) <==> CheckReceipt(db, d) == Some(MissingActionReceipt)
    ensures Named(db, d) ==>
              var r, a := db.receipts[d.actionId], PlannedAttempt(db.log, |db.log|, d.actionId, d.actionType);
              CheckReceipt(db, d)
              == if a.None? || !Proves(r, a.value) || (r.artifactId != "" && !RowFits(db, r, a.value)) then Some(ActionReceiptMismatch)
                 else if !ArtifactSound(db, r, a.value) then Some(ArtifactIntegrity)
                 else if !Repeats(d, r) then Some(ActionReceiptMismatch)
                 else None
  {
    hide ValidateEvidence, PlannedAttempt, HasPlan, Proves, Repeats;
    if Named(db, d) {
      var r, a := db.receipts[d.actionId], PlannedAttempt(db.log, |db.log|, d.actionId, d.actionType);
      CompletionRepeats(d, r);
      if a.Some? {
        EvidenceLaw(r, a.value);
      }
    }
  }

  /** What is true of the database when a completion is stored. */
  ghost predicate Evidenced(db: Tables, d: EventData) {
    && d.receiptId != "" && d.actionId in db.receipts && Repeats(d, db.receipts[d.actionId])
    && exists i, attempt :: LastPlannedFor(db.log, i, d, attempt)
                            && Proves(db.receipts[d.actionId], attempt) && ArtifactSound(db, db.receipts[d.actionId], attempt)
  }

  lemma AdmittedEvidence(db: Tables, d: EventData)
    requires ReceiptsPlanned(db) && CheckReceipt(db, d).None?
    ensures Evidenced(db, d)
  {
    hide PlannedAttempt, HasPlan, Proves, Repeats, CheckReceipt, LastPlannedFor;
    CheckReceiptLaw(db, d);
    PlannedAttemptLaw(db.log, |db.log|, d);
    assert db.log[..|db.log|] == db.log;
    var a := PlannedAttempt(db.log, |db.log|, d.actionId, d.actionType);
    var i :| LastPlannedFor(db.log, i, d, a.value);
  }

  /**
    Over every history: whenever a completion was stored, the database of that moment held a
    receipt it repeats in every field, valid evidence for the attempt last planned, and, if the
    receipt names an artifact, the registered row of this Run, attempt, kind and digest with intact bytes.
  */
  lemma CompletionsWereEvidenced(runId: string, history: seq<Op>, n: nat)
    requires n < |history|
    requires
      var db, after := After(runId, history[..n]), After(runId, history[..n + 1]);
      |after.log| > |db.log| && after.log[|db.log|].kind == ActionCompleted
    ensures Evidenced(After(runId, history[..n]), After(runId, history[..n + 1]).log[|After(runId, history[..n]).log|].data)
  {
    hide Fold, Consistent, Do, Evidenced;
    var db := After(runId, history[..n]);
    assert history[..n + 1][..n] == history[..n];
    assert After(runId, history[..n + 1]) == Do(db, history[n]);
    AlwaysConsistent(runId, history[..n]);
    StoredCompletion(db, history[n]);
  }

  lemma StoredCompletion(db: Tables, op: Op)
    requires Consistent(db) && |Do(db, op).log| > |db.log| && Do(db, op).log[|db.log|].kind == ActionCompleted
    ensures Evidenced(db, Do(db, op).log[|db.log|].data)
  {
    hide Fold, Consistent, AppendAnswer, AcquireAnswer, ReceiptOutcome, CheckAuthority, AfterAppend, CheckMode, CheckReceipt, Evidenced;
    assert ReceiptsPlanned(db) by { ConsistentParts(db); }
    if op.Append? && op.event.runId == db.runId && AppendAnswer(db, op.expected, op.event).Appended? {
      var stored := AppendAdmits(db, op.expected, op.event);
      AdmittedEvidence(db, stored.data);
    } else if op.Append? && op.event.runId == db.runId {
      NotAppended(db, op.expected, op.event);
    }
  }

  // ----- appends -----

  /** The same request, but for what the store assigns. */
  predicate SameRequest(stored: Event, e: Event) {
    && stored.runId == e.runId && stored.kind == e.kind && stored.data == e.data && stored.key == e.key
    && stored.payloadVersion == (if e.payloadVersion == 0 then 1 else e.payloadVersion)
    && stored.causationId == e.causationId && stored.correlationId == e.correlationId
    && stored.worker == e.worker && stored.token == e.token
  }

  lemma SameEventLaw(stored: Event, e: Event)
    ensures SameEvent(stored, e) <==> SameRequest(stored, e)
  {
  }

  /** What a key that is already used gets: the original event for the same request, a conflict for any other. */
  lemma KeyLaw(log: seq<Event>, e: Event)
    requires ValidLog(log)
    ensures FindKey(log, e.key).None? <==> e.key !in Keys(log)
    ensures forall i :: 0 <= i < |log| && log[i].key == e.key ==> FindKey(log, e.key) == Some(log[i])
  {
    hide Fold;
    if e.key !in Keys(log) {
      FindMissing(log, e.key);
    } else {
      forall i | 0 <= i < |log| && log[i].key == e.key
        ensures FindKey(log, e.key) == Some(log[i])
      {
        forall j | 0 <= j < |log| && log[j].key == e.key
          ensures j == i
        {
          if i < j {
            KeysDistinct(log, i, j);
          } else if j < i {
            KeysDistinct(log, j, i);
          }
        }
        FindUnique(log, e.key, i);
      }
    }
  }

  predicate Malformed(e: Event) {
    e.runId == "" || e.key == "" || e.seqNo != 0
  }

  /** Events that only the holder of the lease may store. */
  predicate NeedsHolder(db: Tables, e: Event) {
    || e.worker != "" || e.token != 0
    || e.kind.LeaseFact() || e.kind == ActionPlanned || e.kind == ActionCompleted || e.kind == ActionFailed
    || (db.lease.Some? && e.kind != RunCreated && e.kind != DesiredStateChanged)
  }

  /** The event as it is stored: numbered next, dated, and otherwise as requested. */
  function Candidate(e: Event, log: seq<Event>, time: string): Event {
    Event(e.runId, |log| + 1, e.kind, if e.payloadVersion == 0 then 1 else e.payloadVersion, e.data,
          e.key, e.causationId, e.correlationId, e.worker, e.token, time)
  }

  /** The reducer's verdict on a candidate is the answer. */
  predicate Judged(r: AppendResult, log: seq<Event>, candidate: Event) {
    match Fold(log + [candidate])
    case Ok(_) => r == Appended(candidate)
    case Err(error) => r == Refused(Rejected(error))
  }

  /** What the database refuses before it looks at the log. */
  lemma AppendGates(db: Tables, expected: nat, e: Event)
    requires Consistent(db) && e.runId == db.runId
    ensures
      var r := AppendAnswer(db, expected, e);
      && (r == Refused(InvalidAppend) <==> expected > MAX_BIGINT || Malformed(e))
      && (expected <= MAX_BIGINT && !Malformed(e) ==>
            && (r == Refused(SensitivePayload) <==> HasCredential(e.data))
            && (!HasCredential(e.data) ==>
                  && (r == Refused(StaleFencingToken) <==> NeedsHolder(db, e) && !Holder(db, e.worker, e.token))
                  && (!(NeedsHolder(db, e) && !Holder(db, e.worker, e.token)) ==>
                        && (r == Refused(ManagedRunLegacyEvent) <==> db.lease.Some? && LegacyResult(e.kind))
                        && (!(db.lease.Some? && LegacyResult(e.kind)) ==>
                              (r == Refused(RunNotFound) <==> db.log == [] && e.kind != RunCreated)))))
  {
    hide Fold, FindKey, CheckReceipt, LogHeld, ReceiptsHeld, TokensOrdered, ModeRules, EvidenceRules, NothingSplit;
    CheckReceiptErrors(db, e.data);
  }

  lemma CheckReceiptErrors(db: Tables, d: EventData)
    ensures CheckReceipt(db, d).Some? ==>
              var error := CheckReceipt(db, d).value;
              error == MissingActionReceipt || error == ActionReceiptMismatch || error == ArtifactIntegrity
  {
    hide ValidateEvidence, PlannedAttempt;
  }

  /** The request passed every gate before the log. */
  predicate Passes(db: Tables, expected: nat, e: Event) {
    && expected <= MAX_BIGINT && !Malformed(e) && !HasCredential(e.data)
    && (NeedsHolder(db, e) ==> Holder(db, e.worker, e.token))
    && !(db.lease.Some? && LegacyResult(e.kind)) && (db.log == [] ==> e.kind == RunCreated)
  }

  /** Past the gates: replay or conflict by key, then the version, then the evidence, then the reducer. */
  lemma AppendLaw(db: Tables, expected: nat, e: Event)
    requires Consistent(db) && e.runId == db.runId && Passes(db, expected, e)
    ensures
      var r, after := AppendAnswer(db, expected, e), AfterAppend(db, expected, e);
      && (forall i :: 0 <= i < |db.log| && db.log[i].key == e.key ==>
            r == if SameRequest(db.log[i], e) then Replayed(db.log[i]) else Refused(IdempotencyConflict))
      && (e.key !in Keys(db.log) ==>
            if expected != |db.log| then r == Refused(VersionConflict(|db.log|))
            else if e.kind == ActionCompleted && CheckReceipt(db, e.data).Some? then r == Refused(CheckReceipt(db, e.data).value)
            else Judged(r, db.log, Candidate(e, db.log, TimeText(db.clock))))
      && (r.Appended? ==> after.log == db.log + [r.event])
      && (!r.Appended? ==> after == db)
  {
    hide Fold, FindKey, CheckReceipt, Consistent, SameEvent, Keys, RowOf, LeaseSensitive;
    ConsistentNonempty(db);
    KeyLaw(db.log, e);
    PassedMode(db, e);
    RowLength(db);
    forall i | 0 <= i < |db.log|
      ensures SameEvent(db.log[i], e) <==> SameRequest(db.log[i], e)
    {
      SameEventLaw(db.log[i], e);
    }
  }

  lemma PassedMode(db: Tables, e: Event)
    requires Consistent(db) && (NeedsHolder(db, e) ==> Holder(db, e.worker, e.token)) && !(db.lease.Some? && LegacyResult(e.kind))
    ensures CheckMode(db, e).None?
  {
    hide Derived, ModeRules, NothingSplit, EvidenceRules, LogHeld, ReceiptsHeld, TokensOrdered;
  }

  lemma RowLength(db: Tables)
    requires Consistent(db)
    ensures Version(db) == |db.log| && (db.row.None? <==> db.log == [])
  {
    hide Fold, FencingRules, ModeRules, EvidenceRules, NothingSplit, Reachable;
    ProjectionReachable(db.log);
  }

  /** The in-memory store answers alike, without leases and evidence. */
  lemma MemoryAppendLaw(log: seq<Event>, expected: nat, e: Event)
    requires ValidLog(log)
    ensures
      var r := AppendOutcome(log, expected, e);
      && (r == Refused(InvalidAppend) <==> Malformed(e))
      && (!Malformed(e) ==> (r == Refused(SensitivePayload) <==> HasCredential(e.data)))
      && (!Malformed(e) && !HasCredential(e.data) ==>
            && (forall i :: 0 <= i < |log| && log[i].key == e.key ==>
                  r == if SameRequest(log[i], e) then Replayed(log[i]) else Refused(IdempotencyConflict))
            && (e.key !in Keys(log) ==>
                  if expected != |log| then r == Refused(VersionConflict(|log|))
                  else Judged(r, log, Candidate(e, log, e.createdAt))))
  {
    hide Fold, FindKey, SameEvent, Keys;
    KeyLaw(log, e);
    forall i | 0 <= i < |log|
      ensures SameEvent(log[i], e) <==> SameRequest(log[i], e)
    {
      SameEventLaw(log[i], e);
    }
  }

  // ----- receipts -----

  /** The same receipt, whoever signed it. */
  predicate SameClaim(r: Receipt, s: Receipt) {
    && r.id == s.id && r.actionId == s.actionId && r.kind == s.kind && r.scope == s.scope
    && r.output == s.output && r.outputDigest == s.outputDigest
    && r.artifactId == s.artifactId && r.artifactDigest == s.artifactDigest && r.cost == s.cost
  }

  /** The receipt with its default id. */
  function Claimed(db: Tables, r: Receipt): Receipt {
    if r.id == "" then r.(id := db.runId + ":" + r.actionId) else r
  }

  predicate Unfit(r: Receipt) {
    r.actionId == "" || r.kind == NoCommand || !r.scope.Valid() || r.cost < 0
  }

  /** An action already receipted: the original for the same claim, a conflict for any other. */
  lemma ReceiptReplayLaw(db: Tables, auth: Authority, receipt: Receipt)
    requires Consistent(db) && Holder(db, auth.worker, auth.token) && !Unfit(receipt) && !HasCredential(receipt.output)
    requires receipt.actionId in db.receipts
    ensures
      var kept := db.receipts[receipt.actionId];
      && ReceiptOutcome(db, auth, receipt)
         == (if SameClaim(kept, Claimed(db, receipt)) then ReceiptReplayed(kept) else ReceiptRefused(ReceiptConflict))
      && AfterReceipt(db, auth, receipt) == db
  {
    hide ReceiptPlan, ValidateEvidence, Insertable, Consistent, CheckAuthority;
    assert FencingRules(db) by { ConsistentParts(db); }
    AuthorityLaw(db, auth);
    HolderPresents(db, auth);
  }

  lemma HolderPresents(db: Tables, auth: Authority)
    requires FencingRules(db) && Holder(db, auth.worker, auth.token)
    ensures Presentable(auth)
  {
    hide LogHeld, ReceiptsHeld, TokensOrdered;
  }

  /** A first receipt is recorded exactly for the open plan of its action, with valid evidence, and kept as claimed under the holder's name. */
  lemma ReceiptLaw(db: Tables, auth: Authority, receipt: Receipt)
    requires Consistent(db) && receipt.actionId !in db.receipts
    ensures
      var r, s := Claimed(db, receipt), Final(db.log);
      var recorded := ReceiptOutcome(db, auth, receipt).ReceiptRecorded?;
      && (recorded <==>
            && Holder(db, auth.worker, auth.token) && !Unfit(r) && !HasCredential(r.output)
            && PendingAction(s, r.actionId, r.kind, r.scope) && NoResultFor(db.log, r.actionId)
            && Proves(r, s.pendingAttempt)
            && (forall a :: a in db.receipts ==> db.receipts[a].id != r.id)
            && (r.artifactId != "" ==> r.artifactId in db.artifacts))
      && AfterReceipt(db, auth, receipt)
         == (if recorded then db.(receipts := db.receipts[r.actionId := r.(worker := auth.worker, token := auth.token)]) else db)
  {
    hide Fold, Consistent, ReceiptPlan, ValidateEvidence, Proves, NoResultFor, CheckAuthority, Holder;
    ConsistentNonempty(db);
    assert FencingRules(db) by { ConsistentParts(db); }
    var r, s := Claimed(db, receipt), Final(db.log);
    ReceiptScanAgrees(db.log, r.actionId, r.kind, r.scope);
    EvidenceLaw(r, s.pendingAttempt);
    AuthorityHolds(db, auth);
  }

  lemma AuthorityHolds(db: Tables, auth: Authority)
    requires FencingRules(db)
    ensures CheckAuthority(db, auth).None? <==> Holder(db, auth.worker, auth.token)
    ensures Holder(db, auth.worker, auth.token) ==> Presentable(auth)
  {
    hide LogHeld, ReceiptsHeld, TokensOrdered;
  }

  /** Whatever receipt is stored, it proved the pending attempt of that moment and came from the holder. */
  lemma RecordedWereProven(db: Tables, auth: Authority, receipt: Receipt)
    requires Consistent(db) && AfterReceipt(db, auth, receipt).receipts != db.receipts
    ensures Proves(Claimed(db, receipt), Final(db.log).pendingAttempt) && Holder(db, auth.worker, auth.token)
  {
    hide Fold, Consistent, ReceiptOutcome, Proves, Holder, NoResultFor;
    if receipt.actionId in db.receipts {
      ReplayChangesNothing(db, auth, receipt);
    } else {
      ReceiptLaw(db, auth, receipt);
    }
  }

  lemma ReplayChangesNothing(db: Tables, auth: Authority, receipt: Receipt)
    requires receipt.actionId in db.receipts
    ensures AfterReceipt(db, auth, receipt) == db
  {
    hide ReceiptPlan, ValidateEvidence, Insertable, CheckAuthority;
  }

  // ----- snapshots -----

  /** A saved snapshot is one that Rebuild trusts. */
  lemma SavedIsTrusted(db: Tables, expected: nat)
    requires Consistent(db) && SaveRefusal(db, expected).None?
    ensures Trusted(AfterSaveCheckpoint(db, expected).checkpoint, db.runId, db.log)
  {
    hide Fold, Consistent, Reachable;
    ConsistentNonempty(db);
    RowLength(db);
    ProjectionReachable(db.log);
    assert db.log[..expected] == db.log;
    OwnNumbers(db);
  }

  lemma OwnNumbers(db: Tables)
    requires Consistent(db) && db.log != []
    ensures ValidLog(db.log) && Final(db.log).run.id == db.runId && db.log[|db.log| - 1].seqNo == |db.log|
  {
    hide Fold, FencingRules, ModeRules, EvidenceRules, NothingSplit, Reachable, ApplyEvent, Stamp;
    ProjectsOwnRun(db.log, db.runId);
    StepAt(db.log, |db.log| - 1);
  }
}
