/** Concrete logs at which the exceptions of the if-and-only-if theorems are met, built event by event. */
module Witnesses {
  import opened Wrappers
  import opened Types
  import opened Decider
  import opened Reducer
  import opened Projection
  import opened Lifecycle
  import opened Evidence
  import opened ReceiptScan
  import opened Checkpoints
  import opened TwoModels

  function Entry(runId: string, n: nat, kind: EventType, data: EventData): Event {
    Event(runId, n, kind, PAYLOAD_VERSION, data, Decimal(n), "", "", "w", 1, "")
  }

  /** Extending a valid log whose keys are the decimal sequence numbers. */
  ghost predicate Numbered(log: seq<Event>, runId: string) {
    && ValidLog(log)
    && Final(log).present
    && Final(log).run.id == runId
    && forall i :: 0 <= i < |log| ==> log[i].key == Decimal(i + 1)
  }

  lemma {:induction false} DecimalInjective(m: nat, n: nat)
    requires Decimal(m) == Decimal(n)
    ensures m == n
  {
    var x, y := Decimal(m), Decimal(n);
    assert x[|x| - 1] == y[|y| - 1];
    if m >= 10 && n >= 10 {
      assert x[..|x| - 1] == Decimal(m / 10) && y[..|y| - 1] == Decimal(n / 10);
      DecimalInjective(m / 10, n / 10);
    }
  }

  lemma Extend(log: seq<Event>, runId: string, kind: EventType, d: EventData)
    requires Numbered(log, runId) && runId != ""
    requires !Final(log).run.observed.Terminal()
    requires ApplyEvent(Final(log), Entry(runId, |log| + 1, kind, d)).Ok?
    ensures
      var e := Entry(runId, |log| + 1, kind, d);
      && Numbered(log + [e], runId)
      && Final(log + [e]) == Stamp(ApplyEvent(Final(log), e).value, e)
  {
    hide ApplyEvent;
    var e := Entry(runId, |log| + 1, kind, d);
    FoldSnoc(log, e);
    forall i | 0 <= i < |log|
      ensures log[i].key != e.key
    {
      if log[i].key == e.key {
        DecimalInjective(i + 1, |log| + 1);
      }
    }
    ProjectionReachable(log);
    ApplyKeeps(Final(log), e);
  }

  function Failure(s: State): EventData {
    NO_DATA.(actionId := s.pendingId, actionType := s.pendingType, reason := "r", outcome := OutcomeFailed)
  }

  function Completion(s: State): EventData {
    NO_DATA.(actionId := s.pendingId, actionType := s.pendingType, reason := "r", receiptId := "r")
  }

  lemma Then(log: seq<Event>, runId: string, kind: EventType, d: EventData) returns (longer: seq<Event>)
    requires Numbered(log, runId) && runId != ""
    requires !Final(log).run.observed.Terminal()
    requires ApplyEvent(Final(log), Entry(runId, |log| + 1, kind, d)).Ok?
    ensures Numbered(longer, runId) && longer == log + [Entry(runId, |log| + 1, kind, d)]
    ensures Final(longer) == Stamp(ApplyEvent(Final(log), Entry(runId, |log| + 1, kind, d)).value,
                                   Entry(runId, |log| + 1, kind, d))
  {
    hide ApplyEvent;
    Extend(log, runId, kind, d);
    longer := log + [Entry(runId, |log| + 1, kind, d)];
  }

  lemma Created(runId: string) returns (log: seq<Event>)
    requires runId != ""
    ensures Numbered(log, runId) && log == [Entry(runId, 1, RunCreated, NO_DATA)]
    ensures
      var s := Final(log);
      s.run.desired == DesiredRunning && s.run.observed == Queued && s.pendingId == "" && s.pendingType == NoCommand
      && s.failureReason == ""
  {
    hide ApplyLegacy, ApplyDesired, ApplyActionPlanned, ApplyActionCompleted, ApplyActionFailed;
    var e := Entry(runId, 1, RunCreated, NO_DATA);
    FoldSnoc([], e);
    log := [] + [e];
    assert log[0] == e;
  }

  lemma PlanDecided(log: seq<Event>, runId: string) returns (longer: seq<Event>)
    requires Numbered(log, runId) && runId != ""
    requires Final(log).pendingId == "" && Final(log).pendingType == NoCommand
    requires Decide(Final(log)).kind != Noop
    ensures Numbered(longer, runId) && log <= longer
    ensures
      var s, c := Final(log), Decide(Final(log));
      Final(longer).run == s.run.(version := |log| + 1)
      && Final(longer).pendingId == c.actionId && Final(longer).pendingType == c.kind
      && Final(longer).resume == s.resume && Final(longer).failureReason == s.failureReason
      && Final(longer).attemptId == s.attemptId && c.actionId != ""
  {
    hide Fold;
    longer := Then(log, runId, ActionPlanned, PlanData(Decide(Final(log)), ScopedIdempotent));
  }

  lemma FailurePlanned(runId: string) returns (log: seq<Event>)
    requires runId != ""
    ensures Numbered(log, runId)
    ensures
      var s := Final(log);
      s.pendingType == FailRun && s.pendingId != "" && s.run.desired == DesiredRunning && s.run.observed == Queued
  {
    hide Fold;
    log := Created(runId);
    log := PlanDecided(log, runId);
    log := Then(log, runId, ActionFailed, Failure(Final(log)));
    log := PlanDecided(log, runId);
  }

  lemma FailedWhilePaused(runId: string) returns (log: seq<Event>)
    requires runId != ""
    ensures Numbered(log, runId)
    ensures
      var s := Final(log);
      s.pendingId == "" && s.pendingType == NoCommand && s.run.observed == Paused && s.resume == Failed
      && s.run.desired == DesiredPaused
  {
    hide Fold;
    log := FailurePlanned(runId);
    log := Then(log, runId, DesiredStateChanged, NO_DATA.(desired := DesiredPaused));
    log := Then(log, runId, ActionCompleted, Completion(Final(log)));
  }

  /** The blocked cancel is real: a Run that fails while paused and is then cancelled. */
  lemma BlockedCancelExists(runId: string) returns (log: seq<Event>)
    requires runId != ""
    ensures ValidLog(log) && CancelBlocked(Final(log))
  {
    hide Fold;
    log := FailedWhilePaused(runId);
    log := Then(log, runId, DesiredStateChanged, NO_DATA.(desired := DesiredCancelled));
    log := PlanDecided(log, runId);
  }

  /** A Run cancelled while paused: the managed and the legacy cancel part ways. */
  lemma CancelsPausedExists(runId: string) returns (log: seq<Event>)
    requires runId != ""
    ensures ValidLog(log) && Final(log).present && Final(log).pendingId == "" && Final(log).run.desired == DesiredCancelled
    ensures CancelsPaused(Final(log), Decide(Final(log)))
  {
    hide Fold;
    log := Created(runId);
    log := Then(log, runId, DesiredStateChanged, NO_DATA.(desired := DesiredPaused));
    log := Then(log, runId, DesiredStateChanged, NO_DATA.(desired := DesiredCancelled));
  }

  function CancelId(s: State): string {
    ActionDigest(s.run.id, CancelRun, s.run.currentAttempt, s.attemptId)
  }

  lemma CancelPlanned(runId: string) returns (log: seq<Event>)
    requires runId != ""
    ensures Numbered(log, runId)
    ensures
      var s := Final(log);
      && s.run.desired == DesiredCancelled && s.run.observed == Queued
      && s.pendingType == CancelRun && s.pendingId == CancelId(s)
  {
    hide Fold;
    log := Created(runId);
    log := Then(log, runId, DesiredStateChanged, NO_DATA.(desired := DesiredCancelled));
    log := PlanDecided(log, runId);
  }

  lemma FailedCancel(s: State, e: Event)
    requires s.present && s.run.desired == DesiredCancelled && s.run.observed == Queued
    requires s.pendingType == CancelRun && s.pendingId == CancelId(s)
    requires e.kind == ActionFailed && e.data == Failure(s)
    ensures ApplyEvent(s, e).Ok?
    ensures
      var t := Stamp(ApplyEvent(s, e).value, e);
      t.pendingId == "" && t.pendingType == NoCommand && Decide(t).kind == CancelRun && Decide(t).actionId == s.pendingId
  {
    hide ApplyLegacy, ApplyActionPlanned, ApplyActionCompleted, ApplyDesired;
  }

  lemma CancelFailed(runId: string) returns (log: seq<Event>)
    requires runId != ""
    ensures Numbered(log, runId)
    ensures
      var s := Final(log);
      && s.pendingId == "" && s.pendingType == NoCommand && Decide(s).kind == CancelRun
      && !NoResultFor(log, Decide(s).actionId)
  {
    hide Fold, ApplyEvent, Stamp, Decide;
    var planned := CancelPlanned(runId);
    var s := Final(planned);
    var e := Entry(runId, |planned| + 1, ActionFailed, Failure(s));
    FailedCancel(s, e);
    log := Then(planned, runId, ActionFailed, Failure(s));
    assert log[|planned|] == e && ActionResult(log[|planned|]) && log[|planned|].data.actionId == s.pendingId;
  }

  /** A cancel that failed and was planned again under another key is pending, yet the receipt query misses it. */
  lemma MissedPlanExists(runId: string) returns (log: seq<Event>)
    requires runId != ""
    ensures ValidLog(log)
    ensures
      var s := Final(log);
      && PendingAction(s, s.pendingId, s.pendingType, s.pendingScope)
      && ReceiptPlan(log, s.pendingId, s.pendingType, s.pendingScope).None?
  {
    hide Fold, LastPlan, Decide;
    var before := CancelFailed(runId);
    log := PlanDecided(before, runId);
    var id := Final(log).pendingId;
    var j :| 0 <= j < |before| && ActionResult(before[j]) && before[j].data.actionId == id;
    assert log[j] == before[j];
  }

  /** Two events under one key and the trusted snapshot of the first: resuming accepts what a full reduction rejects. */
  lemma HiddenRepetitionExists(runId: string) returns (events: seq<Event>, stored: Checkpoints.Stored)
    requires runId != ""
    ensures HidesRepetition(stored, runId, events) && Fold(events) == Err(DuplicateIdempotencyKey)
  {
    hide Fold, FoldFrom, ApplyEvent, Stamp;
    var first := Created(runId);
    var s := Final(first);
    ProjectionReachable(first);
    var e := Entry(runId, 2, DesiredStateChanged, NO_DATA.(desired := DesiredPaused)).(key := first[0].key);
    PauseAccepted(s, e);
    ResumesOnce(s, e);
    FoldSnoc(first, e);
    events := first + [e];
    assert events[..1] == first && events[1..] == [e];
    assert first[0].key in Keys(first) && [e][0].key in Keys([e]);
    stored := Stored(Some(1), Some(s), Some(StateDigest(s)), Some(LogDigest(first)));
  }

  lemma PauseAccepted(s: State, e: Event)
    requires s.present && s.run.desired == DesiredRunning && s.run.observed == Queued
    requires e.kind == DesiredStateChanged && e.data.desired == DesiredPaused
    ensures ApplyEvent(s, e).Ok?
  {
    hide ApplyLegacy, ApplyActionPlanned, ApplyActionCompleted, ApplyActionFailed;
  }

  lemma ResumesOnce(s: State, e: Event)
    requires Resumable(s)
    ensures FoldFrom(s, [e]) == CheckpointStep(s, e, {}, s.run.version + 1)
  {
    hide CheckpointStep;
    assert [e][..0] == [] && Keys([]) == {};
  }
}
