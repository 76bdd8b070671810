/**
  The one log a crash-free managed Run can write. `NextEvent` is the event that
  must follow a projection when every action is scoped and the executor is
  deterministic; a `Chain` is a log made of such events only.
*/
module Chain {
  import opened Wrappers
  import opened Types
  import opened Decider
  import opened Reducer
  import opened Projection
  import opened Lifecycle
  import opened Effects
  import opened Evidence
  import opened ReceiptScan
  import opened Scans
  import opened EventStore
  import opened Database
  import opened Managed
  import TwoModels

  type Digest = s: string | Sha256Text(s)
    witness "sha256:" + seq(64, _ => '0')

  /** SHA-256 of the artifact bytes, which name the Run and the action. */
  const ContentDigest: (string, string) -> Digest

  /** What the executor computes for a command. */
  datatype Performed = Performed(output: EventData, cost: int)

  /** A deterministic executor; it reads everything in a state but its timestamps. */
  type Executor = (State, Command) -> Performed

  function Timeless(s: State): State {
    s.(run := s.run.(createdAt := "", updatedAt := ""))
  }

  /** What the deterministic executor answers for the reasoner. */
  const DETERMINISTIC_REASONING := NO_DATA.(output := "phase-3 deterministic reasoning", toolName := "phase1.patch",
                                            toolArguments := "{\"patch\":\"phase-3\"}")

  /** ExecuteDeterministicAction. */
  function DeterministicWork(s: State, c: Command): Performed {
    Performed(TwoModels.ManagedOutput(s, c, DETERMINISTIC_REASONING), if c.kind == RunReasoner then 1 else 0)
  }

  /** The artifact executor: the base result, and for ApplyPatch one stable artifact. */
  function Perform(exec: Executor, s: State, c: Command): Execution {
    var done := exec(Timeless(s), c);
    var patch := c.kind == ApplyPatch;
    var digest := if patch then ContentDigest(s.run.id, c.actionId) else "";
    Done(Receipt("", c.actionId, c.kind, s.pendingScope, done.output, DataDigest(done.output),
                 if patch then ArtifactIdFor(c.actionId) else "", digest, done.cost, "", 0),
         if patch then Some(Artifact(s.run.id, s.attemptId, ARTIFACT_TYPE, digest, true)) else None)
  }

  /** The receipt of the pending action, whoever records it. */
  function ReceiptFor(exec: Executor, s: State): Receipt {
    Addressed(Perform(exec, s, PendingCommand(s)).receipt, s, PendingCommand(s)).(id := s.run.id + ":" + s.pendingId)
  }

  /** An event without who wrote it and when. */
  function Bare(e: Event): Event {
    e.(worker := "", token := 0, createdAt := "")
  }

  function Unsigned(s: State, e: Event): Event {
    Bare(e).(seqNo := s.run.version + 1, payloadVersion := PAYLOAD_VERSION)
  }

  /** The only event that can follow. */
  function NextEvent(exec: Executor, s: State): Option<Event> {
    if s.pendingId != "" then Some(Unsigned(s, CompletedEvent(s.run.id, "", 0, ReceiptFor(exec, s))))
    else if Decide(s).kind == Noop then None
    else Some(Unsigned(s, PlannedEvent(s.run.id, "", 0, Decide(s))))
  }

  ghost predicate Follows(exec: Executor, log: seq<Event>, n: nat)
    requires ValidLog(log) && n < |log|
  {
    ValidLog(log[..n]) && NextEvent(exec, Final(log[..n])) == Some(Bare(log[n]))
  }

  /** One creation, then only events that had to follow. */
  ghost predicate IsChain(exec: Executor, log: seq<Event>) {
    && ValidLog(log) && log != [] && log[0].kind == RunCreated
    && forall n :: 1 <= n < |log| ==> Follows(exec, log, n)
  }

  ghost predicate AllScoped() {
    forall c :: Safety(c) == ScopedIdempotent
  }

  /** A chain of this Run. */
  ghost predicate ChainOf(exec: Executor, log: seq<Event>, runId: string) {
    IsChain(exec, log) && Final(log).run.id == runId
  }

  /** At this state the executor answers the pending command as the receipt contract asks. */
  ghost predicate ConformsAt(exec: Executor, s: State) {
    var c := PendingCommand(s);
    var done := exec(Timeless(s), c);
    ValidateOutput(c.kind, c.attemptId, done.output).Pass? && done.cost >= 0 && !HasCredential(done.output)
  }

  /** An executor that never fails, on the states this Run itself can reach with it. */
  ghost predicate Conforming(exec: Executor, runId: string) {
    forall log :: ChainOf(exec, log, runId) && Final(log).pendingId != "" ==> ConformsAt(exec, Final(log))
  }

  // ----- states along a chain -----

  function FirstAttempt(runId: string): string {
    runId + ":attempt:" + Decimal(1)
  }

  predicate Forward(status: Status) {
    status.Queued? || status.Provisioning? || status.Reasoning? || status.Acting? || status.Verifying? || status.Succeeded?
  }

  ghost predicate PendingSteady(s: State) {
    if s.pendingType == NoCommand then s.pendingId == ""
    else
      && ForwardKind(s.pendingType) && s.pendingScope == ScopedIdempotent
      && s.pendingAttempt == (if s.pendingType == StartAttempt then FirstAttempt(s.run.id) else s.attemptId)
      && s.pendingId == ActionDigest(s.run.id, s.pendingType, s.run.currentAttempt, s.attemptId)
  }

  /** Running forward: no intent but Running, no failure, the first attempt, scoped actions. */
  ghost predicate Steady(s: State) {
    && s.present && Reachable(s)
    && s.run.desired == DesiredRunning && Forward(s.run.observed) && s.failureReason == ""
    && (s.run.currentAttempt > 0 ==> s.attemptId == FirstAttempt(s.run.id))
    && PendingSteady(s)
  }

  /** How many events after its creation a steady Run has. */
  function Position(s: State): nat {
    (match s.run.observed
     case Queued => 0
     case Provisioning => 2
     case Reasoning => 4
     case Acting => 6
     case Verifying => if s.verificationPassed then 10 else 8
     case _ => 12) + (if s.pendingId != "" then 1 else 0)
  }

  lemma CreationSteady(e: Event)
    requires e.runId != ""
    ensures ApplyEvent(INITIAL, e).Ok? && e.kind == RunCreated ==>
              Steady(ApplyEvent(INITIAL, e).value) && Position(ApplyEvent(INITIAL, e).value) == 0
  {
    hide ApplyLegacy, ApplyDesired, ApplyActionCompleted, ApplyActionFailed, ApplyActionPlanned;
  }

  lemma SteadyDecides(s: State)
    requires Steady(s) && s.pendingId == ""
    ensures
      var c := Decide(s);
      if s.run.observed == Succeeded then c.kind == Noop
      else ForwardKind(c.kind) && c.runId == s.run.id
           && c.actionId == ActionDigest(s.run.id, c.kind, s.run.currentAttempt, s.attemptId)
           && c.attemptId == (if c.kind == StartAttempt then FirstAttempt(s.run.id) else s.attemptId)
  {
  }

  lemma PlanSteady(s: State, c: Command)
    requires AllScoped() && Steady(s) && c == Decide(s) && s.pendingId == "" && c.kind != Noop
    requires ApplyActionPlanned(s, PlanData(c, Safety(c))).Ok?
    ensures
      var t := ApplyActionPlanned(s, PlanData(c, Safety(c))).value;
      && Steady(t) && Position(t) == Position(s) + 1
      && PendingCommand(t) == c && t.attemptId == s.attemptId && t.run.id == s.run.id
      && t.pendingId != ""
  {
    hide Decide, Reachable, ApplyActionPlanned;
    SteadyDecides(s);
    PlanEffect(s, PlanData(c, Safety(c)));
    PlannedKeeps(s, PlanData(c, Safety(c)));
  }

  /** A completion of a steady state, as the reducer's own summary tells it. */
  lemma CompletionDetail(s: State, d: EventData)
    requires Steady(s) && ApplyActionCompleted(s, d).Ok?
    ensures
      var t := ApplyActionCompleted(s, d).value;
      && ManagedPending(s, d)
      && t.run.observed == StatusAfter(d.actionType)
      && t.run.id == s.run.id && t.present
      && (if d.actionType == StartAttempt then t.attemptId == d.attemptId else t.attemptId == s.attemptId)
      && t.failureReason == ""
  {
    hide Allowed, ProgressRules;
  }

  lemma CompletionSteady(exec: Executor, s: State)
    requires ConformsAt(exec, s) && Steady(s) && s.pendingId != ""
    requires ApplyActionCompleted(s, CompletionOf(ReceiptFor(exec, s))).Ok?
    ensures
      var t := ApplyActionCompleted(s, CompletionOf(ReceiptFor(exec, s))).value;
      && Steady(t) && Position(t) == Position(s) + 1 && t.run.id == s.run.id && t.pendingId == ""
      && (s.attemptId != "" ==> t.attemptId == s.attemptId)
  {
    hide Reachable, ApplyActionCompleted;
    var d := CompletionOf(ReceiptFor(exec, s));
    CompletionDetail(s, d);
    CompletionEffect(s, d);
    CompletedKeeps(s, d);
    SteadyPending(s);
    if s.pendingType == StartAttempt {
      PerformedAttempt(exec, s);
    }
  }

  lemma SteadyPending(s: State)
    requires Steady(s) && s.pendingId != ""
    ensures s.run.observed == StageOf(s.pendingType) && ForwardKind(s.pendingType)
    ensures s.pendingType == Verify ==> !s.verificationPassed
    ensures s.pendingType == SucceedRun ==> s.verificationPassed
    ensures s.pendingType != StartAttempt ==> s.attemptId == FirstAttempt(s.run.id)
    ensures s.pendingType == StartAttempt ==> s.attemptId == ""
    ensures !s.verificationPassed || s.run.observed == Verifying
  {
  }

  lemma PerformedAttempt(exec: Executor, s: State)
    requires ConformsAt(exec, s) && s.pendingType == StartAttempt
    ensures CompletionOf(ReceiptFor(exec, s)).attemptId == s.pendingAttempt
  {
  }

  // ----- logs that are chains -----

  lemma FollowSteady(exec: Executor, s: State, e: Event)
    requires AllScoped() && Steady(s) && (s.pendingId != "" ==> ConformsAt(exec, s))
    requires NextEvent(exec, s) == Some(Bare(e)) && ApplyEvent(s, e).Ok?
    ensures
      var t := ApplyEvent(s, e).value;
      Steady(t) && Position(t) == Position(s) + 1 && t.run.id == s.run.id && (s.attemptId != "" ==> t.attemptId == s.attemptId)
  {
    hide Steady, ApplyActionPlanned, ApplyActionCompleted, Decide, Position, ReceiptFor;
    assert s.pendingType != NoCommand || !LegacyResult(e.kind);
    if s.pendingId != "" {
      CompletionSteady(exec, s);
    } else {
      PlanSteady(s, Decide(s));
    }
  }

  lemma StampSteady(s: State, e: Event)
    requires Steady(s)
    ensures Steady(Stamp(s, e)) && Position(Stamp(s, e)) == Position(s)
  {
  }

  /** The Run a log describes is the same at every prefix. */
  lemma {:induction false} SameRunThroughout(log: seq<Event>, n: nat)
    requires ValidLog(log) && 1 <= n <= |log|
    ensures ValidLog(log[..n]) && Final(log[..n]).run.id == Final(log).run.id
    decreases |log|
  {
    hide Fold, ApplyEvent, Stamp, Reachable;
    PrefixValid(log, n);
    if n < |log| {
      var k := |log| - 1;
      assert log[..k + 1] == log && log[..k][..n] == log[..n];
      StepAt(log, k);
      SameRunThroughout(log[..k], n);
      ApplyKeeps(Final(log[..k]), log[k]);
      StampRun(ApplyEvent(Final(log[..k]), log[k]).value, log[k]);
    } else {
      assert log[..n] == log;
    }
  }

  lemma StampRun(s: State, e: Event)
    ensures Stamp(s, e).run.id == s.run.id
  {
  }

  /** One more event of a chain advances by exactly one position. */
  lemma ChainStep(exec: Executor, log: seq<Event>)
    requires AllScoped() && IsChain(exec, log)
    requires |log| > 1 ==>
               var s := Final(log[..|log| - 1]);
               ValidLog(log[..|log| - 1]) && Steady(s) && Position(s) == |log| - 2 && (s.pendingId != "" ==> ConformsAt(exec, s))
    ensures Steady(Final(log)) && Position(Final(log)) == |log| - 1
  {
    hide Fold, ApplyEvent, Stamp, Reachable, Steady, Position, NextEvent, ConformsAt, AllScoped;
    var n := |log| - 1;
    assert log[..n + 1] == log;
    StepAt(log, n);
    if n == 0 {
      assert log[..0] == [];
      EmptyScan();
      CreationSteady(log[0]);
    } else {
      assert Follows(exec, log, n);
      FollowSteady(exec, Final(log[..n]), log[n]);
    }
    StampSteady(ApplyEvent(Final(log[..n]), log[n]).value, log[n]);
  }

  lemma {:induction false} ChainSteady(exec: Executor, log: seq<Event>)
    requires AllScoped() && IsChain(exec, log) && Conforming(exec, Final(log).run.id)
    ensures Steady(Final(log)) && Position(Final(log)) == |log| - 1
  {
    hide Fold, Reachable, Steady, Position, IsChain, ConformsAt, AllScoped;
    ChainShape(exec, log);
    var n := |log| - 1;
    if n > 0 {
      SameRunThroughout(log, n);
      ChainPrefix(exec, log, n);
      ChainSteady(exec, log[..n]);
    }
    ChainStep(exec, log);
  }

  lemma ChainShape(exec: Executor, log: seq<Event>)
    requires IsChain(exec, log)
    ensures ValidLog(log) && log != []
  {
    hide Fold;
  }

  lemma ChainPrefix(exec: Executor, log: seq<Event>, n: nat)
    requires IsChain(exec, log) && 1 <= n <= |log|
    ensures IsChain(exec, log[..n])
  {
    hide Fold, NextEvent;
    PrefixValid(log, n);
    forall k | 1 <= k < n
      ensures Follows(exec, log[..n], k)
    {
      assert Follows(exec, log, k);
      assert log[..n][..k] == log[..k];
    }
  }

  lemma ChainGrows(exec: Executor, log: seq<Event>, e: Event)
    requires IsChain(exec, log) && ValidLog(log + [e]) && NextEvent(exec, Final(log)) == Some(Bare(e))
    ensures IsChain(exec, log + [e])
  {
    hide Fold, NextEvent;
    var longer := log + [e];
    forall k | 1 <= k < |longer|
      ensures Follows(exec, longer, k)
    {
      assert longer[..k] == log[..k];
      if k < |log| {
        assert Follows(exec, log, k);
      } else {
        assert log[..k] == log;
      }
    }
  }

  /** A chain plans under the controller's own keys. */
  lemma ChainPlanKeys(exec: Executor, log: seq<Event>)
    requires IsChain(exec, log)
    ensures PlanKeys(log)
  {
    hide Fold, ReceiptFor, Decide;
    forall i | 0 <= i < |log| && log[i].kind == ActionPlanned
      ensures log[i].key == log[i].data.actionId + ":action-planned"
    {
      assert Follows(exec, log, i);
    }
  }

  // ----- a chain is determined by its creation -----

  lemma DecideTimeless(s: State)
    ensures Decide(Timeless(s)) == Decide(s)
  {
  }

  lemma NextTimeless(exec: Executor, s: State)
    ensures NextEvent(exec, Timeless(s)) == NextEvent(exec, s)
  {
    hide Decide;
    DecideTimeless(s);
    assert Timeless(Timeless(s)) == Timeless(s);
  }

  lemma AdvanceTimeless(s: State, next: Status)
    requires Advance(s, next).Ok?
    ensures Advance(Timeless(s), next) == Ok(Timeless(Advance(s, next).value))
  {
    hide ValidateTransition;
    assert Logical(Timeless(s)) == Logical(s);
  }

  lemma ResultTimeless(s: State, d: EventData)
    requires ApplyResult(s, d).Ok?
    ensures ApplyResult(Timeless(s), d) == Ok(Timeless(ApplyResult(s, d).value))
  {
    hide Advance;
    match d.actionType
    case StartAttempt => AdvanceTimeless(Attempted(s, d.attemptId), Provisioning);
    case ProvisionWorkspace => AdvanceTimeless(s, Reasoning);
    case RunReasoner => AdvanceTimeless(Reasoned(s, d), Acting);
    case ApplyPatch => AdvanceTimeless(s.(patchProduced := true), Verifying);
    case SucceedRun => AdvanceTimeless(s, Succeeded);
    case FailRun => AdvanceTimeless(s.(failureReason := if d.reason != "" then d.reason else s.failureReason), Failed);
    case CancelRun => AdvanceTimeless(s, Cancelled);
    case _ =>
  }

  lemma CompletionTimeless(s: State, d: EventData)
    requires ApplyActionCompleted(s, d).Ok?
    ensures ApplyActionCompleted(Timeless(s), d) == Ok(Timeless(ApplyActionCompleted(s, d).value))
  {
    hide ApplyResult;
    if !CancelWins(s, d) {
      ResultTimeless(s, d);
    }
  }

  lemma PlanTimeless(s: State, d: EventData)
    requires ApplyActionPlanned(s, d).Ok?
    ensures ApplyActionPlanned(Timeless(s), d) == Ok(Timeless(ApplyActionPlanned(s, d).value))
  {
    hide Decide;
    DecideTimeless(s);
  }

  lemma CreationTimeless(e: Event, f: Event)
    requires Bare(e) == Bare(f) && e.kind == RunCreated
    ensures ApplyEvent(INITIAL, e).Ok? && ApplyEvent(INITIAL, f).Ok?
    ensures Timeless(ApplyEvent(INITIAL, e).value) == Timeless(ApplyEvent(INITIAL, f).value)
  {
    hide ApplyLegacy, ApplyDesired, ApplyActionCompleted, ApplyActionFailed, ApplyActionPlanned;
  }

  lemma ApplyTimeless(s: State, e: Event, u: State, f: Event)
    requires Timeless(s) == Timeless(u) && Bare(e) == Bare(f) && (e.kind == ActionPlanned || e.kind == ActionCompleted)
    requires ApplyEvent(s, e).Ok? && ApplyEvent(u, f).Ok?
    ensures Timeless(ApplyEvent(s, e).value) == Timeless(ApplyEvent(u, f).value)
  {
    hide ApplyActionPlanned, ApplyActionCompleted, Timeless;
    if e.kind == ActionPlanned {
      PlanTimeless(s, e.data);
      PlanTimeless(u, f.data);
    } else {
      CompletionTimeless(s, e.data);
      CompletionTimeless(u, f.data);
    }
  }

  lemma StampTimeless(s: State, e: Event, u: State, f: Event)
    requires Timeless(s) == Timeless(u) && Bare(e) == Bare(f)
    ensures Timeless(Stamp(s, e)) == Timeless(Stamp(u, f))
  {
  }

  lemma FollowKind(exec: Executor, s: State, e: Event)
    requires NextEvent(exec, s) == Some(Bare(e))
    ensures e.kind == ActionPlanned || e.kind == ActionCompleted
  {
    hide Decide, ReceiptFor;
  }

  /** Two chains with the same creation write the same events and project the same state, timestamps aside. */
  lemma {:induction false} ChainsAgree(exec: Executor, a: seq<Event>, b: seq<Event>, n: nat)
    requires IsChain(exec, a) && IsChain(exec, b) && Bare(a[0]) == Bare(b[0])
    requires 1 <= n <= |a| && n <= |b|
    ensures ValidLog(a[..n]) && ValidLog(b[..n])
    ensures Timeless(Final(a[..n])) == Timeless(Final(b[..n]))
    ensures forall i :: 0 <= i < n ==> Bare(a[i]) == Bare(b[i])
  {
    hide Fold, ApplyEvent, Stamp, Reachable, NextEvent, Timeless, Bare;
    var k := n - 1;
    StepAt(a, k);
    StepAt(b, k);
    if k == 0 {
      assert a[..0] == b[..0] == [];
      EmptyScan();
      CreationTimeless(a[0], b[0]);
    } else {
      ChainsAgree(exec, a, b, k);
      assert Follows(exec, a, k) && Follows(exec, b, k);
      NextTimeless(exec, Final(a[..k]));
      NextTimeless(exec, Final(b[..k]));
      FollowKind(exec, Final(a[..k]), a[k]);
      ApplyTimeless(Final(a[..k]), a[k], Final(b[..k]), b[k]);
    }
    StampTimeless(ApplyEvent(Final(a[..k]), a[k]).value, a[k], ApplyEvent(Final(b[..k]), b[k]).value, b[k]);
  }

  // ----- the source's own executor -----

  /** Its outputs for this Run pass the credential scan: three payloads to look at beforehand. */
  predicate OutputsPass(runId: string) {
    && !HasCredential(NO_DATA)
    && !HasCredential(NO_DATA.(attemptId := FirstAttempt(runId), reason := "initial"))
    && !HasCredential(DETERMINISTIC_REASONING)
  }

  lemma DeterministicConformsAt(s: State)
    requires Steady(s) && s.pendingId != "" && OutputsPass(s.run.id)
    ensures ConformsAt(DeterministicWork, s)
  {
    hide Reachable;
    assert ForwardKind(s.pendingType);
  }

  lemma {:induction false} DeterministicSteady(log: seq<Event>)
    requires AllScoped() && IsChain(DeterministicWork, log) && OutputsPass(Final(log).run.id)
    ensures Steady(Final(log)) && Position(Final(log)) == |log| - 1
  {
    hide Fold, Reachable, Steady, Position, IsChain, ConformsAt, AllScoped, OutputsPass;
    ChainShape(DeterministicWork, log);
    var n := |log| - 1;
    if n > 0 {
      SameRunThroughout(log, n);
      ChainPrefix(DeterministicWork, log, n);
      DeterministicSteady(log[..n]);
      if Final(log[..n]).pendingId != "" {
        DeterministicConformsAt(Final(log[..n]));
      }
    }
    ChainStep(DeterministicWork, log);
  }

  /** ExecuteDeterministicAction conforms for every Run whose three outputs pass the scan. */
  lemma DeterministicConforms(runId: string)
    requires AllScoped() && OutputsPass(runId)
    ensures Conforming(DeterministicWork, runId)
  {
    hide Fold, Reachable, Steady, ConformsAt, AllScoped, OutputsPass, Follows;
    forall log | ChainOf(DeterministicWork, log, runId) && Final(log).pendingId != ""
      ensures ConformsAt(DeterministicWork, Final(log))
    {
      DeterministicSteady(log);
      DeterministicConformsAt(Final(log));
    }
  }
}
