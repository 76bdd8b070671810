/** The compatibility path of the controller (internal/controller/controller.go) on the in-memory store. */
module LegacyController {
  import opened Wrappers
  import opened Types
  import opened Decider
  import opened Reducer
  import opened Projection
  import opened Lifecycle
  import opened Effects
  import opened EventStore
  import opened MemoryStore
  import opened TwoModels

  /** What the reasoner came back with. */
  datatype Reply = Answer(result: EventData) | Broke(reason: string)

  /** The facts one Reconcile call appends; a pending action is not planned again. */
  function ReconcileFacts(s: State, c: Command, reasoned: Reply): seq<Fact> {
    var d := NO_DATA.(actionId := c.actionId);
    var result := if reasoned.Answer? then reasoned.result else NO_DATA;
    var facts := LegacyFacts(s, c, result);
    if c.kind == RunReasoner then
      (if s.pendingId == "" then [facts[0]] else [])
      + (if reasoned.Answer? then [facts[1]] else [Fact(ToolCallFailed, d.(reason := reasoned.reason))])
    else if c.kind == Verify && s.pendingId != "" then facts[1..]
    else facts
  }

  function FactsOf(events: seq<Event>): seq<Fact> {
    seq(|events|, i requires 0 <= i < |events| => Fact(events[i].kind, events[i].data))
  }

  /** The suffix the controller gives an event's idempotency key. */
  function KeySuffix(kind: EventType): string {
    match kind
    case AttemptStarted => ":attempt-started"
    case WorkspaceProvisioned => ":workspace-provisioned"
    case ReasoningPlanned => ":reasoning-planned"
    case ReasoningCompleted => ":reasoning-completed"
    case ToolCallFailed => ":tool-call-failed"
    case PatchProduced => ":patch-produced"
    case VerificationPlanned => ":verification-planned"
    case VerificationPassed => ":verification-passed"
    case RunSucceeded => ":run-succeeded"
    case RunFailed => ":run-failed"
    case _ => ":run-cancelled"
  }

  predicate FactKind(kind: EventType) {
    || kind.AttemptStarted? || kind.WorkspaceProvisioned? || kind.ReasoningPlanned? || kind.ReasoningCompleted?
    || kind.ToolCallFailed? || kind.PatchProduced? || kind.VerificationPlanned? || kind.VerificationPassed?
    || kind.RunSucceeded? || kind.RunFailed? || kind.RunCancelled?
  }

  /** Facts of different kinds never share a key under one action. */
  lemma KeysTellKinds(actionId: string, a: EventType, b: EventType)
    requires FactKind(a) && FactKind(b) && actionId + KeySuffix(a) == actionId + KeySuffix(b)
    ensures a == b
  {
    var s, t := KeySuffix(a), KeySuffix(b);
    assert s == (actionId + s)[|actionId|..] == (actionId + t)[|actionId|..] == t;
    assert s[1] == t[1] && s[5] == t[5];
  }

  datatype Refusal = StoreRefused(error: StoreError) | RequiresLease

  /** The event the controller appends for a fact. */
  function EventFor(runId: string, command: Command, fact: Fact): Event {
    Event(runId, 0, fact.kind, 0, fact.data, command.actionId + KeySuffix(fact.kind), "", runId, "", 0, "")
  }

  // ----- what the facts of a call project to -----

  /** The projection without what Reduce records about every event. */
  function Unstamped(s: State): State {
    s.(run := s.run.(version := 0, updatedAt := ""), lastEvent := NoEvent)
  }

  lemma AdvanceUnstamped(s: State, next: Status)
    requires Advance(s, next).Ok?
    ensures Advance(Unstamped(s), next) == Ok(Unstamped(Advance(s, next).value))
  {
    hide ValidateTransition;
    assert Logical(Unstamped(s)) == Logical(s);
  }

  lemma TransitionUnstamped(s: State, next: Status)
    requires Transition(s, next).Ok?
    ensures Transition(Unstamped(s), next) == Ok(Unstamped(Transition(s, next).value))
  {
    hide ValidateTransition;
  }

  lemma LegacyUnstamped(s: State, kind: EventType, d: EventData)
    requires ApplyLegacy(s, kind, d).Ok?
    ensures ApplyLegacy(Unstamped(s), kind, d) == Ok(Unstamped(ApplyLegacy(s, kind, d).value))
  {
    hide Advance, Transition;
    match kind
    case AttemptStarted => TransitionUnstamped(Attempted(s, d.attemptId), Provisioning);
    case WorkspaceProvisioned => TransitionUnstamped(s, Reasoning);
    case ReasoningCompleted => AdvanceUnstamped(Reasoned(s, d).(pendingId := ""), Acting);
    case PatchProduced => TransitionUnstamped(s.(patchProduced := true), Verifying);
    case RunSucceeded => TransitionUnstamped(s, Succeeded);
    case RunFailed =>
      TransitionUnstamped(s.(failureReason := if d.reason != "" then d.reason else s.failureReason, pendingId := ""), Failed);
    case RunCancelled => TransitionUnstamped(s.(pendingId := ""), Cancelled);
    case _ =>
  }

  lemma StampUnstamped(s: State, e: Event)
    ensures Unstamped(Stamp(s, e)) == Unstamped(s) && Stamp(s, e).pendingType == s.pendingType
  {
  }

  lemma LegacyEventApplies(s: State, e: Event)
    requires LegacyResult(e.kind) && ApplyEvent(s, e).Ok?
    ensures s.pendingType == NoCommand
    ensures ApplyEvent(s, e) == ApplyLegacy(s, e.kind, e.data) == ApplyFact(s, Fact(e.kind, e.data))
  {
    hide ApplyLegacy, ApplyDesired, ApplyActionPlanned, ApplyActionCompleted, ApplyActionFailed;
  }

  /** One legacy event of a valid log, read as its fact. */
  lemma EventIsFact(log: seq<Event>, e: Event)
    requires ValidLog(log + [e]) && LegacyResult(e.kind)
    ensures ValidLog(log) && Reachable(Final(log)) && Final(log).pendingType == NoCommand
    ensures
      var f := ApplyFact(Final(log), Fact(e.kind, e.data));
      && f.Ok? && Unstamped(Final(log + [e])) == Unstamped(f.value)
      && f == ApplyLegacy(Final(log), e.kind, e.data)
      && Final(log + [e]).pendingType == NoCommand
  {
    hide Fold, ApplyEvent, ApplyFact, ApplyLegacy, Stamp, Reachable, Unstamped;
    assert (log + [e])[..|log|] == log && (log + [e])[..|log| + 1] == log + [e];
    StepAt(log + [e], |log|);
    var s := Final(log);
    LegacyEventApplies(s, e);
    LegacyEffect(s, e.kind, e.data);
    StampUnstamped(ApplyEvent(s, e).value, e);
  }

  lemma FactUnstamped(s: State, u: State, f: Fact)
    requires Unstamped(s) == Unstamped(u) && s.pendingType == NoCommand && LegacyResult(f.kind)
    requires ApplyLegacy(s, f.kind, f.data).Ok?
    requires ApplyFact(u, f).Ok?
    ensures Unstamped(ApplyLegacy(s, f.kind, f.data).value) == Unstamped(ApplyFact(u, f).value)
  {
    hide ApplyLegacy;
    LegacyUnstamped(s, f.kind, f.data);
    LegacyUnstamped(u, f.kind, f.data);
  }

  /** Appending the facts of a call projects what applying them does. */
  lemma EventsProject(log: seq<Event>, events: seq<Event>)
    requires 1 <= |events| <= 2 && ValidLog(log + events)
    requires forall i :: 0 <= i < |events| ==> LegacyResult(events[i].kind)
    requires ValidLog(log) && ApplyFacts(Final(log), FactsOf(events)).Ok?
    ensures Unstamped(Final(log + events)) == Unstamped(ApplyFacts(Final(log), FactsOf(events)).value)
  {
    hide Fold, ApplyFact, Reachable, Unstamped, ApplyLegacy;
    var e := events[0];
    if |events| == 1 {
      assert events == [e];
      EventIsFact(log, e);
    } else {
      var f := events[1];
      var longer := log + [e];
      assert events == [e, f] && log + events == longer + [f];
      EventIsFact(longer, f);
      EventIsFact(log, e);
      FactUnstamped(Final(longer), ApplyFact(Final(log), Fact(e.kind, e.data)).value, Fact(f.kind, f.data));
    }
  }

  /** The managed plan and completion end in the same projection, receipt bookkeeping aside. */
  ghost predicate ManagedEnds(s: State, c: Command, scope: IdempotencyScope, receiptId: string, result: EventData, after: State) {
    var managed := RunManaged(s, c, scope, receiptId, result);
    managed.Ok? && Unstamped(managed.value) == Unstamped(after).(lastCompletedId := c.actionId, lastReceiptId := receiptId)
  }

  /** The projection a call must leave: that of the legacy facts, hence of every managed run of the command. */
  ghost predicate Agreed(s: State, c: Command, result: EventData, after: State) {
    && RunLegacy(s, c, result).Ok? && Unstamped(after) == Unstamped(RunLegacy(s, c, result).value)
    && (!CancelsPaused(s, c) ==>
          forall scope: IdempotencyScope, receiptId: string :: scope.Valid() && receiptId != "" ==>
            ManagedEnds(s, c, scope, receiptId, result, after))
  }

  lemma FactsAreLegacy(s: State, c: Command, result: EventData, events: seq<Event>)
    requires FactsOf(events) == LegacyFacts(s, c, result)
    ensures |events| <= 2 && forall i :: 0 <= i < |events| ==> LegacyResult(events[i].kind)
    ensures c.kind == RunReasoner ==> |events| == 2 && events[1].kind == ReasoningCompleted && events[1].data.toolName == result.toolName
  {
    forall i | 0 <= i < |events|
      ensures LegacyResult(events[i].kind)
    {
      assert FactsOf(events)[i].kind == events[i].kind;
    }
    if c.kind == RunReasoner {
      assert FactsOf(events)[1] == Fact(events[1].kind, events[1].data);
    }
  }

  lemma AnswersNameTools(log: seq<Event>, events: seq<Event>)
    requires |events| == 2 && ValidLog(log + events) && events[1].kind == ReasoningCompleted
    ensures events[1].data.toolName != ""
  {
    hide Fold, ApplyLegacy, Reachable;
    assert log + events == (log + [events[0]]) + [events[1]];
    EventIsFact(log + [events[0]], events[1]);
    LegacyEffect(Final(log + [events[0]]), events[1].kind, events[1].data);
  }

  lemma DecidedFacts(s: State, result: EventData)
    requires Reachable(s) && s.present && Decide(s).kind != Noop
    ensures LegacyFacts(s, Decide(s), result) != []
  {
    hide Decide, Reachable;
    DecisionFits(s);
  }

  /** A call that appended the facts of its command left the agreed projection. */
  lemma FactsAgree(log: seq<Event>, events: seq<Event>, result: EventData)
    requires ValidLog(log) && log != [] && ValidLog(log + events) && Final(log).pendingId == ""
    requires Decide(Final(log)).kind != Noop
    requires FactsOf(events) == LegacyFacts(Final(log), Decide(Final(log)), result)
    ensures Agreed(Final(log), Decide(Final(log)), result, Final(log + events))
  {
    hide Fold, Reachable, Decide, LegacyFacts, ManagedFacts, ApplyFacts, CancelsPaused, Unstamped;
    ProjectionReachable(log);
    var s, c := Final(log), Decide(Final(log));
    FactsAreLegacy(s, c, result, events);
    DecidedFacts(s, result);
    if c.kind == RunReasoner {
      AnswersNameTools(log, events);
    }
    ModelsAgree(log, ScopedIdempotent, "r", result);
    EventsProject(log, events);
    if !CancelsPaused(s, c) {
      forall scope: IdempotencyScope, receiptId: string | scope.Valid() && receiptId != ""
        ensures ManagedEnds(s, c, scope, receiptId, result, Final(log + events))
      {
        ModelsAgree(log, scope, receiptId, result);
        ReceiptUnstamped(RunLegacy(s, c, result).value, c.actionId, receiptId);
      }
    }
  }

  lemma ReceiptUnstamped(s: State, actionId: string, receiptId: string)
    ensures Unstamped(s.(lastCompletedId := actionId, lastReceiptId := receiptId))
            == Unstamped(s).(lastCompletedId := actionId, lastReceiptId := receiptId)
  {
  }

  // ----- the controller -----

  /** A call that stopped after planning is resumed by the next one: same command, and exactly the facts still missing. */
  lemma ResumesAfterPlan(s: State, reasoned: Reply)
    requires Reachable(s) && s.pendingId == "" && (Decide(s).kind == RunReasoner || Decide(s).kind == Verify)
    ensures
      var c := Decide(s);
      var facts := ReconcileFacts(s, c, reasoned);
      && |facts| == 2 && ApplyFact(s, facts[0]).Ok?
      && var planned := ApplyFact(s, facts[0]).value;
      && planned.pendingId == c.actionId && Decide(planned) == c && ReconcileFacts(planned, c, reasoned) == facts[1..]
  {
  }

  // ----- what a call answers -----

  /** The store's answer at the current version, to which one lost race leads as well. */
  function Settled(log: seq<Event>, event: Event): AppendResult {
    AppendOutcome(log, |log|, event)
  }

  function LogWith(log: seq<Event>, r: AppendResult): seq<Event> {
    if r.Appended? then log + [r.event] else log
  }

  lemma SettledAnyway(log: seq<Event>, version: nat, event: Event)
    ensures
      var r := AppendOutcome(log, version, event);
      if r.Refused? && r.error.VersionConflict? then version != |log| else r == Settled(log, event)
    ensures !(Settled(log, event).Refused? && Settled(log, event).error.VersionConflict?)
  {
    hide Fold, FindKey, SameEvent;
  }

  lemma RetriedAnyway(log: seq<Event>, event: Event)
    requires log != [] && ValidLog(log)
    ensures AppendOutcome(log, Final(log).run.version, event) == Settled(log, event)
  {
    hide Fold, AppendOutcome;
    ProjectionReachable(log);
  }

  /** What appending facts one after the other leaves, up to the first the store refuses. */
  datatype Played = Played(log: seq<Event>, refusal: Option<StoreError>, replayed: bool)

  function Play(log: seq<Event>, replayed: bool, runId: string, command: Command, facts: seq<Fact>): Played
    decreases |facts|
  {
    if facts == [] then Played(log, None, replayed)
    else
      var r := Settled(log, EventFor(runId, command, facts[0]));
      if r.Refused? then Played(log, Some(r.error), replayed)
      else Play(LogWith(log, r), replayed || r.Replayed?, runId, command, facts[1..])
  }

  /** What is left to play leads where the whole does. */
  ghost predicate Rest(start: seq<Event>, log: seq<Event>, replayed: bool, runId: string, command: Command, facts: seq<Fact>, index: nat)
    requires index <= |facts|
  {
    Play(start, false, runId, command, facts) == Play(log, replayed, runId, command, facts[index..])
  }

  lemma PlayOn(log: seq<Event>, replayed: bool, runId: string, command: Command, facts: seq<Fact>, index: nat)
    requires index < |facts|
    ensures
      var r := Settled(log, EventFor(runId, command, facts[index]));
      Play(log, replayed, runId, command, facts[index..])
      == if r.Refused? then Played(log, Some(r.error), replayed)
         else Play(LogWith(log, r), replayed || r.Replayed?, runId, command, facts[index + 1..])
  {
    hide Settled, EventFor, LogWith;
    assert facts[index..][0] == facts[index] && facts[index..][1..] == facts[index + 1..];
  }

  lemma PlayedOut(log: seq<Event>, replayed: bool, runId: string, command: Command, facts: seq<Fact>)
    ensures Play(log, replayed, runId, command, facts[|facts|..]) == Played(log, None, replayed)
  {
  }

  /** A refusal has a cause the store names: a credential, a key used for another event, or the reducer. */
  lemma {:induction false} RefusedForCause(log: seq<Event>, replayed: bool, runId: string, command: Command, facts: seq<Fact>)
    requires ValidLog(log) && runId != ""
    ensures
      var played := Play(log, replayed, runId, command, facts);
      && ValidLog(played.log) && log <= played.log
      && (played.refusal.Some? ==>
            exists k :: 0 <= k < |facts| && RefusedAt(played.log, EventFor(runId, command, facts[k]), played.refusal.value))
    decreases |facts|
  {
    hide Fold, EventFor;
    if facts != [] {
      var e := EventFor(runId, command, facts[0]);
      var r := Settled(log, e);
      if r.Refused? {
        assert e == EventFor(runId, command, facts[0]) && WellFormed(e) by { FactsWellFormed(runId, command, facts[0]); }
        CausesOf(log, e);
      } else {
        RefusedForCause(LogWith(log, r), replayed || r.Replayed?, runId, command, facts[1..]);
        var played := Play(log, replayed, runId, command, facts);
        if played.refusal.Some? {
          var k :| 0 <= k < |facts[1..]| && RefusedAt(played.log, EventFor(runId, command, facts[1..][k]), played.refusal.value);
          assert facts[1..][k] == facts[k + 1];
        }
      }
    }
  }

  ghost predicate RefusedAt(log: seq<Event>, e: Event, error: StoreError) {
    match error
    case SensitivePayload => HasCredential(e.data)
    case IdempotencyConflict => exists i :: 0 <= i < |log| && log[i].key == e.key && !SameEvent(log[i], e)
    case Rejected(reason) => Fold(log + [Normalized(e).(seqNo := |log| + 1)]) == Err(reason)
    case _ => false
  }

  lemma FactsWellFormed(runId: string, command: Command, fact: Fact)
    requires runId != ""
    ensures WellFormed(EventFor(runId, command, fact))
  {
    assert |KeySuffix(fact.kind)| > 0;
  }

  lemma CausesOf(log: seq<Event>, e: Event)
    requires WellFormed(e) && Settled(log, e).Refused?
    ensures RefusedAt(log, e, Settled(log, e).error)
  {
    hide Fold, FindKey, SameEvent;
    if FindKey(log, e.key).Some? {
      FindKeyFinds(log, e.key);
      FoundHasKey(log, e.key);
    }
  }

  lemma {:induction false} FoundHasKey(log: seq<Event>, key: string)
    requires FindKey(log, key).Some?
    ensures FindKey(log, key).value.key == key
  {
    if log[0].key != key {
      FoundHasKey(log[1..], key);
    }
  }

  class Controller {
    const store: MemoryEventStore
    /** The appender's captured variables. */
    var expectedVersion: nat
    var appended: seq<Event>
    var replayed: bool

    constructor (store: MemoryEventStore)
      ensures this.store == store
    {
      this.store := store;
      expectedVersion, appended, replayed := 0, [], false;
    }

    /** One append, and another at the reread version if the first lost a race. */
    method Submit(event: Event) returns (r: AppendResult)
      requires store.Valid()
      modifies this`expectedVersion, store
      ensures store.Valid() && store.Log(event.runId) == LogWith(old(store.Log(event.runId)), r)
      ensures old(store.Log(event.runId)) != [] ==> r == Settled(old(store.Log(event.runId)), event)
      ensures !r.Refused? ==> exists version :: AppendOutcome(old(store.Log(event.runId)), version, event) == r
    {
      hide Fold, AppendOutcome, Stored, Indexes, Settled;
      ghost var log := store.Log(event.runId);
      SettledAnyway(log, expectedVersion, event);
      r := store.Append(expectedVersion, event);
      if r.Refused? && r.error.VersionConflict? {
        var current := store.Rebuild(event.runId);
        if current.Failure? {
          return Refused(current.error);
        }
        expectedVersion := current.value.run.version;
        RetriedAnyway(log, event);
        r := store.Append(expectedVersion, event);
      }
    }

    /** Without a refusal the event is durable, stored now or before; a refusal appends nothing. */
    method AppendEvent(runId: string, command: Command, fact: Fact, ghost start: seq<Event>) returns (refusal: Option<StoreError>)
      requires store.Valid() && store.Log(runId) == start + appended
      modifies this, store
      ensures store.Valid() && store.Log(runId) == start + appended
      ensures refusal.None? ==> Durable(store.Log(runId), EventFor(runId, command, fact))
      ensures old(replayed) ==> replayed
      ensures FactsOf(appended) == FactsOf(old(appended)) || FactsOf(appended) == FactsOf(old(appended)) + [fact]
      ensures refusal.None? && !replayed ==> FactsOf(appended) == FactsOf(old(appended)) + [fact]
      ensures refusal.Some? ==> appended == old(appended)
      ensures old(appended) <= appended
      ensures old(store.Log(runId)) != [] ==>
                var r := Settled(old(store.Log(runId)), EventFor(runId, command, fact));
                && refusal == (if r.Refused? then Some(r.error) else None)
                && replayed == (old(replayed) || r.Replayed?)
                && store.Log(runId) == LogWith(old(store.Log(runId)), r)
    {
      hide Fold, AppendOutcome, Stored, Indexes, KeySuffix, FactsOf, Durable, Settled;
      var event := EventFor(runId, command, fact);
      var r := Submit(event);
      match r
      case Refused(error) => refusal := Some(error);
      case Appended(stored) =>
        AppendedFact(start + appended, event, stored);
        FactsSnoc(appended, stored);
        appended := appended + [stored];
        assert store.Log(runId) == start + appended;
        expectedVersion := stored.seqNo;
        refusal := None;
      case Replayed(existing) =>
        ReplayedDurable(start + appended, event, existing);
        replayed := true;
        var current := store.Rebuild(runId);
        if current.Failure? {
          return Some(current.error);
        }
        expectedVersion := current.value.run.version;
        refusal := None;
    }

    /** Appends facts in order until one is refused. */
    method AppendAll(runId: string, command: Command, facts: seq<Fact>, ghost start: seq<Event>) returns (refusal: Option<StoreError>)
      requires store.Valid() && store.Log(runId) == start + appended && appended == [] && !replayed && start != []
      modifies this, store
      ensures store.Valid() && store.Log(runId) == start + appended
      ensures refusal.None? ==> AllDurable(store.Log(runId), runId, command, facts)
      ensures refusal.None? && !replayed ==> FactsOf(appended) == facts
      ensures !replayed ==> FactsOf(appended) <= facts
      ensures |appended| <= |facts| && forall f :: f in FactsOf(appended) ==> f in facts
      ensures Played(store.Log(runId), refusal, replayed) == Play(start, false, runId, command, facts)
    {
      hide Fold, Stored, Indexes, Durable, Settled, EventFor, Play, LogWith;
      assert facts[0..] == facts && start + appended == start;
      for index := 0 to |facts|
        invariant store.Valid() && store.Log(runId) == start + appended
        invariant Rest(start, store.Log(runId), replayed, runId, command, facts, index)
        invariant AllDurable(store.Log(runId), runId, command, facts[..index])
        invariant !replayed ==> FactsOf(appended) == facts[..index]
        invariant |appended| <= index && forall f :: f in FactsOf(appended) ==> f in facts
      {
        PlayOn(store.Log(runId), replayed, runId, command, facts, index);
        ghost var before := store.Log(runId);
        refusal := AppendEvent(runId, command, facts[index], start);
        if refusal.Some? {
          return;
        }
        assert facts[..index + 1] == facts[..index] + [facts[index]];
        AllDurableGrows(before, store.Log(runId), runId, command, facts[..index], facts[index]);
      }
      assert facts[..|facts|] == facts;
      PlayedOut(store.Log(runId), replayed, runId, command, facts);
      return None;
    }

    /**
      One call only extends the log, by facts of the decided command in their order.
      Without a refusal all of them are durable; without a replay they are exactly what
      was appended, and with nothing pending the projection is the one the managed model
      reaches for the same command.
    */
    method Reconcile(runId: string, reasoned: Reply) returns (command: Command, refusal: Option<Refusal>)
      requires store.Valid()
      modifies this, store
      ensures store.Valid() && store.Log(runId) == old(store.Log(runId)) + appended
      ensures old(store.Log(runId)) == [] ==> refusal == Some(StoreRefused(RunNotFound)) && appended == []
      ensures old(store.Log(runId)) != [] ==>
                && ValidLog(old(store.Log(runId)))
                && var s := Final(old(store.Log(runId)));
                && (s.pendingType != NoCommand ==> refusal == Some(RequiresLease) && appended == [])
                && (s.pendingType == NoCommand ==> Called(s, runId, command, reasoned, refusal, old(store.Log(runId)), store.Log(runId), appended, replayed))
      ensures old(store.Log(runId)) != [] && refusal.None? && !replayed && reasoned.Answer?
              && Final(old(store.Log(runId))).pendingId == "" && command.kind != Noop ==>
                && ValidLog(store.Log(runId))
                && Agreed(Final(old(store.Log(runId))), command, reasoned.result, Final(store.Log(runId)))
    {
      hide Fold, Decide, LegacyFacts, Agreed, Stored, Indexes, AllDurable, ReconcileFacts, Play;
      appended, replayed := [], false;
      ghost var start := store.Log(runId);
      var state := store.Rebuild(runId);
      command := NOOP;
      if state.Failure? {
        return command, Some(StoreRefused(state.error));
      }
      if state.value.pendingType != NoCommand {
        return command, Some(RequiresLease);
      }
      command := Decide(state.value);
      expectedVersion := state.value.run.version;
      var refused := AppendAll(runId, command, ReconcileFacts(state.value, command, reasoned), start);
      refusal := if refused.Some? then Some(StoreRefused(refused.value)) else None;
      if refusal.None? && !replayed && reasoned.Answer? && state.value.pendingId == "" && command.kind != Noop {
        NothingPendingFacts(state.value, command, reasoned.result);
        StoredLogValid(store, runId);
        FactsAgree(start, appended, reasoned.result);
      }
    }
  }

  /** The answer of a call that found no managed action pending. */
  ghost predicate Called(s: State, runId: string, command: Command, reasoned: Reply, refusal: Option<Refusal>,
                         before: seq<Event>, log: seq<Event>, appended: seq<Event>, replayed: bool)
  {
    var facts := ReconcileFacts(s, command, reasoned);
    var played := Play(before, false, runId, command, facts);
    && command == Decide(s)
    && log == played.log && replayed == played.replayed
    && refusal == (if played.refusal.Some? then Some(StoreRefused(played.refusal.value)) else None)
    && (refusal.None? ==> AllDurable(log, runId, command, facts))
    && (refusal.None? && !replayed ==> FactsOf(appended) == facts)
    && (!replayed ==> FactsOf(appended) <= facts)
    && |appended| <= |facts| && forall f :: f in FactsOf(appended) ==> f in facts
  }

  ghost predicate AllDurable(log: seq<Event>, runId: string, command: Command, facts: seq<Fact>) {
    forall i :: 0 <= i < |facts| ==> Durable(log, EventFor(runId, command, facts[i]))
  }

  lemma AllDurableGrows(log: seq<Event>, longer: seq<Event>, runId: string, command: Command, facts: seq<Fact>, fact: Fact)
    requires log <= longer && AllDurable(log, runId, command, facts) && Durable(longer, EventFor(runId, command, fact))
    ensures AllDurable(longer, runId, command, facts + [fact])
  {
    forall i | 0 <= i < |facts|
      ensures Durable(longer, EventFor(runId, command, facts[i]))
    {
      var j :| 0 <= j < |log| && SameEvent(log[j], EventFor(runId, command, facts[i]));
      assert longer[j] == log[j];
    }
  }

  lemma StoredLogValid(store: MemoryEventStore, runId: string)
    requires store.Valid() && store.Log(runId) != []
    ensures ValidLog(store.Log(runId))
  {
    hide Fold, Indexes;
  }

  lemma FactsSnoc(events: seq<Event>, e: Event)
    ensures FactsOf(events + [e]) == FactsOf(events) + [Fact(e.kind, e.data)]
  {
  }

  lemma AppendedFact(log: seq<Event>, event: Event, stored: Event)
    requires exists version :: AppendOutcome(log, version, event) == Appended(stored)
    ensures stored.kind == event.kind && stored.data == event.data && Durable(log + [stored], event)
  {
    hide Fold;
    assert (log + [stored])[|log|] == stored && SameEvent(stored, event);
  }

  lemma ReplayedDurable(log: seq<Event>, event: Event, existing: Event)
    requires exists version :: AppendOutcome(log, version, event) == Replayed(existing)
    ensures Durable(log, event)
  {
    hide Fold, FindKey;
    FindKeyFinds(log, event.key);
    var i :| 0 <= i < |log| && log[i] == existing;
    assert SameEvent(log[i], event);
  }

  /** With nothing pending and an answer, these are the facts the managed model agrees with. */
  lemma NothingPendingFacts(s: State, c: Command, result: EventData)
    requires s.pendingId == ""
    ensures ReconcileFacts(s, c, Answer(result)) == LegacyFacts(s, c, result)
  {
  }
}
