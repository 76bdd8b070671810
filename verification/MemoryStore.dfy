/** The in-memory event store (internal/store/memory.go). */
module MemoryStore {
  import opened Wrappers
  import opened Types
  import opened Reducer
  import opened Projection
  import opened Lifecycle
  import opened EventStore

  class MemoryEventStore {
    var events: map<string, seq<Event>>
    var keys: map<string, map<string, int>>

    /** The abstract log of a Run; an unknown Run has the empty one. */
    ghost function Log(runId: string): seq<Event>
      reads this
    {
      if runId in events then events[runId] else []
    }

    /** Every log reduces, belongs to its Run, and is indexed by exactly its keys. */
    ghost predicate Valid()
      reads this
    {
      && events.Keys == keys.Keys
      && forall runId :: runId in events ==>
           events[runId] != [] && Stored(runId, events[runId], keys[runId])
    }

    constructor ()
      ensures Valid() && forall runId :: Log(runId) == []
    {
      events := map[];
      keys := map[];
    }

    method Load(runId: string) returns (r: Result<seq<Event>, StoreError>)
      requires Valid()
      ensures r == if Log(runId) == [] then Failure(RunNotFound) else Success(Log(runId))
    {
      if runId !in events {
        return Failure(RunNotFound);
      }
      return Success(events[runId]);
    }

    /** Rebuild never fails on a stored Run. */
    method Rebuild(runId: string) returns (r: Result<State, StoreError>)
      requires Valid()
      ensures Log(runId) == [] ==> r == Failure(RunNotFound)
      ensures Log(runId) != [] ==> ValidLog(Log(runId)) && r == Success(Final(Log(runId)))
    {
      var loaded := Load(runId);
      if loaded.Failure? {
        return Failure(loaded.error);
      }
      var state := Reduce(loaded.value);
      return Success(state.value);
    }

    /** `r` and the log after an append, as a function of the log before. */
    method Append(expectedVersion: nat, event: Event) returns (r: AppendResult)
      requires Valid()
      modifies this
      ensures Valid()
      ensures forall runId :: runId != event.runId ==> Log(runId) == old(Log(runId))
      ensures r == AppendOutcome(old(Log(event.runId)), expectedVersion, event)
      ensures Log(event.runId) == if r.Appended? then old(Log(event.runId)) + [r.event] else old(Log(event.runId))
    {
      hide Fold, Indexes, Stored, FindKey;
      if !WellFormed(event) {
        return Refused(InvalidAppend);
      }
      if HasCredential(event.data) {
        return Refused(SensitivePayload);
      }
      var normal := Normalized(event);
      ghost var log := Log(event.runId);
      if event.runId in keys && event.key in keys[event.runId] {
        IndexFinds(event.runId, log, keys[event.runId], event.key);
        var existing := events[event.runId][keys[event.runId][event.key]];
        if !SameEvent(existing, normal) {
          return Refused(IdempotencyConflict);
        }
        return Replayed(existing);
      }
      var current := if event.runId in events then events[event.runId] else [];
      var index := if event.runId in keys then keys[event.runId] else map[];
      NothingStored(event.runId);
      IndexMisses(event.runId, current, index, event.key);
      if |current| != expectedVersion {
        return Refused(VersionConflict(|current|));
      }
      var numbered := normal.(seqNo := |current| + 1);
      var candidate := current + [numbered];
      var state := Reduce(candidate);
      if state.Err? {
        return Refused(Rejected(state.error));
      }
      IndexGrows(event.runId, current, index, numbered);
      events := events[event.runId := candidate];
      keys := keys[event.runId := index[event.key := |candidate| - 1]];
      return Appended(numbered);
    }
  }

  ghost predicate Stored(runId: string, log: seq<Event>, index: map<string, int>) {
    && ValidLog(log)
    && (forall i :: 0 <= i < |log| ==> log[i].runId == runId)
    && Indexes(log, index)
  }

  ghost predicate Indexes(log: seq<Event>, index: map<string, int>) {
    && (forall key :: key in index ==> KeyAt(log, key, index[key]))
    && (forall i :: 0 <= i < |log| ==> log[i].key in index && index[log[i].key] == i)
  }

  /** What an append answers, in terms of the abstract log alone. */
  function AppendOutcome(log: seq<Event>, expectedVersion: nat, event: Event): AppendResult {
    var numbered := Normalized(event).(seqNo := |log| + 1);
    if !WellFormed(event) then Refused(InvalidAppend)
    else if HasCredential(event.data) then Refused(SensitivePayload)
    else if FindKey(log, event.key).Some? then
      if SameEvent(FindKey(log, event.key).value, event) then Replayed(FindKey(log, event.key).value)
      else Refused(IdempotencyConflict)
    else if |log| != expectedVersion then Refused(VersionConflict(|log|))
    else
      match Fold(log + [numbered])
      case Ok(_) => Appended(numbered)
      case Err(error) => Refused(Rejected(error))
  }

  lemma NothingStored(runId: string)
    ensures Stored(runId, [], map[])
  {
  }

  lemma IndexFinds(runId: string, log: seq<Event>, index: map<string, int>, key: string)
    requires Stored(runId, log, index) && key in index
    ensures 0 <= index[key] < |log| && FindKey(log, key) == Some(log[index[key]])
  {
    hide Fold;
    FindUnique(log, key, index[key]);
  }

  lemma IndexMisses(runId: string, log: seq<Event>, index: map<string, int>, key: string)
    requires Stored(runId, log, index) && key !in index
    ensures FindKey(log, key) == None
  {
    hide Fold;
    FindMissing(log, key);
  }

  lemma IndexGrows(runId: string, log: seq<Event>, index: map<string, int>, e: Event)
    requires Stored(runId, log, index) && e.key !in index && e.runId == runId && ValidLog(log + [e])
    ensures Stored(runId, log + [e], index[e.key := |log|])
  {
    hide Fold;
    assert (log + [e])[|log|] == e;
  }

  /** In a valid log the sequence numbers count from one. */
  lemma Numbered(log: seq<Event>, i: nat)
    requires ValidLog(log) && i < |log|
    ensures log[i].seqNo == i + 1
  {
    hide ApplyEvent, Fold, Stamp, Reachable;
    StepAt(log, i);
  }

  datatype Request = Request(expectedVersion: nat, event: Event)

  /** The log of a Run after any sequence of append calls, in terms of the answers. */
  function LogAfter(log: seq<Event>, requests: seq<Request>): seq<Event> {
    if requests == [] then log
    else
      var before := LogAfter(log, requests[..|requests| - 1]);
      var last := requests[|requests| - 1];
      match AppendOutcome(before, last.expectedVersion, last.event)
      case Appended(e) => before + [e]
      case _ => before
  }

  /** Any sequence of appends only extends the log, and keeps it reducible. */
  lemma {:induction false} AppendOnly(log: seq<Event>, requests: seq<Request>)
    requires ValidLog(log)
    ensures ValidLog(LogAfter(log, requests)) && log <= LogAfter(log, requests)
    decreases |requests|
  {
    hide Fold;
    if requests != [] {
      AppendOnly(log, requests[..|requests| - 1]);
    }
  }

  /** A repeated append returns the original event, whatever was appended in between and whatever version it expects. */
  lemma RetryReturnsOriginal(log: seq<Event>, first: Request, requests: seq<Request>, retry: Request)
    requires ValidLog(log) && retry.event == first.event
    requires AppendOutcome(log, first.expectedVersion, first.event).Appended?
    ensures
      var e := AppendOutcome(log, first.expectedVersion, first.event).event;
      AppendOutcome(LogAfter(log + [e], requests), retry.expectedVersion, retry.event) == Replayed(e)
  {
    hide Fold, LogAfter;
    var e := AppendOutcome(log, first.expectedVersion, first.event).event;
    AppendOnly(log + [e], requests);
    var later := LogAfter(log + [e], requests);
    assert later[|log|] == e;
    forall j | 0 <= j < |later| && later[j].key == e.key
      ensures j == |log|
    {
      if j < |log| {
        KeysDistinct(later, j, |log|);
      } else if j > |log| {
        KeysDistinct(later, |log|, j);
      }
    }
    FindUnique(later, e.key, |log|);
  }
}
