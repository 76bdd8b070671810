/** Disposable snapshots and the store's Rebuild (internal/store/postgres.go). */
module Checkpoints {
  import opened Wrappers
  import opened Types
  import opened Reducer
  import opened Projection
  import opened Lifecycle

  /** SHA-256 over canonical JSON of a snapshot and of an event prefix. */
  const StateDigest: State -> string
  const LogDigest: seq<Event> -> string

  /** The checkpoint columns as stored: any of them may be null, stale or forged; `state` is None if undecodable. */
  datatype Stored = Stored(seqNo: Option<int>, state: Option<State>, stateDigest: Option<string>, eventDigest: Option<string>)

  const NOTHING_STORED := Stored(None, None, None, None)

  lemma StepsAgree(s: State, e: Event, seen: set<string>, older: set<string>, expected: nat)
    requires Reachable(s) && s.present && e.key !in older
    ensures CheckpointStep(s, e, seen, expected).Ok? <==> Step(s, e, older + seen, expected).Ok?
    ensures Step(s, e, older + seen, expected).Ok? ==> CheckpointStep(s, e, seen, expected) == Step(s, e, older + seen, expected)
  {
    hide Stamped;
  }

  lemma KeysConcat(p: seq<Event>, s: seq<Event>)
    ensures Keys(p + s) == Keys(p) + Keys(s)
  {
    if s == [] {
      assert p + s == p;
    } else {
      var n := |s| - 1;
      KeysConcat(p, s[..n]);
      assert p + s == (p + s[..n]) + [s[n]];
      assert s == s[..n] + [s[n]];
      KeysSnoc(p + s[..n], s[n]);
      KeysSnoc(s[..n], s[n]);
    }
  }

  /** Resuming from the projection of a prefix is reducing the whole log, as long as no suffix key repeats a prefix key. */
  lemma {:induction false} ResumeComposes(p: seq<Event>, s: seq<Event>)
    requires p != [] && ValidLog(p) && Keys(p) !! Keys(s)
    ensures FoldFrom(Final(p), s).Ok? <==> Fold(p + s).Ok?
    ensures Fold(p + s).Ok? ==> FoldFrom(Final(p), s) == Fold(p + s)
    decreases |s|
  {
    hide Step, CheckpointStep, Reachable;
    ProjectionReachable(p);
    if s == [] {
      assert p + s == p;
      PresentResumable(p);
    } else {
      var n := |s| - 1;
      assert s == s[..n] + [s[n]];
      assert p + s == (p + s[..n]) + [s[n]];
      KeysSnoc(s[..n], s[n]);
      ResumeComposes(p, s[..n]);
      FoldSnoc(p + s[..n], s[n]);
      KeysConcat(p, s[..n]);
      if ValidLog(p + s[..n]) {
        ProjectionReachable(p + s[..n]);
        StepsAgree(Final(p + s[..n]), s[n], Keys(s[..n]), Keys(p), |p| + n + 1);
      }
    }
  }

  lemma PresentResumable(p: seq<Event>)
    requires p != [] && ValidLog(p)
    ensures Resumable(Final(p))
  {
    hide Fold;
    ProjectionReachable(p);
  }

  /** A log that repeats a key is rejected, wherever the repetition is. */
  lemma {:induction false} RepeatedKeyRejected(log: seq<Event>, n: nat)
    requires n <= |log| && ValidLog(log)
    ensures Keys(log[..n]) !! Keys(log[n..])
    decreases |log|
  {
    hide Fold, ApplyEvent, Stamp, Reachable;
    if n < |log| {
      var m := |log| - 1;
      StepAt(log, m);
      var shorter := log[..m];
      RepeatedKeyRejected(shorter, n);
      assert shorter[..n] == log[..n];
      assert log[n..] == shorter[n..] + [log[m]];
      KeysSnoc(shorter[n..], log[m]);
      assert shorter == shorter[..n] + shorter[n..];
      KeysConcat(shorter[..n], shorter[n..]);
    }
  }

  /** Everything Rebuild checks before it trusts a stored snapshot. */
  predicate Trusted(stored: Stored, runId: string, events: seq<Event>) {
    && stored.seqNo.Some? && stored.stateDigest.Some? && stored.eventDigest.Some?
    && 0 < stored.seqNo.value <= |events|
    && events[stored.seqNo.value - 1].seqNo == stored.seqNo.value
    && stored.state.Some?
    && LogDigest(events[..stored.seqNo.value]) == stored.eventDigest.value
    && StateDigest(stored.state.value) == stored.stateDigest.value
    && stored.state.value.run.id == runId
    && stored.state.value.run.version == stored.seqNo.value
    && Fold(events[..stored.seqNo.value]) == Ok(stored.state.value)
  }

  /** A trusted snapshot whose suffix reduces although one of its keys repeats a prefix key. */
  predicate HidesRepetition(stored: Stored, runId: string, events: seq<Event>) {
    && Trusted(stored, runId, events)
    && var n := stored.seqNo.value;
    && FoldFrom(stored.state.value, events[n..]).Ok?
    && !(Keys(events[..n]) !! Keys(events[n..]))
  }

  /**
    Rebuild returns what Reduce returns on the full log for every stored checkpoint
    content, exactly unless a trusted prefix hides a repeated key, which the
    uniqueness of keys in the event table rules out.
  */
  method Rebuild(stored: Stored, runId: string, events: seq<Event>) returns (r: Applied)
    ensures r == Fold(events) <==> !HidesRepetition(stored, runId, events)
  {
    hide Step, CheckpointStep;
    if stored.seqNo.None? || stored.stateDigest.None? || stored.eventDigest.None?
       || stored.seqNo.value <= 0 || stored.seqNo.value > |events| {
      r := Reduce(events);
      return;
    }
    var n := stored.seqNo.value;
    if events[n - 1].seqNo != n || stored.state.None? {
      r := Reduce(events);
      return;
    }
    var checkpoint := stored.state.value;
    if StateDigest(checkpoint) != stored.stateDigest.value
       || checkpoint.run.id != runId
       || checkpoint.run.version != n
       || LogDigest(events[..n]) != stored.eventDigest.value {
      r := Reduce(events);
      return;
    }
    var prefix := Reduce(events[..n]);
    if prefix != Ok(checkpoint) {
      r := Reduce(events);
      return;
    }
    var rebuilt := ReduceFromCheckpoint(checkpoint, events[n..]);
    if rebuilt.Err? {
      r := Reduce(events);
      return;
    }
    r := rebuilt;
    assert events == events[..n] + events[n..];
    if Keys(events[..n]) !! Keys(events[n..]) {
      ResumeComposes(events[..n], events[n..]);
    } else if ValidLog(events) {
      RepeatedKeyRejected(events, n);
    }
  }

  /** With unique keys, which the event table enforces, checkpoints never matter. */
  lemma UniqueKeysHideNothing(stored: Stored, runId: string, events: seq<Event>)
    requires forall i, j :: 0 <= i < j < |events| ==> events[i].key != events[j].key
    ensures !HidesRepetition(stored, runId, events)
  {
    hide Fold, FoldFrom;
    if Trusted(stored, runId, events) {
      var n := stored.seqNo.value;
      forall k | k in Keys(events[..n])
        ensures k !in Keys(events[n..])
      {
        var i :| 0 <= i < n && events[..n][i].key == k;
        forall j | 0 <= j < |events[n..]|
          ensures events[n..][j].key != k
        {
          assert events[n..][j] == events[n + j] && events[..n][i] == events[i];
        }
      }
    }
  }
}
