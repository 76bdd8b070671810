/**
  Projecting a whole log. `Reduce` and `ReduceFromCheckpoint` are the source's
  loops; `Fold` and `FoldFrom` are the recursive definitions that every
  statement about logs uses, and the loops are proved equal to them.
*/
module Projection {
  import opened Types
  import opened Reducer

  function Keys(log: seq<Event>): set<string> {
    set i | 0 <= i < |log| :: log[i].key
  }

  function Admissible(e: Event, seen: set<string>, expected: nat): Check {
    if e.seqNo != expected then Fail(InvalidSequence)
    else if e.runId == "" || e.key == "" || e.payloadVersion != PAYLOAD_VERSION then Fail(InvalidEvent)
    else Guard(e.key !in seen, DuplicateIdempotencyKey)
  }

  /** The shared end of both loop bodies: terminal guard, effect, bookkeeping. */
  function Stamped(s: State, e: Event): Applied {
    if s.present && s.run.observed.Terminal() then Err(TerminalState)
    else
      match ApplyEvent(s, e)
      case Ok(t) => Ok(Stamp(t, e))
      case Err(error) => Err(error)
  }

  /** One iteration of Reduce. */
  function Step(s: State, e: Event, seen: set<string>, expected: nat): Applied {
    match Admissible(e, seen, expected)
    case Fail(error) => Err(error)
    case Pass =>
      if s.present && e.runId != s.run.id then Err(InvalidEvent)
      else Stamped(s, e)
  }

  function Fold(log: seq<Event>): Applied {
    if log == [] then Ok(INITIAL)
    else
      var n := |log| - 1;
      match Fold(log[..n])
      case Ok(s) => Step(s, log[n], Keys(log[..n]), n + 1)
      case Err(error) => Err(error)
  }

  /** One iteration of ReduceFromCheckpoint: same rules, run id checked first. */
  function CheckpointStep(s: State, e: Event, seen: set<string>, expected: nat): Applied {
    if e.seqNo != expected then Err(InvalidSequence)
    else if e.runId != s.run.id || e.key == "" || e.payloadVersion != PAYLOAD_VERSION then Err(InvalidEvent)
    else if e.key in seen then Err(DuplicateIdempotencyKey)
    else Stamped(s, e)
  }

  predicate Resumable(checkpoint: State) {
    checkpoint.present && checkpoint.run.id != "" && checkpoint.run.version != 0
  }

  function FoldFrom(checkpoint: State, log: seq<Event>): Applied {
    if log == [] then
      if Resumable(checkpoint) then Ok(checkpoint) else Err(InvalidEvent)
    else
      var n := |log| - 1;
      match FoldFrom(checkpoint, log[..n])
      case Ok(s) => CheckpointStep(s, log[n], Keys(log[..n]), checkpoint.run.version + n + 1)
      case Err(error) => Err(error)
  }

  ghost predicate ValidLog(log: seq<Event>) {
    Fold(log).Ok?
  }

  ghost function Final(log: seq<Event>): State
    requires ValidLog(log)
  {
    Fold(log).value
  }

  lemma KeysSnoc(log: seq<Event>, e: Event)
    ensures Keys(log + [e]) == Keys(log) + {e.key}
  {
    assert (log + [e])[|log|] == e;
    forall k | k in Keys(log)
      ensures k in Keys(log + [e])
    {
      var i :| 0 <= i < |log| && log[i].key == k;
      assert (log + [e])[i].key == k;
    }
  }

  lemma FoldSnoc(log: seq<Event>, e: Event)
    ensures Fold(log + [e]) == (if Fold(log).Ok? then Step(Fold(log).value, e, Keys(log), |log| + 1) else Fold(log))
  {
    hide Step;
    assert (log + [e])[..|log|] == log;
  }

  /** A failure stays the first failure, whatever follows. */
  lemma {:induction false} ErrorIsFinal(log: seq<Event>, n: nat)
    requires n <= |log| && Fold(log[..n]).Err?
    ensures Fold(log) == Fold(log[..n])
    decreases |log|
  {
    hide Step;
    if n < |log| {
      assert log[..|log| - 1][..n] == log[..n];
      ErrorIsFinal(log[..|log| - 1], n);
    } else {
      assert log[..n] == log;
    }
  }

  lemma {:induction false} PrefixValid(log: seq<Event>, n: nat)
    requires n <= |log| && ValidLog(log)
    ensures ValidLog(log[..n])
  {
    if Fold(log[..n]).Err? {
      ErrorIsFinal(log, n);
    }
  }

  method Reduce(events: seq<Event>) returns (r: Applied)
    ensures r == Fold(events)
  {
    hide Step;
    var state := INITIAL;
    var keys: set<string> := {};
    for index := 0 to |events|
      invariant Fold(events[..index]) == Ok(state)
      invariant keys == Keys(events[..index])
    {
      var event := events[index];
      assert events[..index + 1] == events[..index] + [event];
      FoldSnoc(events[..index], event);
      KeysSnoc(events[..index], event);
      var next := Step(state, event, keys, index + 1);
      if next.Err? {
        ErrorIsFinal(events, index + 1);
        return next;
      }
      keys := keys + {event.key};
      state := next.value;
    }
    assert events[..|events|] == events;
    return Ok(state);
  }

  lemma {:induction false} CheckpointErrorIsFinal(checkpoint: State, log: seq<Event>, n: nat)
    requires n <= |log| && FoldFrom(checkpoint, log[..n]).Err?
    ensures FoldFrom(checkpoint, log) == FoldFrom(checkpoint, log[..n])
    decreases |log|
  {
    hide CheckpointStep;
    if n < |log| {
      assert log[..|log| - 1][..n] == log[..n];
      CheckpointErrorIsFinal(checkpoint, log[..|log| - 1], n);
    } else {
      assert log[..n] == log;
    }
  }

  method ReduceFromCheckpoint(checkpoint: State, events: seq<Event>) returns (r: Applied)
    ensures r == FoldFrom(checkpoint, events)
  {
    hide CheckpointStep;
    if !Resumable(checkpoint) {
      CheckpointErrorIsFinal(checkpoint, events, 0);
      return Err(InvalidEvent);
    }
    var state := checkpoint;
    var keys: set<string> := {};
    for index := 0 to |events|
      invariant FoldFrom(checkpoint, events[..index]) == Ok(state)
      invariant keys == Keys(events[..index])
    {
      var event := events[index];
      assert events[..index + 1] == events[..index] + [event];
      assert events[..index + 1][..index] == events[..index];
      KeysSnoc(events[..index], event);
      var next := CheckpointStep(state, event, keys, checkpoint.run.version + index + 1);
      if next.Err? {
        CheckpointErrorIsFinal(checkpoint, events, index + 1);
        return next;
      }
      keys := keys + {event.key};
      state := next.value;
    }
    assert events[..|events|] == events;
    return Ok(state);
  }
}
