/** What both event stores share (internal/store/store.go, internal/store/validation.go). */
module EventStore {
  import opened Wrappers
  import opened Types

  datatype StoreError =
    | InvalidAppend | SensitivePayload | RunNotFound
    | VersionConflict(actual: nat) | IdempotencyConflict
    | StaleFencingToken | ManagedRunLegacyEvent
    | MissingActionReceipt | ActionReceiptMismatch | ArtifactIntegrity
    | Rejected(error: DomainError)

  datatype AppendResult = Appended(event: Event) | Replayed(event: Event) | Refused(error: StoreError)

  /** The credential scan over a payload. */
  const HasCredential: EventData -> bool

  function Normalized(e: Event): Event {
    if e.payloadVersion == 0 then e.(payloadVersion := PAYLOAD_VERSION) else e
  }

  predicate WellFormed(e: Event) {
    e.runId != "" && e.key != "" && e.seqNo == 0
  }

  /** Same event up to the fields the store assigns. */
  predicate SameEvent(existing: Event, replay: Event) {
    existing.(seqNo := 0, createdAt := "") == Normalized(replay).(seqNo := 0, createdAt := "")
  }

  /** The event is in the log, whoever stored it. */
  ghost predicate Durable(log: seq<Event>, event: Event) {
    exists i :: 0 <= i < |log| && SameEvent(log[i], event)
  }

  /** The position of a key, if it is in the log. */
  ghost predicate KeyAt(log: seq<Event>, key: string, i: int) {
    0 <= i < |log| && log[i].key == key
  }

  /** The first event with a key. */
  function FindKey(log: seq<Event>, key: string): Option<Event> {
    if log == [] then None
    else if log[0].key == key then Some(log[0])
    else FindKey(log[1..], key)
  }

  lemma {:induction false} FindUnique(log: seq<Event>, key: string, i: int)
    requires KeyAt(log, key, i) && forall j :: 0 <= j < |log| && log[j].key == key ==> j == i
    ensures FindKey(log, key) == Some(log[i])
    decreases |log|
  {
    if log[0].key == key {
      assert i == 0;
    } else {
      forall j | 0 <= j < |log[1..]| && log[1..][j].key == key
        ensures j == i - 1
      {
        assert log[1..][j] == log[j + 1];
      }
      FindUnique(log[1..], key, i - 1);
    }
  }

  lemma {:induction false} FindMissing(log: seq<Event>, key: string)
    requires forall i :: 0 <= i < |log| ==> log[i].key != key
    ensures FindKey(log, key) == None
  {
    if log != [] {
      FindMissing(log[1..], key);
    }
  }

  lemma {:induction false} FindKeyFinds(log: seq<Event>, key: string)
    requires FindKey(log, key).Some?
    ensures FindKey(log, key).value in log
  {
    if log[0].key != key {
      FindKeyFinds(log[1..], key);
    }
  }
}
