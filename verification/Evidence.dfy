/** The evidence contract of durable receipts (internal/domain/receipt.go). */
module Evidence {
  import opened Types
  import opened Decider
  import opened Reducer
  import opened Projection
  import opened Lifecycle

  predicate LowerHex(c: char) {
    '0' <= c <= '9' || 'a' <= c <= 'f'
  }

  predicate Sha256Text(s: string) {
    |s| == 71 && s[..7] == "sha256:" && forall i :: 7 <= i < 71 ==> LowerHex(s[i])
  }

  function ArtifactIdFor(actionId: string): string {
    "action-" + actionId
  }

  function ValidateOutput(kind: CommandType, plannedAttempt: string, output: EventData): Check {
    match kind
    case StartAttempt => Guard(output.attemptId != "" && output.attemptId == plannedAttempt, InvalidEvent)
    case RunReasoner => Guard(output.toolName != "", InvalidEvent)
    case FailRun => Guard(output.reason != "", InvalidEvent)
    case _ => Pass
  }

  function ValidateEvidence(
    kind: CommandType, actionId: string, plannedAttempt: string,
    output: EventData, outputDigest: string, artifactId: string, artifactDigest: string): Check
  {
    if ValidateOutput(kind, plannedAttempt, output).Fail? then ValidateOutput(kind, plannedAttempt, output)
    else if outputDigest != DataDigest(output) then Fail(InvalidEvent)
    else if kind == ApplyPatch then
      Guard(artifactId == ArtifactIdFor(actionId) && Sha256Text(artifactDigest), InvalidEvent)
    else
      Guard(artifactId == "" && artifactDigest == "", InvalidEvent)
  }

  /** The payload of the completion that presents this receipt (actionCompletedEvent). */
  function CompletionData(output: EventData, actionId: string, kind: CommandType, scope: IdempotencyScope,
                          receiptId: string, outputDigest: string, artifactId: string, artifactDigest: string): EventData
  {
    output.(actionId := actionId, actionType := kind, scope := scope, receiptId := receiptId,
            outputDigest := outputDigest, artifactId := artifactId, artifactDigest := artifactDigest)
  }

  /** A cancel planned after a paused Run already reached a terminal resume state can never complete. */
  predicate CancelBlocked(s: State) {
    s.pendingType == CancelRun && s.run.observed == Paused && s.resume.Terminal()
  }

  lemma CompletionAccepted(s: State, d: EventData)
    requires Reachable(s)
    requires d.receiptId != "" && ManagedPending(s, d)
    requires ValidateOutput(d.actionType, s.pendingAttempt, d).Pass?
    ensures ApplyActionCompleted(s, d).Ok? <==> !CancelBlocked(s)
  {
    hide Decide;
  }

  /**
    Valid evidence is always reducible: whatever the operator did meanwhile, the
    completion that presents accepted evidence for the pending managed action is
    rejected exactly when a cancel is blocked.
  */
  lemma EvidenceReducible(log: seq<Event>, scope: IdempotencyScope, receiptId: string, output: EventData,
                          outputDigest: string, artifactId: string, artifactDigest: string)
    requires ValidLog(log) && Final(log).pendingType != NoCommand
    requires receiptId != ""
    requires ValidateEvidence(Final(log).pendingType, Final(log).pendingId, Final(log).pendingAttempt,
                              output, outputDigest, artifactId, artifactDigest).Pass?
    ensures
      var s := Final(log);
      var d := CompletionData(output, s.pendingId, s.pendingType, scope, receiptId,
                              outputDigest, artifactId, artifactDigest);
      ValidateActionCompletion(s, d).Pass? <==> !CancelBlocked(s)
  {
    hide ApplyActionCompleted, Fold;
    ProjectionReachable(log);
    var s := Final(log);
    CompletionAccepted(s, CompletionData(output, s.pendingId, s.pendingType, scope, receiptId,
                                         outputDigest, artifactId, artifactDigest));
  }
}
