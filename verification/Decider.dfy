/** Choosing the single next command (internal/domain/decide.go). */
module Decider {
  import opened Types

  const NOOP := Command(Noop, "", "", "")

  function CommandFor(s: State, kind: CommandType): Command {
    Command(kind, s.run.id, ActionDigest(s.run.id, kind, s.run.currentAttempt, s.attemptId), s.attemptId)
  }

  function NextAttemptId(s: State): (id: string)
    ensures id != ""
  {
    s.run.id + ":attempt:" + Decimal(s.run.currentAttempt + 1)
  }

  function ResumePending(s: State, c: Command): Command {
    if s.pendingId != "" then c.(actionId := s.pendingId) else c
  }

  function Decide(s: State): Command {
    if !s.present || s.run.observed.Terminal() then NOOP
    else if s.run.desired == DesiredCancelled then CommandFor(s, CancelRun)
    else if s.run.desired == DesiredPaused || s.run.observed == Paused then NOOP
    else if s.run.observed == WaitingApproval then NOOP
    else if s.failureReason != "" then CommandFor(s, FailRun)
    else
      match s.run.observed
      case Queued => CommandFor(s, StartAttempt).(attemptId := NextAttemptId(s))
      case Provisioning => CommandFor(s, ProvisionWorkspace)
      case Reasoning => ResumePending(s, CommandFor(s, RunReasoner))
      case Acting => CommandFor(s, ApplyPatch)
      case Verifying =>
        if s.verificationPassed then CommandFor(s, SucceedRun)
        else ResumePending(s, CommandFor(s, Verify))
      case _ => NOOP
  }

  /** The payload of the event that plans a command. */
  function PlanData(c: Command, scope: IdempotencyScope): EventData {
    NO_DATA.(actionId := c.actionId, actionType := c.kind, attemptId := c.attemptId, scope := scope)
  }
}
