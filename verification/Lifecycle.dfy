/** The job lifecycle contract: which state changes a job may make, and on what evidence. */
module Lifecycle {
  import opened Base

  datatype JobState =
    | Queued | Claimed | ProvisioningRuntime | Booting | InstallingApk | RunningTests
    | DebugAvailable | CollectingArtifacts | CleaningUp
    | Passed | Failed | Cancelled | TimedOut | InfraFailed
  {
    predicate Terminal() {
      Passed? || Failed? || Cancelled? || TimedOut? || InfraFailed?
    }

    function TerminalOutcome(): Option<JobOutcome> {
      match this
      case Passed => Some(JobOutcome.Passed)
      case Failed => Some(JobOutcome.Failed)
      case Cancelled => Some(JobOutcome.Cancelled)
      case TimedOut => Some(JobOutcome.TimedOut)
      case InfraFailed => Some(JobOutcome.InfraFailed)
      case _ => None
    }

    /** Distance along the lifecycle; all terminal states are equally far. */
    function Rank(): nat {
      match this
      case Queued => 0
      case Claimed => 1
      case ProvisioningRuntime => 2
      case Booting => 3
      case InstallingApk => 4
      case RunningTests => 5
      case DebugAvailable => 6
      case CollectingArtifacts => 7
      case CleaningUp => 8
      case _ => 9
    }
  }

  datatype JobOutcome = Passed | Failed | Cancelled | TimedOut | InfraFailed

  function TerminalState(outcome: JobOutcome): (state: JobState)
    ensures state.Terminal() && state.TerminalOutcome() == Some(outcome)
  {
    match outcome
    case Passed => JobState.Passed
    case Failed => JobState.Failed
    case Cancelled => JobState.Cancelled
    case TimedOut => JobState.TimedOut
    case InfraFailed => JobState.InfraFailed
  }

  datatype Evidence = Evidence(pending: Option<JobOutcome>, artifacts: bool, cleanup: bool)

  datatype TransitionError =
    | InvalidTransition
    | MissingPendingOutcome
    | OutcomeNotAllowed(outcome: JobOutcome)
    | ArtifactsNotFinalized
    | CleanupNotCompleted
    | TerminalOutcomeMismatch(pending: JobOutcome)

  datatype Verdict = Allowed | Refused(error: TransitionError)

  predicate EarlyOutcomeAllowed(from: JobState, outcome: JobOutcome) {
    match from
    case Queued => outcome.Cancelled? || outcome.TimedOut?
    case Claimed => outcome.Cancelled? || outcome.TimedOut? || outcome.InfraFailed?
    case ProvisioningRuntime => outcome.Cancelled? || outcome.TimedOut? || outcome.InfraFailed?
    case Booting => outcome.Cancelled? || outcome.TimedOut? || outcome.InfraFailed?
    case InstallingApk => !outcome.Passed?
    case _ => false
  }

  predicate SpineEdge(from: JobState, to: JobState) {
    match from
    case Queued => to.Claimed?
    case Claimed => to.ProvisioningRuntime?
    case ProvisioningRuntime => to.Booting?
    case Booting => to.InstallingApk?
    case InstallingApk => to.RunningTests?
    case _ => false
  }

  function EnterCollection(from: JobState, evidence: Evidence): Verdict {
    match evidence.pending
    case None => Refused(MissingPendingOutcome)
    case Some(outcome) =>
      if from.RunningTests? || from.DebugAvailable? || EarlyOutcomeAllowed(from, outcome) then Allowed
      else Refused(OutcomeNotAllowed(outcome))
  }

  function FinishCleanup(to: JobState, evidence: Evidence): Verdict {
    if !evidence.cleanup then Refused(CleanupNotCompleted)
    else
      match evidence.pending
      case None => Refused(MissingPendingOutcome)
      case Some(outcome) =>
        if to.TerminalOutcome() == Some(outcome) then Allowed else Refused(TerminalOutcomeMismatch(outcome))
  }

  function ValidateTransition(from: JobState, to: JobState, evidence: Evidence): Verdict {
    if from.Terminal() || (to.Terminal() && from != CleaningUp) then
      Refused(InvalidTransition)
    else if SpineEdge(from, to) then
      Allowed
    else if from.RunningTests? && to.DebugAvailable? then
      if evidence.pending.Some? then Allowed else Refused(MissingPendingOutcome)
    else if to.CollectingArtifacts? && !from.CollectingArtifacts? && !from.CleaningUp? then
      EnterCollection(from, evidence)
    else if from.CollectingArtifacts? && to.CleaningUp? then
      if evidence.artifacts then Allowed else Refused(ArtifactsNotFinalized)
    else if from.CleaningUp? && to.Terminal() then
      FinishCleanup(to, evidence)
    else
      Refused(InvalidTransition)
  }

  /** A path of lifecycle changes, each allowed on the evidence that accompanies it. */
  ghost predicate AllowedPath(states: seq<JobState>, evidence: seq<Evidence>) {
    && |states| == |evidence| + 1
    && forall i :: 0 <= i < |evidence| ==> ValidateTransition(states[i], states[i + 1], evidence[i]).Allowed?
  }

  /** Progress is strict, so no path is longer than the lifecycle itself. */
  lemma {:induction false} PathsAreBounded(states: seq<JobState>, evidence: seq<Evidence>)
    requires AllowedPath(states, evidence)
    ensures states[0].Rank() + |evidence| <= states[|evidence|].Rank() <= 9
  {
    if |evidence| > 0 {
      var n := |evidence| - 1;
      PathsAreBounded(states[..n + 1], evidence[..n]);
      assert ValidateTransition(states[n], states[n + 1], evidence[n]).Allowed?;
    }
  }

  /** The hard finalizer: a job that starts before artifact collection reaches a terminal state
      only through CollectingArtifacts with an outcome in hand, then CleaningUp with finalized
      artifacts, then completed cleanup under the outcome that names the terminal state. */
  lemma {:induction false} HardFinalizer(states: seq<JobState>, evidence: seq<Evidence>)
    requires AllowedPath(states, evidence)
    requires states[0].Rank() < 7 && states[|evidence|].Terminal()
    ensures |evidence| >= 3
    ensures states[|evidence| - 2].CollectingArtifacts? && states[|evidence| - 1].CleaningUp?
    ensures evidence[|evidence| - 3].pending.Some? && evidence[|evidence| - 2].artifacts
    ensures evidence[|evidence| - 1].cleanup
    ensures evidence[|evidence| - 1].pending == states[|evidence|].TerminalOutcome()
  {
    var n := |evidence|;
    PathsAreBounded(states, evidence);
    assert ValidateTransition(states[n - 1], states[n], evidence[n - 1]).Allowed?;
    assert states[n - 1].CleaningUp?;
    assert ValidateTransition(states[n - 2], states[n - 1], evidence[n - 2]).Allowed?;
    assert states[n - 2].CollectingArtifacts?;
    assert ValidateTransition(states[n - 3], states[n - 2], evidence[n - 3]).Allowed?;
  }
}
