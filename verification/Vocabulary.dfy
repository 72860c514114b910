/** The finite vocabulary of the run controller: states, record kinds, awaited responses and commands. */
module Vocabulary {

  datatype Option<+T> = None | Some(value: T)

  // Opaque audited values; the state machine only compares them for equality.
  type Binding = string
  type Ref = string
  type Snapshot = string
  type Fingerprint = string

  datatype State =
    | RunningReview | ChangesRequested | ApplyingFixes | ClarifyingReview | ReviewingDecisionRequest
    | AwaitingUserDecision | AwaitingToolPermission | WaitingCi | GeneratingReport | ReadyForHumanMerge
    | Merging | Merged | MergeFailed | Blocked | Failed | Cancelled | ReportFailed

  predicate Terminal(s: State) {
    s.Merged? || s.Cancelled?
  }

  predicate Resumable(s: State) {
    || s.WaitingCi? || s.AwaitingUserDecision? || s.AwaitingToolPermission? || s.ReadyForHumanMerge?
    || s.Blocked? || s.Failed? || s.ReportFailed? || s.MergeFailed?
  }

  predicate Active(s: State) {
    || s.RunningReview? || s.ChangesRequested? || s.ApplyingFixes? || s.ClarifyingReview? || s.ReviewingDecisionRequest?
    || s.GeneratingReport? || s.Merging?
  }

  predicate NonTerminal(s: State) {
    !Terminal(s)
  }

  datatype RecordKind =
    | ReviewResult | FixResult | ClarificationQuestion | ClarificationAnswer | DecisionRequest | DecisionVerdict
    | DecisionBrief | DecisionRecord | ExternalDependency | PermissionBlock | CiTimeout | CiCodeFailure
    | FinalReport | IntegrityIncident | GateAnswer
    | UserDecision | GateQuestion | GateChanges | MergeApproval | BlockIntervention | UserCancel

  datatype Awaiting =
    | CodexCodeReview | CodexClarification | CodexDecisionVerdict
    | HostApplyFindings | HostDraftDecisionRequest | HostDraftDecisionBrief | HostRecordDecision
    | HostReviseDecisionRequest | HostAnswerGateQuestion
    | CiResult | Report | MergePreconditions
    | MergeOutcomeExecute | MergeOutcomeCancel | MergeOutcomeFailure
    | UserInputDecision | UserInputGate | UserInputPermission

  predicate MergeOutcome(a: Awaiting) {
    a.MergeOutcomeExecute? || a.MergeOutcomeCancel? || a.MergeOutcomeFailure?
  }

  /** The states (outside any procedure) in which an awaited response may stay. */
  predicate AtHome(a: Awaiting, s: State) {
    match a
    case CodexCodeReview => s.RunningReview?
    case CodexClarification => s.ClarifyingReview?
    case CodexDecisionVerdict => s.ReviewingDecisionRequest?
    case HostApplyFindings => s.ChangesRequested? || s.ApplyingFixes?
    case HostDraftDecisionRequest => s.ReviewingDecisionRequest?
    case HostDraftDecisionBrief => s.ReviewingDecisionRequest?
    case HostRecordDecision => s.ReviewingDecisionRequest?
    case HostReviseDecisionRequest => s.ReviewingDecisionRequest?
    case HostAnswerGateQuestion => s.ReadyForHumanMerge?
    case CiResult => s.WaitingCi?
    case Report => s.GeneratingReport?
    case MergePreconditions => s.Merging?
    case MergeOutcomeExecute => s.Merging?
    case MergeOutcomeCancel => s.Merging?
    case MergeOutcomeFailure => s.Merging?
    case UserInputDecision => s.AwaitingUserDecision?
    case UserInputGate => s.ReadyForHumanMerge?
    case UserInputPermission => s.AwaitingToolPermission?
  }

  datatype Progress = Continue | LimitReached | NoProgress
  datatype Budget = ReviewRound | ClarificationTurn
  datatype IncidentTarget = TargetMerged | TargetCancelled
  datatype IncidentCoverage = Complete | Remainder

  /** A record waiting for its publication to be confirmed (a single slot). */
  datatype PendingRecord = PendingRecord(kind: RecordKind, binding: Binding, sourceState: State)

  /** Evidence of a record that was posted, re-read and verified. */
  datatype RecordEvidence = RecordEvidence(kind: RecordKind, binding: Binding, ref: Ref)

  /** Reference to one detected integrity violation. */
  datatype Violation = Violation(binding: Binding, descriptor: Ref, head: Ref)

  datatype ProgressReport = ProgressReport(progress: Progress, head: Ref, snapshot: Snapshot, fingerprint: Fingerprint)

  datatype CodexPurpose = PurposeCodeReview | PurposeClarification | PurposeDecisionVerdict

  datatype HostAction =
    | ApplyFindings | DraftDecisionRequest | DraftDecisionBrief | RecordDecision
    | ReviseDecisionRequest | AnswerGateQuestion

  datatype Command =
    | RequestCodexReview(purpose: CodexPurpose)
    | RequestHostAction(action: HostAction)
    | PersistRecord(kind: RecordKind, binding: Binding)
    | CheckCi
    | GenerateReport
    | HaltRun(attempt: Binding)
    | VerifyMergePreconditions
    | ExecuteMerge
    | QueryMergeOutcome
    | InvalidateApprovals
    | RecordIntegrityIncident(violationBindings: seq<Binding>, audit: Option<PendingRecord>)

  const CODEX_REVIEW: seq<Command> := [RequestCodexReview(PurposeCodeReview)]
  const HOST_APPLY: seq<Command> := [RequestHostAction(ApplyFindings)]

  /** The commands a resume reissues for an awaited response; user input needs none. */
  function AwaitingCommands(a: Awaiting): seq<Command> {
    match a
    case CodexCodeReview => CODEX_REVIEW
    case CodexClarification => [RequestCodexReview(PurposeClarification)]
    case CodexDecisionVerdict => [RequestCodexReview(PurposeDecisionVerdict)]
    case HostApplyFindings => HOST_APPLY
    case HostDraftDecisionRequest => [RequestHostAction(DraftDecisionRequest)]
    case HostDraftDecisionBrief => [RequestHostAction(DraftDecisionBrief)]
    case HostRecordDecision => [RequestHostAction(RecordDecision)]
    case HostReviseDecisionRequest => [RequestHostAction(ReviseDecisionRequest)]
    case HostAnswerGateQuestion => [RequestHostAction(AnswerGateQuestion)]
    case CiResult => [CheckCi]
    case Report => [GenerateReport]
    case MergePreconditions => [VerifyMergePreconditions]
    case MergeOutcomeExecute => [QueryMergeOutcome]
    case MergeOutcomeCancel => [QueryMergeOutcome]
    case MergeOutcomeFailure => [QueryMergeOutcome]
    case UserInputDecision => []
    case UserInputGate => []
    case UserInputPermission => []
  }

  /** The commands and awaited response that drive a state a run returns to; a partial table. */
  function DriveTable(s: State): Option<(seq<Command>, Awaiting)> {
    match s
    case RunningReview => Some((CODEX_REVIEW, CodexCodeReview))
    case ChangesRequested => Some((HOST_APPLY, HostApplyFindings))
    case ApplyingFixes => Some((HOST_APPLY, HostApplyFindings))
    case ClarifyingReview => Some(([RequestCodexReview(PurposeClarification)], CodexClarification))
    case ReviewingDecisionRequest => Some(([RequestCodexReview(PurposeDecisionVerdict)], CodexDecisionVerdict))
    case GeneratingReport => Some(([GenerateReport], Report))
    case _ => None
  }
}
