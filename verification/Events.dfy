/** The events the state machine receives, and the checks their constructors perform. */
module Events {
  import opened Vocabulary

  /** Events that report a verified record. */
  datatype VerifiedName =
    | ReviewBlockingVerified | ReviewApprovedVerified | FixResultVerified | ClarificationQuestionVerified
    | ClarificationConfirmedVerified | ClarificationRevisedVerified | ClarificationWithdrawnVerified
    | ClarificationEscalatedVerified | DecisionRequestVerified | VerdictAskUserVerified | VerdictProceedVerified
    | VerdictResubmitVerified | DecisionBriefVerified | DecisionRecordVerified | UserDecisionVerified
    | ExternalDependencyVerified | ToolPermissionBlocked | CiTimeoutRecorded | CiCodeFailureVerified | ReportVerified
    | GateQuestionVerified | GateAnswerVerified | GateChangesVerified | MergeApprovalVerified | UserCancelVerified
    | IntegrityIncidentVerified

  /** Events without a payload. */
  datatype SignalName =
    | FixStarted | PermissionResumeValidated | CiSucceeded | CiInfraFailure | CiResumeRequested
    | ReportFailureSignal | ReporterRetryRequested
    | MergePreconditionsOk | MergePreconditionMismatch | MergeConfirmed | MergeNotExecutedConfirmed
    | MergeOutcomeUnknown
    | HeadChangedExternally | RunFailed | ResumeValidated | ResumeFallbackRequired | ResumeSameHeadValidated

  datatype Detail = NoDetail | WithReport(report: ProgressReport) | WithHead(head: Ref)
      | WithRecorded(recorded: seq<Binding>)

  datatype ResolutionRoute = LimitRaised | Intervention | IntegrityRestored | IntegritySalvaged

  datatype Resolution = Resolution(
    targetBlock: Binding, head: Ref, record: Option<RecordEvidence>,
    reason: Option<Progress>, budget: Option<Budget>, snapshot: Option<Snapshot>, fingerprint: Option<Fingerprint>,
    violationBindings: Option<seq<Binding>>)

  datatype Event =
    | RecordProduced(kind: RecordKind, binding: Binding)
    | Verified(name: VerifiedName, evidence: RecordEvidence, detail: Detail)
    | Signal(signal: SignalName)
    | CancellationCompleted(attempt: Option<Binding>, emergency: Option<Ref>)
    | BlockHaltCompleted(haltAttempt: Binding)
    | ViolationDetected(violation: Violation)
    | BlockResolved(route: ResolutionRoute, resolution: Resolution)

  datatype EventType =
    | ProducedType | VerifiedType(name: VerifiedName) | SignalType(signal: SignalName)
    | CancellationType | HaltType | DetectionType | ResolutionType(route: ResolutionRoute)

  function TypeOf(e: Event): EventType {
    match e
    case RecordProduced(_, _) => ProducedType
    case Verified(name, _, _) => VerifiedType(name)
    case Signal(signal) => SignalType(signal)
    case CancellationCompleted(_, _) => CancellationType
    case BlockHaltCompleted(_) => HaltType
    case ViolationDetected(_) => DetectionType
    case BlockResolved(route, _) => ResolutionType(route)
  }

  function ExpectedKind(name: VerifiedName): RecordKind {
    match name
    case ReviewBlockingVerified => ReviewResult
    case ReviewApprovedVerified => ReviewResult
    case FixResultVerified => FixResult
    case ClarificationQuestionVerified => ClarificationQuestion
    case ClarificationConfirmedVerified => ClarificationAnswer
    case ClarificationRevisedVerified => ClarificationAnswer
    case ClarificationWithdrawnVerified => ClarificationAnswer
    case ClarificationEscalatedVerified => ClarificationAnswer
    case DecisionRequestVerified => DecisionRequest
    case VerdictAskUserVerified => DecisionVerdict
    case VerdictProceedVerified => DecisionVerdict
    case VerdictResubmitVerified => DecisionVerdict
    case DecisionBriefVerified => DecisionBrief
    case DecisionRecordVerified => DecisionRecord
    case UserDecisionVerified => UserDecision
    case ExternalDependencyVerified => ExternalDependency
    case ToolPermissionBlocked => PermissionBlock
    case CiTimeoutRecorded => CiTimeout
    case CiCodeFailureVerified => CiCodeFailure
    case ReportVerified => FinalReport
    case GateQuestionVerified => GateQuestion
    case GateAnswerVerified => GateAnswer
    case GateChangesVerified => GateChanges
    case MergeApprovalVerified => MergeApproval
    case UserCancelVerified => UserCancel
    case IntegrityIncidentVerified => IntegrityIncident
  }

  predicate DetailFits(name: VerifiedName, detail: Detail) {
    match name
    case ReviewBlockingVerified => detail.WithReport?
    case FixResultVerified => detail.WithReport?
    case ClarificationQuestionVerified => detail.WithReport?
    case VerdictResubmitVerified => detail.WithReport?
    case CiCodeFailureVerified => detail.WithReport?
    case ExternalDependencyVerified => detail.WithHead?
    case IntegrityIncidentVerified => detail.WithRecorded?
    case _ => detail.NoDetail?
  }

  /** What the event constructors accept. */
  predicate Constructible(e: Event) {
    match e
    case Verified(name, evidence, detail) => evidence.kind == ExpectedKind(name) && DetailFits(name, detail)
    case CancellationCompleted(attempt, emergency) => attempt.None? != emergency.None?
    case BlockResolved(Intervention, res) => res.record.Some? && res.record.value.kind == BlockIntervention
    case BlockResolved(IntegrityRestored, res) => res.violationBindings.Some? && res.violationBindings.value != []
    case BlockResolved(IntegritySalvaged, res) => res.violationBindings.Some? && res.violationBindings.value != []
    case _ => true
  }
}
