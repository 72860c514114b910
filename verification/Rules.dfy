/** The registry: every rule as one row, its match part and the kind of its effect. */
module Rules {
  import opened Vocabulary
  import opened Violations
  import opened MachineStates
  import opened Events
  import opened Guards

  // ---- saved continuations: the whole registry of them ----

  const INVALIDATE_AND_APPLY: seq<Command> := [InvalidateApprovals, RequestHostAction(ApplyFindings)]
  const INVALIDATE_AND_REVIEW: seq<Command> := [InvalidateApprovals, RequestCodexReview(PurposeCodeReview)]

  datatype ContinuationId =
    ReviewBlocking | ClarificationTurns | FixRounds | Resubmission | CiCodeFailures | DependencyFound

  function ContinuationOf(id: ContinuationId): BlockedContinuation {
    match id
    case ReviewBlocking => BlockedContinuation(ChangesRequested, HOST_APPLY, Some(HostApplyFindings))
    case ClarificationTurns =>
      BlockedContinuation(ClarifyingReview, [RequestCodexReview(PurposeClarification)], Some(CodexClarification))
    case FixRounds => BlockedContinuation(RunningReview, CODEX_REVIEW, Some(CodexCodeReview))
    case Resubmission => BlockedContinuation(
      ReviewingDecisionRequest, [RequestHostAction(ReviseDecisionRequest)], Some(HostReviseDecisionRequest))
    case CiCodeFailures => BlockedContinuation(ChangesRequested, INVALIDATE_AND_APPLY, Some(HostApplyFindings))
    case DependencyFound => BlockedContinuation(ApplyingFixes, HOST_APPLY, Some(HostApplyFindings))
  }

  predicate Registered(c: BlockedContinuation) {
    exists id :: c == ContinuationOf(id)
  }

  // ---- effects ----

  datatype FlowEffect =
    | Advance(to: Option<State>, awaitingAfter: Option<Awaiting>, commands: seq<Command>)
    | Produce(keepAwaiting: bool)
    | ProgressStop(continuation: ContinuationId, budget: Budget, entry: seq<Command>)
    | PermissionStop(returnTo: State)
    | PermissionResume
    | DependencyStop

  datatype MergeEffect =
    | ToMerging
    | MergeStep(to: Option<State>, awaitingAfter: Option<Awaiting>, commands: seq<Command>)
    | FreshReview
    | CancelQuery
    | ReturnToGate
    | StartCancel(consumePending: bool)
    | FinishCancel
    | CancelToIncident
    | FailToRecovery
    | Stay(commands: seq<Command>)

  datatype ResumeEffect =
    | ReissueHalt
    | ReissueIncident
    | ReissuePersist
    | ResumePending
    | ResumeAwaitingFailed
    | ResumeAwaitingLive
    | ResumeDrive
    | RetryAwaiting(state: State, awaiting: Awaiting)

  datatype IntegrityEffect =
    | DetectUnion(extra: seq<Command>)
    | DetectBlock
    | DetectHalt
    | DetectHaltUnion
    | DetectBlockedUnion
    | IncidentComplete
    | IncidentRemainder
    | OutcomeToIncident(target: IncidentTarget)
    | OutcomeToBlock
    | HaltComplete
    | Replay

  datatype Effect = Flow(f: FlowEffect) | Merge(m: MergeEffect) | Resume(r: ResumeEffect)
      | Integrity(i: IntegrityEffect)

  /** A failed table lookup or cast is a value of its own, so that its absence can be proved. */
  datatype Applied = Next(state: MachineState, commands: seq<Command>) | BadCast

  function FreshReviewResult(): Applied {
    Next(MachineState(RunningReview, awaiting := Some(CodexCodeReview)),
         [InvalidateApprovals, RequestCodexReview(PurposeCodeReview)])
  }

  function IncidentRequest(vs: seq<Violation>, audit: Option<PendingRecord>): seq<Command> {
    [RecordIntegrityIncident(Bindings(vs), audit)]
  }

  function ApplyFlow(x: FlowEffect, s: MachineState, e: Event): Applied {
    match x
    case Advance(to, awaitingAfter, commands) =>
      Next(s.(state := if to.None? then s.state else to.value, awaiting := awaitingAfter, pending := None), commands)
    case Produce(keepAwaiting) =>
      if !e.RecordProduced? then BadCast else
      Next(s.(awaiting := if keepAwaiting then s.awaiting else None,
              pending := Some(PendingRecord(e.kind, e.binding, s.state))),
           [PersistRecord(e.kind, e.binding)])
    case ProgressStop(continuation, budget, entry) =>
      if !e.Verified? || !e.detail.WithReport? then BadCast else
      var r := e.detail.report;
      var block := ProgressBlock(e.evidence.binding, r.head, ContinuationOf(continuation), r.progress, budget,
          r.snapshot, r.fingerprint);
      Next(s.(state := Blocked, awaiting := None, pending := None, block := Some(block)), entry)
    case PermissionStop(returnTo) =>
      Next(s.(state := AwaitingToolPermission, awaiting := Some(UserInputPermission), pending := None,
              returnTo := Some(returnTo)), [])
    case PermissionResume =>
      if s.returnTo.None? || DriveTable(s.returnTo.value).None? then BadCast else
      var (commands, awaiting) := DriveTable(s.returnTo.value).value;
      Next(s.(state := s.returnTo.value, awaiting := Some(awaiting), returnTo := None), commands)
    case DependencyStop =>
      if !e.Verified? || !e.detail.WithHead? then BadCast else
      var block := ExternalDependencyBlock(e.evidence.binding, e.detail.head, ContinuationOf(DependencyFound),
          e.evidence);
      Next(s.(state := Blocked, awaiting := None, pending := None, block := Some(block)), [])
  }

  function ApplyMerge(x: MergeEffect, s: MachineState, e: Event): Applied {
    match x
    case ToMerging =>
      Next(s.(state := Merging, awaiting := Some(MergePreconditions), pending := None), [VerifyMergePreconditions])
    case MergeStep(to, awaitingAfter, commands) =>
      if to.Some? && Terminal(to.value) then Next(MachineState(to.value), commands)
      else Next(s.(state := if to.None? then s.state else to.value, awaiting := awaitingAfter), commands)
    case FreshReview => FreshReviewResult()
    case CancelQuery => Next(s.(awaiting := Some(MergeOutcomeCancel), pending := None), [QueryMergeOutcome])
    case ReturnToGate => Next(s.(state := ReadyForHumanMerge, awaiting := Some(UserInputGate)), [])
    case StartCancel(consumePending) =>
      if !e.Verified? then BadCast else
      Next(s.(procedure := Cancelling(e.evidence.binding), awaiting := None,
              pending := if consumePending then None else s.pending), [HaltRun(e.evidence.binding)])
    case FinishCancel => Next(MachineState(Cancelled), [])
    case CancelToIncident =>
      Next(s.(procedure := RecordingIncident(TargetCancelled, s.pending), pending := None),
           IncidentRequest(s.deferred, s.pending))
    case FailToRecovery => Next(s.(state := Failed, recoveryTo := Some(s.state)), [])
    case Stay(commands) => Next(s, commands)
  }

  function ApplyResume(x: ResumeEffect, s: MachineState, e: Event): Applied {
    match x
    case ReissueHalt =>
      if s.procedure.Cancelling? then Next(s, [HaltRun(s.procedure.attempt)])
      else if s.procedure.HaltingForBlock? then Next(s, [HaltRun(s.procedure.attempt)])
      else BadCast
    case ReissueIncident =>
      if !s.procedure.RecordingIncident? then BadCast else
      Next(s, IncidentRequest(s.deferred, s.procedure.audit))
    case ReissuePersist =>
      if s.pending.None? then BadCast else Next(s, [PersistRecord(s.pending.value.kind, s.pending.value.binding)])
    case ResumePending =>
      if s.pending.None? then BadCast else
      var p := s.pending.value;
      Next(s.(state := p.sourceState, recoveryTo := if p.sourceState == s.state then s.recoveryTo else None),
           [PersistRecord(p.kind, p.binding)])
    case ResumeAwaitingFailed =>
      if s.recoveryTo.None? || s.awaiting.None? then BadCast else
      Next(s.(state := s.recoveryTo.value, recoveryTo := None), AwaitingCommands(s.awaiting.value))
    case ResumeAwaitingLive =>
      if s.awaiting.None? then BadCast else Next(s, AwaitingCommands(s.awaiting.value))
    case ResumeDrive =>
      if s.recoveryTo.None? || DriveTable(s.recoveryTo.value).None? then BadCast else
      var (commands, awaiting) := DriveTable(s.recoveryTo.value).value;
      Next(s.(state := s.recoveryTo.value, awaiting := Some(awaiting), recoveryTo := None), commands)
    case RetryAwaiting(state, awaiting) => Next(s.(state := state, awaiting := Some(awaiting)),
        AwaitingCommands(awaiting))
  }

  function ApplyIntegrity(x: IntegrityEffect, s: MachineState, e: Event): Applied {
    match x
    case DetectUnion(extra) =>
      if !e.ViolationDetected? then BadCast else
      Next(s.(deferred := Canon(s.deferred + [e.violation])), [InvalidateApprovals] + extra)
    case DetectBlock =>
      if !e.ViolationDetected? then BadCast else
      Next(MachineState(Blocked, block := Some(RecordIntegrityBlock([e.violation]))), [InvalidateApprovals])
    case DetectHalt =>
      if !e.ViolationDetected? then BadCast else
      Next(s.(procedure := HaltingForBlock([e.violation], e.violation.binding), awaiting := None, pending := None,
          deferred := []),
           [InvalidateApprovals, HaltRun(e.violation.binding)])
    case DetectHaltUnion =>
      if !e.ViolationDetected? || !s.procedure.HaltingForBlock? then BadCast else
      Next(s.(procedure := HaltingForBlock(Canon(s.procedure.violations + [e.violation]), s.procedure.attempt)),
           [InvalidateApprovals])
    case DetectBlockedUnion =>
      if !e.ViolationDetected? || s.block.None? || !s.block.value.RecordIntegrityBlock? then BadCast else
      Next(s.(block := Some(RecordIntegrityBlock(Canon(s.block.value.violations + [e.violation])))),
          [InvalidateApprovals])
    case IncidentComplete =>
      if !s.procedure.RecordingIncident? then BadCast else
      Next(MachineState(if s.procedure.target.TargetMerged? then Merged else Cancelled), [])
    case IncidentRemainder =>
      if !e.Verified? || !e.detail.WithRecorded? || !s.procedure.RecordingIncident? then BadCast else
      var remaining := Unrecorded(s.deferred, set b | b in e.detail.recorded);
      Next(s.(pending := None, deferred := remaining), IncidentRequest(remaining, s.procedure.audit))
    case OutcomeToIncident(target) =>
      Next(s.(procedure := RecordingIncident(target, None), awaiting := None), IncidentRequest(s.deferred, None))
    case OutcomeToBlock => Next(MachineState(Blocked, block := Some(RecordIntegrityBlock(s.deferred))), [])
    case HaltComplete =>
      if !s.procedure.HaltingForBlock? then BadCast else
      Next(MachineState(Blocked, block := Some(RecordIntegrityBlock(s.procedure.violations))), [])
    case Replay =>
      if s.block.None? || s.block.value.RecordIntegrityBlock? then BadCast else
      var c := s.block.value.continuation;
      Next(MachineState(c.resumeState, awaiting := c.awaiting), c.commands)
  }

  function Apply(x: Effect, s: MachineState, e: Event): Applied {
    match x
    case Flow(f) => ApplyFlow(f, s, e)
    case Merge(m) => ApplyMerge(m, s, e)
    case Resume(r) => ApplyResume(r, s, e)
    case Integrity(i) => ApplyIntegrity(i, s, e)
  }

  // ---- rule identifiers ----

  datatype ProducedId =
    | P01 | P02 | P03 | P04 | P05 | P06 | P07 | P08 | P09 | P10 | P11 | P12
    | P13 | P14 | P15 | P16
  datatype InputId = P17 | P18 | P19 | P20 | P21 | P22 | P23
  datatype WorkflowId =
    | T03 | TB03 | T04 | T05 | T06 | T07 | TB07 | T08a | T08b | T09 | T10 | T11 | TB11 | T12 | T13
  datatype DecisionId =
    | T14 | T15 | T16 | T17 | T18 | T19 | TB19 | T20a | T20b | T21 | T43
  datatype CiId = T22 | T23 | TB23 | T24 | T25 | T26 | T27 | T28
  datatype GateId = T29a | T29b | T30 | T31a | T31b | T33
  datatype MergeId =
    M32a | M32b | M34 | M35 | M36 | M37 | M38 | M39 | M40 | M41a | M41b | M42 | MSH | MHC
  datatype CancelId = C01 | C02 | C03 | C04 | C05 | F01 | F02
  datatype Stage = XC | XH | XIa | XIb
  datatype Trigger = OnRunFailed | OnResume | OnFallback | OnSameHead | OnCiResume | OnPermissionResume
      | OnReporterRetry
  datatype ResumeId = RP | RA1 | RA2 | RD | RB | RF | RFB | RCI | RRT
  datatype DetectionId = ID1 | ID2 | ID3 | ID4 | ID5 | ID5u | ID6 | ID7 | ID8
  datatype IncidentId = IP | IVC | IVR | I46 | I47 | I48 | I49
  datatype BlockId = BHC | BLR | BIV1 | BIV2 | BRS | BSV

  datatype RuleId =
    | ProducedRule(p: ProducedId)
    | InputRule(u: InputId)
    | WorkflowRule(w: WorkflowId)
    | DecisionRule(d: DecisionId)
    | CiRule(ci: CiId)
    | GateRule(g: GateId)
    | MergeRule(m: MergeId)
    | CancelRule(c: CancelId)
    | ProcedureRule(stage: Stage, trigger: Trigger)
    | ResumeRule(r: ResumeId)
    | DetectionRule(t: DetectionId)
    | IncidentRule(i: IncidentId)
    | BlockRule(b: BlockId)

  datatype Rule = Rule(guard: Match, effect: Effect)

  // ---- row constructors ----

  function ProducedRow(kind: RecordKind, state: State, awaiting: AwaitingFilter): Rule {
    Rule(Match(Only(state), ProducedType, awaiting := awaiting, pending := WhenAbsent, recordKind := Some(kind)),
        Flow(Produce(false)))
  }

  function VerifiedRow(name: VerifiedName, state: State, to: Option<State>, awaitingAfter: Option<Awaiting>,
      commands: seq<Command>): Rule {
    Rule(Match(Only(state), VerifiedType(name), pending := WhenMatched), Flow(Advance(to, awaitingAfter, commands)))
  }

  function ContinueRow(name: VerifiedName, state: State, to: Option<State>, awaitingAfter: Option<Awaiting>,
      commands: seq<Command>): Rule {
    Rule(Match(Only(state), VerifiedType(name), pending := WhenMatched, progress := Proceeds),
        Flow(Advance(to, awaitingAfter, commands)))
  }

  function StopRow(name: VerifiedName, state: State, continuation: ContinuationId, budget: Budget,
      entry: seq<Command>): Rule {
    Rule(Match(Only(state), VerifiedType(name), pending := WhenMatched, progress := Bounded),
        Flow(ProgressStop(continuation, budget, entry)))
  }

  /** A response without a record, or a record commented directly by the user: awaited, nothing pending. */
  function ResponseRow(event: EventType, state: State, awaited: Awaiting, to: Option<State>,
      awaitingAfter: Option<Awaiting>,
                       commands: seq<Command>): Rule {
    Rule(Match(Only(state), event, awaiting := Exactly(awaited), pending := WhenAbsent),
        Flow(Advance(to, awaitingAfter, commands)))
  }

  // ---- the registry ----

  /** The kind, state and awaited response of each internally produced record. */
  function ProducedData(p: ProducedId): (RecordKind, State, AwaitingFilter) {
    match p
    case P01 => (ReviewResult, RunningReview, Exactly(CodexCodeReview))
    case P02 => (FixResult, ApplyingFixes, Exactly(HostApplyFindings))
    case P03 => (ClarificationQuestion, ChangesRequested, Exactly(HostApplyFindings))
    case P04 => (ClarificationAnswer, ClarifyingReview, Exactly(CodexClarification))
    case P05 => (DecisionRequest, ApplyingFixes, Exactly(HostApplyFindings))
    case P06 => (DecisionRequest, ReviewingDecisionRequest,
                            DraftOrRevise)
    case P07 => (DecisionVerdict, ReviewingDecisionRequest, Exactly(CodexDecisionVerdict))
    case P08 => (DecisionBrief, ReviewingDecisionRequest, Exactly(HostDraftDecisionBrief))
    case P09 => (DecisionRecord, ReviewingDecisionRequest, Exactly(HostRecordDecision))
    case P10 => (ExternalDependency, ApplyingFixes, Exactly(HostApplyFindings))
    case P11 => (PermissionBlock, RunningReview, Exactly(CodexCodeReview))
    case P12 => (PermissionBlock, ApplyingFixes, Exactly(HostApplyFindings))
    case P13 => (CiTimeout, WaitingCi, Exactly(CiResult))
    case P14 => (CiCodeFailure, WaitingCi, Exactly(CiResult))
    case P15 => (FinalReport, GeneratingReport, Exactly(Report))
    case P16 => (GateAnswer, ReadyForHumanMerge, Exactly(HostAnswerGateQuestion))
  }

  function ProducedTable(p: ProducedId): Rule {
    var (kind, state, awaiting) := ProducedData(p);
    ProducedRow(kind, state, awaiting)
  }

  function InputTable(u: InputId): Rule {
    match u
    case P17 => ProducedRow(UserDecision, AwaitingUserDecision, Exactly(UserInputDecision))
    case P18 => ProducedRow(GateQuestion, ReadyForHumanMerge, Exactly(UserInputGate))
    case P19 => ProducedRow(GateChanges, ReadyForHumanMerge, Exactly(UserInputGate))
    case P20 => ProducedRow(MergeApproval, ReadyForHumanMerge, Exactly(UserInputGate))
    case P21 => Rule(Match(AnyNonTerminal, ProducedType, pending := WhenAbsent, recordKind := Some(UserCancel)),
        Flow(Produce(true)))
    case P22 => Rule(Match(Only(Blocked), ProducedType, pending := WhenAbsent, recordKind := Some(BlockIntervention),
        blockKinds := OneKind(ProgressKind), blockReason := Some(NoProgress)), Flow(Produce(true)))
    case P23 => Rule(Match(Only(Blocked), ProducedType, pending := WhenAbsent, recordKind := Some(BlockIntervention),
        blockKinds := OneKind(DependencyKind)), Flow(Produce(true)))
  }

  function WorkflowTable(w: WorkflowId): Rule {
    match w
    case T03 => ContinueRow(ReviewBlockingVerified, RunningReview, Some(ChangesRequested), Some(HostApplyFindings),
        HOST_APPLY)
    case TB03 => StopRow(ReviewBlockingVerified, RunningReview, ReviewBlocking, ReviewRound, [])
    case T04 => VerifiedRow(ReviewApprovedVerified, RunningReview, Some(WaitingCi), Some(CiResult), [CheckCi])
    case T05 => Rule(Match(Only(RunningReview), VerifiedType(ToolPermissionBlocked), pending := WhenMatched),
        Flow(PermissionStop(RunningReview)))
    case T06 => ResponseRow(SignalType(FixStarted), ChangesRequested, HostApplyFindings, Some(ApplyingFixes),
        Some(HostApplyFindings), [])
    case T07 => ContinueRow(ClarificationQuestionVerified, ChangesRequested, Some(ClarifyingReview),
        Some(CodexClarification), [RequestCodexReview(PurposeClarification)])
    case TB07 => StopRow(ClarificationQuestionVerified, ChangesRequested, ClarificationTurns, ClarificationTurn, [])
    case T08a => VerifiedRow(ClarificationConfirmedVerified, ClarifyingReview, Some(ChangesRequested),
        Some(HostApplyFindings), HOST_APPLY)
    case T08b => VerifiedRow(ClarificationRevisedVerified, ClarifyingReview, Some(ChangesRequested),
        Some(HostApplyFindings), HOST_APPLY)
    case T09 => VerifiedRow(ClarificationWithdrawnVerified, ClarifyingReview, Some(RunningReview),
        Some(CodexCodeReview), CODEX_REVIEW)
    case T10 => VerifiedRow(ClarificationEscalatedVerified, ClarifyingReview, Some(ReviewingDecisionRequest),
        Some(HostDraftDecisionRequest), [RequestHostAction(DraftDecisionRequest)])
    case T11 => ContinueRow(FixResultVerified, ApplyingFixes, Some(RunningReview), Some(CodexCodeReview), CODEX_REVIEW)
    case TB11 => StopRow(FixResultVerified, ApplyingFixes, FixRounds, ReviewRound, [])
    case T12 => VerifiedRow(DecisionRequestVerified, ApplyingFixes, Some(ReviewingDecisionRequest),
        Some(CodexDecisionVerdict), [RequestCodexReview(PurposeDecisionVerdict)])
    case T13 => Rule(Match(Only(ApplyingFixes), VerifiedType(ToolPermissionBlocked), pending := WhenMatched),
        Flow(PermissionStop(ApplyingFixes)))
  }

  function DecisionTable(d: DecisionId): Rule {
    match d
    case T14 => VerifiedRow(DecisionRequestVerified, ReviewingDecisionRequest, None, Some(CodexDecisionVerdict),
        [RequestCodexReview(PurposeDecisionVerdict)])
    case T15 => VerifiedRow(VerdictAskUserVerified, ReviewingDecisionRequest, None, Some(HostDraftDecisionBrief),
        [RequestHostAction(DraftDecisionBrief)])
    case T16 => VerifiedRow(DecisionBriefVerified, ReviewingDecisionRequest, Some(AwaitingUserDecision),
        Some(UserInputDecision), [])
    case T17 => VerifiedRow(VerdictProceedVerified, ReviewingDecisionRequest, None, Some(HostRecordDecision),
        [RequestHostAction(RecordDecision)])
    case T18 => VerifiedRow(DecisionRecordVerified, ReviewingDecisionRequest, Some(ApplyingFixes),
        Some(HostApplyFindings), HOST_APPLY)
    case T19 => ContinueRow(VerdictResubmitVerified, ReviewingDecisionRequest, None, Some(HostReviseDecisionRequest),
        [RequestHostAction(ReviseDecisionRequest)])
    case TB19 => StopRow(VerdictResubmitVerified, ReviewingDecisionRequest, Resubmission, ClarificationTurn, [])
    case T20a => VerifiedRow(UserDecisionVerified, AwaitingUserDecision, Some(ApplyingFixes), Some(HostApplyFindings),
        HOST_APPLY)
    case T20b => ResponseRow(VerifiedType(UserDecisionVerified), AwaitingUserDecision, UserInputDecision,
        Some(ApplyingFixes), Some(HostApplyFindings), HOST_APPLY)
    case T21 => Rule(Match(Only(AwaitingToolPermission), SignalType(PermissionResumeValidated),
        awaiting := Exactly(UserInputPermission), pending := WhenAbsent), Flow(PermissionResume))
    case T43 => Rule(Match(Only(ApplyingFixes), VerifiedType(ExternalDependencyVerified), pending := WhenMatched),
        Flow(DependencyStop))
  }

  function CiTable(ci: CiId): Rule {
    match ci
    case T22 => ResponseRow(SignalType(CiSucceeded), WaitingCi, CiResult, Some(GeneratingReport), Some(Report),
        [GenerateReport])
    case T23 => ContinueRow(CiCodeFailureVerified, WaitingCi, Some(ChangesRequested), Some(HostApplyFindings),
        INVALIDATE_AND_APPLY)
    case TB23 => StopRow(CiCodeFailureVerified, WaitingCi, CiCodeFailures, ReviewRound, [InvalidateApprovals])
    case T24 => ResponseRow(SignalType(CiInfraFailure), WaitingCi, CiResult, None, Some(CiResult), [CheckCi])
    case T25 => VerifiedRow(CiTimeoutRecorded, WaitingCi, None, None, [])
    case T26 => Rule(Match(Only(WaitingCi), SignalType(HeadChangedExternally), pending := WhenAbsent),
        Flow(Advance(Some(RunningReview), Some(CodexCodeReview), INVALIDATE_AND_REVIEW)))
    case T27 => VerifiedRow(ReportVerified, GeneratingReport, Some(ReadyForHumanMerge), Some(UserInputGate), [])
    case T28 => ResponseRow(SignalType(ReportFailureSignal), GeneratingReport, Report, Some(ReportFailed), None, [])
  }

  function GateTable(g: GateId): Rule {
    match g
    case T29a => VerifiedRow(GateQuestionVerified, ReadyForHumanMerge, None, Some(HostAnswerGateQuestion),
        [RequestHostAction(AnswerGateQuestion)])
    case T29b => ResponseRow(VerifiedType(GateQuestionVerified), ReadyForHumanMerge, UserInputGate, None,
        Some(HostAnswerGateQuestion), [RequestHostAction(AnswerGateQuestion)])
    case T30 => VerifiedRow(GateAnswerVerified, ReadyForHumanMerge, None, Some(UserInputGate), [])
    case T31a => VerifiedRow(GateChangesVerified, ReadyForHumanMerge, Some(ChangesRequested), Some(HostApplyFindings),
        INVALIDATE_AND_APPLY)
    case T31b => ResponseRow(VerifiedType(GateChangesVerified), ReadyForHumanMerge, UserInputGate,
        Some(ChangesRequested), Some(HostApplyFindings), INVALIDATE_AND_APPLY)
    case T33 => Rule(Match(Only(ReadyForHumanMerge), SignalType(HeadChangedExternally), pending := WhenAbsent),
        Flow(Advance(Some(RunningReview), Some(CodexCodeReview), INVALIDATE_AND_REVIEW)))
  }

  function MergeTable(m: MergeId): Rule {
    match m
    case M32a => Rule(Match(Only(ReadyForHumanMerge), VerifiedType(MergeApprovalVerified), pending := WhenMatched),
        Merge(ToMerging))
    case M32b => Rule(Match(Only(ReadyForHumanMerge), VerifiedType(MergeApprovalVerified),
        awaiting := Exactly(UserInputGate), pending := WhenAbsent), Merge(ToMerging))
    case M34 => Rule(Match(Only(Merging), SignalType(MergePreconditionsOk), awaiting := Exactly(MergePreconditions),
        pending := WhenAbsent), Merge(MergeStep(None, Some(MergeOutcomeExecute), [ExecuteMerge])))
    case M35 => Rule(Match(Only(Merging), SignalType(MergePreconditionMismatch),
        awaiting := Exactly(MergePreconditions), pending := WhenAbsent), Merge(MergeStep(Some(MergeFailed), None, [])))
    case M36 => Rule(Match(Only(Merging), SignalType(HeadChangedExternally), awaiting := Exactly(MergePreconditions),
        pending := WhenAbsent), Merge(FreshReview))
    case M37 => Rule(Match(Only(Merging), SignalType(MergeConfirmed), awaiting := AnyOutcome, pending := WhenAbsent,
        deferredNonempty := Some(false)), Merge(MergeStep(Some(Merged), None, [])))
    case M38 => Rule(Match(Only(Merging), SignalType(MergeNotExecutedConfirmed),
        awaiting := Exactly(MergeOutcomeCancel), pending := WhenAbsent, deferredNonempty := Some(false)),
        Merge(MergeStep(Some(Cancelled), None, [])))
    case M39 => Rule(Match(Only(Merging), SignalType(MergeNotExecutedConfirmed),
        awaiting := Exactly(MergeOutcomeFailure), pending := WhenAbsent, deferredNonempty := Some(false)),
        Merge(MergeStep(Some(MergeFailed), None, [])))
    case M40 => Rule(Match(Only(Merging), SignalType(MergeOutcomeUnknown), awaiting := AnyOutcome,
        pending := WhenAbsent, deferredNonempty := Some(false)), Merge(MergeStep(Some(MergeFailed), None, [])))
    case M41a => Rule(Match(Only(Merging), VerifiedType(UserCancelVerified), pending := WhenMatched),
        Merge(CancelQuery))
    case M41b => Rule(Match(Only(Merging), VerifiedType(UserCancelVerified), pending := WhenAbsent), Merge(CancelQuery))
    case M42 => Rule(Match(Only(Merging), SignalType(RunFailed), awaiting := AnyMerging),
        Merge(MergeStep(None, Some(MergeOutcomeFailure), [QueryMergeOutcome])))
    case MSH => Rule(Match(Only(MergeFailed), SignalType(ResumeSameHeadValidated), pending := WhenAbsent),
        Merge(ReturnToGate))
    case MHC => Rule(Match(Only(MergeFailed), SignalType(HeadChangedExternally), pending := WhenAbsent),
        Merge(FreshReview))
  }

  function CancelTable(c: CancelId): Rule {
    match c
    case C01 => Rule(Match(NonTerminalNotMerging, VerifiedType(UserCancelVerified), pending := WhenMatched),
        Merge(StartCancel(true)))
    case C02 => Rule(Match(NonTerminalNotMerging, VerifiedType(UserCancelVerified), pending := WhenAbsentOrMismatched),
        Merge(StartCancel(false)))
    case C03 => Rule(Match(NonTerminalNotMerging, CancellationType, procedure := CancellingKind, bindingMatched := true,
        deferredNonempty := Some(false)), Merge(FinishCancel))
    case C04 => Rule(Match(NonTerminalNotMerging, CancellationType, procedure := CancellingKind, bindingMatched := true,
        deferredNonempty := Some(true)), Merge(CancelToIncident))
    case C05 => Rule(Match(NonTerminalNotMerging, CancellationType, bindingMatched := true,
        deferredNonempty := Some(false)), Merge(FinishCancel))
    case F01 => Rule(Match(ActiveNotMerging, SignalType(RunFailed)), Merge(FailToRecovery))
    case F02 => Rule(Match(AnyResumable, SignalType(RunFailed)), Merge(Stay([])))
  }

  function TriggerSignal(t: Trigger): SignalName {
    match t
    case OnRunFailed => RunFailed
    case OnResume => ResumeValidated
    case OnFallback => ResumeFallbackRequired
    case OnSameHead => ResumeSameHeadValidated
    case OnCiResume => CiResumeRequested
    case OnPermissionResume => PermissionResumeValidated
    case OnReporterRetry => ReporterRetryRequested
  }

  /** While a procedure runs, a failure or any resume only reissues the command of its stage. */
  function ProcedureTable(stage: Stage, t: Trigger): Rule {
    var event := SignalType(TriggerSignal(t));
    match stage
    case XC => Rule(Match(NonTerminalNotMerging, event, procedure := CancellingKind), Resume(ReissueHalt))
    case XH => Rule(Match(ActiveNotMerging, event, procedure := HaltingKind), Resume(ReissueHalt))
    case XIa => Rule(Match(AnyNonTerminal, event, procedure := RecordingKind, pending := WhenAbsent),
        Resume(ReissueIncident))
    case XIb => Rule(Match(AnyNonTerminal, event, procedure := RecordingKind, pending := WhenPresent),
        Resume(ReissuePersist))
  }

  function ResumeTable(r: ResumeId): Rule {
    match r
    case RP => Rule(Match(AnyNonTerminal, SignalType(ResumeValidated), pending := WhenPresent), Resume(ResumePending))
    case RA1 => Rule(Match(Only(Failed), SignalType(ResumeValidated), awaiting := AnyAwaited, pending := WhenAbsent,
        recoveryPresent := Some(true)), Resume(ResumeAwaitingFailed))
    case RA2 => Rule(Match(NeitherFailedNorBlocked, SignalType(ResumeValidated), awaiting := AnyAwaited,
        pending := WhenAbsent), Resume(ResumeAwaitingLive))
    case RD => Rule(Match(Only(Failed), SignalType(ResumeValidated), awaiting := Nothing, pending := WhenAbsent,
        recoveryPresent := Some(true)), Resume(ResumeDrive))
    case RB => Rule(Match(Only(Blocked), SignalType(ResumeValidated), pending := WhenAbsent), Merge(Stay([])))
    case RF => Rule(Match(Only(Failed), SignalType(ResumeFallbackRequired), recoveryPresent := Some(true)),
        Merge(FreshReview))
    case RFB => Rule(Match(Only(Blocked), SignalType(ResumeFallbackRequired), blockKinds := ProgressOrDependency),
        Merge(FreshReview))
    case RCI => Rule(Match(Only(WaitingCi), SignalType(CiResumeRequested), awaiting := NothingOrCi,
        pending := WhenAbsent), Resume(RetryAwaiting(WaitingCi, CiResult)))
    case RRT => Rule(Match(Only(ReportFailed), SignalType(ReporterRetryRequested), awaiting := Nothing,
        pending := WhenAbsent), Resume(RetryAwaiting(GeneratingReport, Report)))
  }

  function DetectionTable(t: DetectionId): Rule {
    match t
    case ID1 => Rule(Match(AnyNonTerminal, DetectionType, procedure := RecordingKind), Integrity(DetectUnion([])))
    case ID2 => Rule(Match(NonTerminalNotMerging, DetectionType, procedure := CancellingKind),
        Integrity(DetectUnion([])))
    case ID3 => Rule(Match(Only(Merging), DetectionType, awaiting := AnyOutcome),
        Integrity(DetectUnion([QueryMergeOutcome])))
    case ID4 => Rule(Match(Only(Merging), DetectionType, awaiting := Exactly(MergePreconditions)),
        Integrity(DetectBlock))
    case ID5 => Rule(Match(ActiveNotMerging, DetectionType), Integrity(DetectHalt))
    case ID5u => Rule(Match(ActiveNotMerging, DetectionType, procedure := HaltingKind), Integrity(DetectHaltUnion))
    case ID6 => Rule(Match(ResumableNotBlocked, DetectionType), Integrity(DetectBlock))
    case ID7 => Rule(Match(Only(Blocked), DetectionType, blockKinds := OneKind(IntegrityKind)),
        Integrity(DetectBlockedUnion))
    case ID8 => Rule(Match(Only(Blocked), DetectionType, blockKinds := ProgressOrDependency), Integrity(DetectBlock))
  }

  function IncidentTable(i: IncidentId): Rule {
    match i
    case IP => Rule(Match(AnyNonTerminal, ProducedType, procedure := RecordingKind, pending := WhenAbsent,
        recordKind := Some(IntegrityIncident)), Flow(Produce(true)))
    case IVC => Rule(Match(AnyNonTerminal, VerifiedType(IntegrityIncidentVerified), procedure := RecordingKind,
        pending := WhenMatched, coverage := Some(Complete)), Integrity(IncidentComplete))
    case IVR => Rule(Match(AnyNonTerminal, VerifiedType(IntegrityIncidentVerified), procedure := RecordingKind,
        pending := WhenMatched, coverage := Some(Remainder)), Integrity(IncidentRemainder))
    case I46 => Rule(Match(Only(Merging), SignalType(MergeConfirmed), awaiting := AnyOutcome, pending := WhenAbsent,
        deferredNonempty := Some(true)), Integrity(OutcomeToIncident(TargetMerged)))
    case I47 => Rule(Match(Only(Merging), SignalType(MergeNotExecutedConfirmed),
        awaiting := Exactly(MergeOutcomeCancel), pending := WhenAbsent, deferredNonempty := Some(true)),
        Integrity(OutcomeToIncident(TargetCancelled)))
    case I48 => Rule(Match(Only(Merging), SignalType(MergeNotExecutedConfirmed),
        awaiting := Exactly(MergeOutcomeFailure), pending := WhenAbsent, deferredNonempty := Some(true)),
        Integrity(OutcomeToBlock))
    case I49 => Rule(Match(Only(Merging), SignalType(MergeOutcomeUnknown), awaiting := AnyOutcome,
        pending := WhenAbsent, deferredNonempty := Some(true)), Merge(Stay([QueryMergeOutcome])))
  }

  function BlockTable(b: BlockId): Rule {
    match b
    case BHC => Rule(Match(ActiveNotMerging, HaltType, procedure := HaltingKind, bindingMatched := true),
        Integrity(HaltComplete))
    case BLR => Rule(Match(Only(Blocked), ResolutionType(LimitRaised), pending := WhenAbsent, bindingMatched := true,
        blockKinds := OneKind(ProgressKind), blockReason := Some(LimitReached)), Integrity(Replay))
    case BIV1 => Rule(Match(Only(Blocked), ResolutionType(Intervention), pending := WhenAbsentOrMatched,
        bindingMatched := true, blockKinds := OneKind(ProgressKind), blockReason := Some(NoProgress)),
        Integrity(Replay))
    case BIV2 => Rule(Match(Only(Blocked), ResolutionType(Intervention), pending := WhenAbsentOrMatched,
        bindingMatched := true, blockKinds := OneKind(DependencyKind)), Integrity(Replay))
    case BRS => Rule(Match(Only(Blocked), ResolutionType(IntegrityRestored), pending := WhenAbsent,
        bindingMatched := true, blockKinds := OneKind(IntegrityKind)), Merge(FreshReview))
    case BSV => Rule(Match(Only(Blocked), ResolutionType(IntegritySalvaged), pending := WhenAbsent,
        bindingMatched := true, blockKinds := OneKind(IntegrityKind)), Merge(FreshReview))
  }

  function RuleOf(id: RuleId): Rule {
    match id
    case ProducedRule(p) => ProducedTable(p)
    case InputRule(u) => InputTable(u)
    case WorkflowRule(w) => WorkflowTable(w)
    case DecisionRule(d) => DecisionTable(d)
    case CiRule(ci) => CiTable(ci)
    case GateRule(g) => GateTable(g)
    case MergeRule(m) => MergeTable(m)
    case CancelRule(c) => CancelTable(c)
    case ProcedureRule(stage, t) => ProcedureTable(stage, t)
    case ResumeRule(r) => ResumeTable(r)
    case DetectionRule(t) => DetectionTable(t)
    case IncidentRule(i) => IncidentTable(i)
    case BlockRule(b) => BlockTable(b)
  }
}
