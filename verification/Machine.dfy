/** Rule selection and the transition function. */
module Machine {
  import opened Vocabulary
  import opened MachineStates
  import opened Events
  import opened Guards
  import opened Rules

  predicate Guarded(rule: Rule, s: MachineState, e: Event) {
    Matches(rule.guard, s.state, TypeOf(e), DeriveGuardKey(s, e))
  }

  predicate Enabled(id: RuleId, s: MachineState, e: Event) {
    Guarded(RuleOf(id), s, e)
  }

  // ---- the only rule that can match, read off the event and a few guard values ----

  function ProducedCandidate(s: MachineState, kind: RecordKind): RuleId {
    match kind
    case ReviewResult => ProducedRule(P01)
    case FixResult => ProducedRule(P02)
    case ClarificationQuestion => ProducedRule(P03)
    case ClarificationAnswer => ProducedRule(P04)
    case DecisionRequest => ProducedRule(if s.state == ApplyingFixes then P05 else P06)
    case DecisionVerdict => ProducedRule(P07)
    case DecisionBrief => ProducedRule(P08)
    case DecisionRecord => ProducedRule(P09)
    case ExternalDependency => ProducedRule(P10)
    case PermissionBlock => ProducedRule(if s.state == RunningReview then P11 else P12)
    case CiTimeout => ProducedRule(P13)
    case CiCodeFailure => ProducedRule(P14)
    case FinalReport => ProducedRule(P15)
    case GateAnswer => ProducedRule(P16)
    case UserDecision => InputRule(P17)
    case GateQuestion => InputRule(P18)
    case GateChanges => InputRule(P19)
    case MergeApproval => InputRule(P20)
    case UserCancel => InputRule(P21)
    case BlockIntervention => InputRule(if BlockKindKey(s) == Some(ProgressKind) then P22 else P23)
    case IntegrityIncident => IncidentRule(IP)
  }

  function VerifiedCandidate(s: MachineState, e: Event): RuleId
    requires e.Verified?
  {
    var matched := PendingKey(s, e) == PendingMatched;
    var proceed := ProgressKey(e) == Some(Continue);
    match e.name
    case ReviewBlockingVerified => WorkflowRule(if proceed then T03 else TB03)
    case ReviewApprovedVerified => WorkflowRule(T04)
    case FixResultVerified => WorkflowRule(if proceed then T11 else TB11)
    case ClarificationQuestionVerified => WorkflowRule(if proceed then T07 else TB07)
    case ClarificationConfirmedVerified => WorkflowRule(T08a)
    case ClarificationRevisedVerified => WorkflowRule(T08b)
    case ClarificationWithdrawnVerified => WorkflowRule(T09)
    case ClarificationEscalatedVerified => WorkflowRule(T10)
    case DecisionRequestVerified => if s.state == ApplyingFixes then WorkflowRule(T12) else DecisionRule(T14)
    case VerdictAskUserVerified => DecisionRule(T15)
    case VerdictProceedVerified => DecisionRule(T17)
    case VerdictResubmitVerified => DecisionRule(if proceed then T19 else TB19)
    case DecisionBriefVerified => DecisionRule(T16)
    case DecisionRecordVerified => DecisionRule(T18)
    case UserDecisionVerified => DecisionRule(if matched then T20a else T20b)
    case ExternalDependencyVerified => DecisionRule(T43)
    case ToolPermissionBlocked => WorkflowRule(if s.state == RunningReview then T05 else T13)
    case CiTimeoutRecorded => CiRule(T25)
    case CiCodeFailureVerified => CiRule(if proceed then T23 else TB23)
    case ReportVerified => CiRule(T27)
    case GateQuestionVerified => GateRule(if matched then T29a else T29b)
    case GateAnswerVerified => GateRule(T30)
    case GateChangesVerified => GateRule(if matched then T31a else T31b)
    case MergeApprovalVerified => MergeRule(if matched then M32a else M32b)
    case UserCancelVerified =>
      if s.state == Merging then MergeRule(if matched then M41a else M41b) else CancelRule(if matched then C01 else C02)
    case IntegrityIncidentVerified => IncidentRule(if CoverageKey(s, e) == Some(Complete) then IVC else IVR)
  }

  function ProcedureCandidate(s: MachineState, t: Trigger): RuleId {
    ProcedureRule(if s.procedure.Cancelling? then XC else if s.procedure.HaltingForBlock? then XH
                  else if s.pending.None? then XIa else XIb, t)
  }

  function SignalCandidate(s: MachineState, signal: SignalName): RuleId {
    var normal := s.procedure.Normal?;
    var clean := s.deferred == [];
    var cancelOrigin := s.awaiting == Some(MergeOutcomeCancel);
    match signal
    case FixStarted => WorkflowRule(T06)
    case PermissionResumeValidated => if normal then DecisionRule(T21) else ProcedureCandidate(s, OnPermissionResume)
    case CiSucceeded => CiRule(T22)
    case CiInfraFailure => CiRule(T24)
    case CiResumeRequested => if normal then ResumeRule(RCI) else ProcedureCandidate(s, OnCiResume)
    case ReportFailureSignal => CiRule(T28)
    case ReporterRetryRequested => if normal then ResumeRule(RRT) else ProcedureCandidate(s, OnReporterRetry)
    case MergePreconditionsOk => MergeRule(M34)
    case MergePreconditionMismatch => MergeRule(M35)
    case MergeConfirmed => if clean then MergeRule(M37) else IncidentRule(I46)
    case MergeNotExecutedConfirmed =>
      if clean then MergeRule(if cancelOrigin then M38 else M39) else IncidentRule(if cancelOrigin then I47 else I48)
    case MergeOutcomeUnknown => if clean then MergeRule(M40) else IncidentRule(I49)
    case HeadChangedExternally =>
      if s.state == WaitingCi then CiRule(T26) else if s.state == ReadyForHumanMerge then GateRule(T33)
      else MergeRule(if s.state == Merging then M36 else MHC)
    case RunFailed =>
      if !normal then ProcedureCandidate(s, OnRunFailed)
      else if s.state == Merging then MergeRule(M42)
      else CancelRule(if Active(s.state) then F01 else F02)
    case ResumeValidated =>
      if !normal then ProcedureCandidate(s, OnResume)
      else ResumeRule(if s.pending.Some? then RP else if s.state == Blocked then RB
                      else if s.state == Failed then (if s.awaiting.Some? then RA1 else RD) else RA2)
    case ResumeFallbackRequired =>
      if !normal then ProcedureCandidate(s, OnFallback) else ResumeRule(if s.state == Failed then RF else RFB)
    case ResumeSameHeadValidated => if normal then MergeRule(MSH) else ProcedureCandidate(s, OnSameHead)
  }

  function DetectionCandidate(s: MachineState): RuleId {
    DetectionRule(
      match s.procedure
      case RecordingIncident(_, _) => ID1
      case Cancelling(_) => ID2
      case HaltingForBlock(_, _) => ID5u
      case Normal =>
        if s.state == Merging then (if s.awaiting == Some(MergePreconditions) then ID4 else ID3)
        else if s.state == Blocked then (if BlockKindKey(s) == Some(IntegrityKind) then ID7 else ID8)
        else if Active(s.state) then ID5 else ID6)
  }

  function Candidate(s: MachineState, e: Event): RuleId {
    match e
    case RecordProduced(kind, _) => ProducedCandidate(s, kind)
    case Verified(_, _, _) => VerifiedCandidate(s, e)
    case Signal(signal) => SignalCandidate(s, signal)
    case CancellationCompleted(_, _) =>
      CancelRule(if s.procedure.Cancelling? then (if s.deferred == [] then C03 else C04) else C05)
    case BlockHaltCompleted(_) => BlockRule(BHC)
    case ViolationDetected(_) => DetectionCandidate(s)
    case BlockResolved(LimitRaised, _) => BlockRule(BLR)
    case BlockResolved(Intervention, _) => BlockRule(if BlockKindKey(s) == Some(ProgressKind) then BIV1 else BIV2)
    case BlockResolved(IntegrityRestored, _) => BlockRule(BRS)
    case BlockResolved(IntegritySalvaged, _) => BlockRule(BSV)
  }

  lemma CandidateProduced(p: ProducedId, s: MachineState, e: Event)
    requires Guarded(ProducedTable(p), s, e)
    ensures Candidate(s, e) == ProducedRule(p)
  {
    hide VerifiedCandidate;
    hide SignalCandidate;
    hide DetectionCandidate;
    hide BindingKey;
    hide CoverageKey;
    hide ProgressKey;
  }

  lemma CandidateInput(u: InputId, s: MachineState, e: Event)
    requires Guarded(InputTable(u), s, e)
    ensures Candidate(s, e) == InputRule(u)
  {
    hide VerifiedCandidate;
    hide SignalCandidate;
    hide DetectionCandidate;
    hide BindingKey;
    hide CoverageKey;
    hide ProgressKey;
  }

  lemma CandidateWorkflow(w: WorkflowId, s: MachineState, e: Event)
    requires Guarded(WorkflowTable(w), s, e)
    ensures Candidate(s, e) == WorkflowRule(w)
  {
    hide ProducedCandidate;
    hide DetectionCandidate;
    hide BindingKey;
    hide CoverageKey;
  }

  lemma CandidateDecision(d: DecisionId, s: MachineState, e: Event)
    requires Guarded(DecisionTable(d), s, e)
    ensures Candidate(s, e) == DecisionRule(d)
  {
    hide ProducedCandidate;
    hide DetectionCandidate;
    hide BindingKey;
    hide CoverageKey;
  }

  lemma CandidateCi(ci: CiId, s: MachineState, e: Event)
    requires Guarded(CiTable(ci), s, e)
    ensures Candidate(s, e) == CiRule(ci)
  {
    hide ProducedCandidate;
    hide DetectionCandidate;
    hide BindingKey;
    hide CoverageKey;
  }

  lemma CandidateGate(g: GateId, s: MachineState, e: Event)
    requires Guarded(GateTable(g), s, e)
    ensures Candidate(s, e) == GateRule(g)
  {
    hide ProducedCandidate;
    hide DetectionCandidate;
    hide BindingKey;
    hide CoverageKey;
  }

  lemma CandidateMergeVerified(m: MergeId, s: MachineState, e: Event)
    requires Guarded(MergeTable(m), s, e) && (m.M32a? || m.M32b? || m.M41a? || m.M41b?)
    ensures Candidate(s, e) == MergeRule(m)
  {
    hide ProducedCandidate;
    hide SignalCandidate;
    hide DetectionCandidate;
    hide BindingKey;
    hide CoverageKey;
  }

  lemma CandidateMergeSignal(m: MergeId, s: MachineState, e: Event)
    requires Guarded(MergeTable(m), s, e) && !(m.M32a? || m.M32b? || m.M41a? || m.M41b?)
    ensures Candidate(s, e) == MergeRule(m)
  {
    hide ProducedCandidate;
    hide VerifiedCandidate;
    hide DetectionCandidate;
    hide BindingKey;
    hide CoverageKey;
    var g := MergeTable(m).guard;
    assert TypeOf(e) == g.event;
    assert StateAllowed(g.states, s.state);
  }

  lemma CandidateMerge(m: MergeId, s: MachineState, e: Event)
    requires Guarded(MergeTable(m), s, e)
    ensures Candidate(s, e) == MergeRule(m)
  {
    hide Guarded;
    hide Candidate;
    if m.M32a? || m.M32b? || m.M41a? || m.M41b? {
      CandidateMergeVerified(m, s, e);
    } else {
      CandidateMergeSignal(m, s, e);
    }
  }

  lemma CandidateCancel(c: CancelId, s: MachineState, e: Event)
    requires Guarded(CancelTable(c), s, e)
    ensures Candidate(s, e) == CancelRule(c)
  {
    hide ProducedCandidate;
    hide DetectionCandidate;
    hide CoverageKey;
    hide ResolutionMatches;
  }

  lemma CandidateProcedure(stage: Stage, t: Trigger, s: MachineState, e: Event)
    requires Guarded(ProcedureTable(stage, t), s, e)
    ensures Candidate(s, e) == ProcedureRule(stage, t)
  {
    hide ProducedCandidate;
    hide VerifiedCandidate;
    hide DetectionCandidate;
    hide BindingKey;
    hide CoverageKey;
    var guard := ProcedureTable(stage, t).guard;
    assert TypeOf(e) == guard.event;
    assert ProcedureKindOf(s) == guard.procedure;
  }

  lemma CandidateResume(r: ResumeId, s: MachineState, e: Event)
    requires Guarded(ResumeTable(r), s, e)
    ensures Candidate(s, e) == ResumeRule(r)
  {
    hide ProducedCandidate;
    hide VerifiedCandidate;
    hide DetectionCandidate;
    hide BindingKey;
    hide CoverageKey;
  }

  lemma CandidateDetection(t: DetectionId, s: MachineState, e: Event)
    requires Guarded(DetectionTable(t), s, e)
    ensures Candidate(s, e) == DetectionRule(t)
  {
    hide ProducedCandidate;
    hide VerifiedCandidate;
    hide SignalCandidate;
    hide BindingKey;
    hide CoverageKey;
  }

  lemma CandidateIncident(i: IncidentId, s: MachineState, e: Event)
    requires Guarded(IncidentTable(i), s, e)
    ensures Candidate(s, e) == IncidentRule(i)
  {
    hide DetectionCandidate;
    hide BindingKey;
  }

  lemma CandidateBlock(b: BlockId, s: MachineState, e: Event)
    requires Guarded(BlockTable(b), s, e)
    ensures Candidate(s, e) == BlockRule(b)
  {
    hide ProducedCandidate;
    hide VerifiedCandidate;
    hide SignalCandidate;
    hide DetectionCandidate;
    hide CoverageKey;
  }

  lemma CandidateFor(id: RuleId, s: MachineState, e: Event)
    requires Enabled(id, s, e)
    ensures Candidate(s, e) == id
  {
    match id
    case ProducedRule(p) => CandidateProduced(p, s, e);
    case InputRule(u) => CandidateInput(u, s, e);
    case WorkflowRule(w) => CandidateWorkflow(w, s, e);
    case DecisionRule(d) => CandidateDecision(d, s, e);
    case CiRule(ci) => CandidateCi(ci, s, e);
    case GateRule(g) => CandidateGate(g, s, e);
    case MergeRule(m) => CandidateMerge(m, s, e);
    case CancelRule(c) => CandidateCancel(c, s, e);
    case ProcedureRule(stage, t) => CandidateProcedure(stage, t, s, e);
    case ResumeRule(r) => CandidateResume(r, s, e);
    case DetectionRule(t) => CandidateDetection(t, s, e);
    case IncidentRule(i) => CandidateIncident(i, s, e);
    case BlockRule(b) => CandidateBlock(b, s, e);
  }

  // ---- selection and transition ----

  function Select(s: MachineState, e: Event): Option<RuleId> {
    var id := Candidate(s, e);
    if Enabled(id, s, e) then Some(id) else None
  }

  /** Scanning the whole registry finds nothing, or exactly the selected rule: never two. */
  lemma SelectIsRegistryScan(s: MachineState, e: Event)
    ensures Select(s, e).None? <==> forall id :: !Enabled(id, s, e)
    ensures forall id :: Select(s, e) == Some(id) <==> Enabled(id, s, e)
    ensures forall a, b :: Enabled(a, s, e) && Enabled(b, s, e) ==> a == b
  {
    forall id | Enabled(id, s, e) ensures Candidate(s, e) == id {
      CandidateFor(id, s, e);
    }
  }

  datatype Outcome =
    | Accepted(next: MachineState, commands: seq<Command>)
    | TransitionRejected
    | EffectFailed
    | IllegalState(check: Check)

  /** The effect of a rule, then the checks of the state it constructs. */
  function Perform(rule: Rule, s: MachineState, e: Event): Outcome {
    match Apply(rule.effect, s, e)
    case BadCast => EffectFailed
    case Next(next, commands) =>
      match FirstFailure(next)
      case Some(check) => IllegalState(check)
      case None => Accepted(next, commands)
  }

  function Transition(s: MachineState, e: Event): Outcome {
    if Terminal(s.state) then TransitionRejected
    else match Select(s, e)
         case None => TransitionRejected
         case Some(id) => Perform(RuleOf(id), s, e)
  }

  /** A transition is the effect of the one enabled rule. */
  lemma TransitionBy(id: RuleId, s: MachineState, e: Event)
    requires !Terminal(s.state) && Enabled(id, s, e)
    ensures Transition(s, e) == Perform(RuleOf(id), s, e)
  {
    CandidateFor(id, s, e);
  }

  /** Every accepted transition comes from an enabled rule. */
  lemma RuleBehind(s: MachineState, e: Event) returns (id: RuleId)
    requires !Transition(s, e).TransitionRejected?
    ensures !Terminal(s.state) && Enabled(id, s, e) && Transition(s, e) == Perform(RuleOf(id), s, e)
  {
    id := Candidate(s, e);
  }

  /** The start of a run: a successful preflight reviews at once, a failed one has nothing to resume. */
  function Initialize(preflightOk: bool): (MachineState, seq<Command>) {
    if preflightOk then (MachineState(RunningReview, awaiting := Some(CodexCodeReview)), CODEX_REVIEW)
    else (MachineState(Failed), [])
  }
}
