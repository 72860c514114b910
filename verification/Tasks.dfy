/** What a run is working on: fixed by the last event that decided it, however the run was interrupted since. */
module Tasks {
  import opened Vocabulary
  import opened Violations
  import opened MachineStates
  import opened Events
  import opened Guards
  import opened Rules
  import opened Machine
  import opened Readiness
  import opened Invariant

  /** The pieces of work of the review, the host, the checks and the user. */
  datatype Task =
    | ReviewChanges | StudyFindings | ClarifyFinding | ApplyTheFixes
    | DraftTheRequest | ReviseTheRequest | JudgeTheRequest | DraftTheBrief | DecideAsUser | WriteTheDecision
    | WatchChecks | PauseForChecks | WriteTheReport | RetryTheReport
    | HoldTheGate | AnswerAtGate | CheckBeforeMerge | LearnMerged | LearnCancelled | LearnFailed | SettleFailedMerge

  /** The work that a record or a signal decides on, wherever it is accepted. */
  function DecidedBy(e: EventType): Option<Task> {
    match e
    case VerifiedType(ReviewBlockingVerified) => Some(StudyFindings)
    case VerifiedType(ReviewApprovedVerified) => Some(WatchChecks)
    case VerifiedType(FixResultVerified) => Some(ReviewChanges)
    case VerifiedType(ClarificationQuestionVerified) => Some(ClarifyFinding)
    case VerifiedType(ClarificationConfirmedVerified) => Some(StudyFindings)
    case VerifiedType(ClarificationRevisedVerified) => Some(StudyFindings)
    case VerifiedType(ClarificationWithdrawnVerified) => Some(ReviewChanges)
    case VerifiedType(ClarificationEscalatedVerified) => Some(DraftTheRequest)
    case VerifiedType(DecisionRequestVerified) => Some(JudgeTheRequest)
    case VerifiedType(VerdictAskUserVerified) => Some(DraftTheBrief)
    case VerifiedType(VerdictProceedVerified) => Some(WriteTheDecision)
    case VerifiedType(VerdictResubmitVerified) => Some(ReviseTheRequest)
    case VerifiedType(DecisionBriefVerified) => Some(DecideAsUser)
    case VerifiedType(DecisionRecordVerified) => Some(ApplyTheFixes)
    case VerifiedType(UserDecisionVerified) => Some(ApplyTheFixes)
    case VerifiedType(CiTimeoutRecorded) => Some(PauseForChecks)
    case VerifiedType(CiCodeFailureVerified) => Some(StudyFindings)
    case VerifiedType(ReportVerified) => Some(HoldTheGate)
    case VerifiedType(GateQuestionVerified) => Some(AnswerAtGate)
    case VerifiedType(GateAnswerVerified) => Some(HoldTheGate)
    case VerifiedType(GateChangesVerified) => Some(StudyFindings)
    case VerifiedType(MergeApprovalVerified) => Some(CheckBeforeMerge)
    case SignalType(FixStarted) => Some(ApplyTheFixes)
    case SignalType(CiSucceeded) => Some(WriteTheReport)
    case SignalType(CiInfraFailure) => Some(WatchChecks)
    case SignalType(CiResumeRequested) => Some(WatchChecks)
    case SignalType(ReportFailureSignal) => Some(RetryTheReport)
    case SignalType(ReporterRetryRequested) => Some(WriteTheReport)
    case SignalType(MergePreconditionsOk) => Some(LearnMerged)
    case SignalType(MergePreconditionMismatch) => Some(SettleFailedMerge)
    case SignalType(MergeNotExecutedConfirmed) => Some(SettleFailedMerge)
    case SignalType(ResumeSameHeadValidated) => Some(HoldTheGate)
    case SignalType(HeadChangedExternally) => Some(ReviewChanges)
    case SignalType(ResumeFallbackRequired) => Some(ReviewChanges)
    case ResolutionType(IntegrityRestored) => Some(ReviewChanges)
    case ResolutionType(IntegritySalvaged) => Some(ReviewChanges)
    case _ => None
  }

  /** A procedure in progress decides nothing; a failure or a cancel changes the work only while merging. */
  function Decided(s: MachineState, e: Event): Option<Task> {
    if !s.procedure.Normal? then None
    else match TypeOf(e)
         case SignalType(RunFailed) => if s.state == Merging then Some(LearnFailed) else None
         case VerifiedType(UserCancelVerified) => if s.state == Merging then Some(LearnCancelled) else None
         case SignalType(MergeOutcomeUnknown) => if s.deferred == [] then Some(SettleFailedMerge) else None
         case type_ => DecidedBy(type_)
  }

  function After(s: MachineState, e: Event, task: Task): Task {
    match Decided(s, e)
    case Some(next) => next
    case None => task
  }

  /** The two resolutions that settle an integrity block and review afresh. */
  predicate SettlesIntegrity(e: Event) {
    e.BlockResolved? && (e.route.IntegrityRestored? || e.route.IntegritySalvaged?)
  }

  // ---- how states, awaited responses and records belong to tasks ----

  function StateOf(task: Task): State {
    match task
    case ReviewChanges => RunningReview
    case StudyFindings => ChangesRequested
    case ClarifyFinding => ClarifyingReview
    case ApplyTheFixes => ApplyingFixes
    case DraftTheRequest => ReviewingDecisionRequest
    case ReviseTheRequest => ReviewingDecisionRequest
    case JudgeTheRequest => ReviewingDecisionRequest
    case DraftTheBrief => ReviewingDecisionRequest
    case WriteTheDecision => ReviewingDecisionRequest
    case DecideAsUser => AwaitingUserDecision
    case WatchChecks => WaitingCi
    case PauseForChecks => WaitingCi
    case WriteTheReport => GeneratingReport
    case RetryTheReport => ReportFailed
    case HoldTheGate => ReadyForHumanMerge
    case AnswerAtGate => ReadyForHumanMerge
    case CheckBeforeMerge => Merging
    case LearnMerged => Merging
    case LearnCancelled => Merging
    case LearnFailed => Merging
    case SettleFailedMerge => MergeFailed
  }

  /** The response a task waits for; three of them wait for a resume only. */
  function AwaitedIn(task: Task): Option<Awaiting> {
    match task
    case ReviewChanges => Some(CodexCodeReview)
    case StudyFindings => Some(HostApplyFindings)
    case ClarifyFinding => Some(CodexClarification)
    case ApplyTheFixes => Some(HostApplyFindings)
    case DraftTheRequest => Some(HostDraftDecisionRequest)
    case ReviseTheRequest => Some(HostReviseDecisionRequest)
    case JudgeTheRequest => Some(CodexDecisionVerdict)
    case DraftTheBrief => Some(HostDraftDecisionBrief)
    case WriteTheDecision => Some(HostRecordDecision)
    case DecideAsUser => Some(UserInputDecision)
    case WatchChecks => Some(CiResult)
    case PauseForChecks => None
    case WriteTheReport => Some(Report)
    case RetryTheReport => None
    case HoldTheGate => Some(UserInputGate)
    case AnswerAtGate => Some(HostAnswerGateQuestion)
    case CheckBeforeMerge => Some(MergePreconditions)
    case LearnMerged => Some(MergeOutcomeExecute)
    case LearnCancelled => Some(MergeOutcomeCancel)
    case LearnFailed => Some(MergeOutcomeFailure)
    case SettleFailedMerge => None
  }

  /** The records that answer a task. */
  predicate Answers(kind: RecordKind, task: Task) {
    match kind
    case ReviewResult => task.ReviewChanges?
    case FixResult => task.ApplyTheFixes?
    case ClarificationQuestion => task.StudyFindings?
    case ClarificationAnswer => task.ClarifyFinding?
    case DecisionRequest => task.ApplyTheFixes? || task.DraftTheRequest? || task.ReviseTheRequest?
    case DecisionVerdict => task.JudgeTheRequest?
    case DecisionBrief => task.DraftTheBrief?
    case DecisionRecord => task.WriteTheDecision?
    case ExternalDependency => task.ApplyTheFixes?
    case PermissionBlock => task.ReviewChanges? || task.ApplyTheFixes?
    case CiTimeout => task.WatchChecks?
    case CiCodeFailure => task.WatchChecks?
    case FinalReport => task.WriteTheReport?
    case GateAnswer => task.AnswerAtGate?
    case UserDecision => task.DecideAsUser?
    case GateQuestion => task.HoldTheGate?
    case GateChanges => task.HoldTheGate?
    case MergeApproval => task.HoldTheGate?
    case _ => false
  }

  /** The user may cancel during any task and intervene in any block. */
  predicate Aside(kind: RecordKind) {
    kind.UserCancel? || kind.BlockIntervention?
  }

  /** Nothing is worked on: at the end, in a procedure, blocked on record integrity, or failed before the start. */
  predicate Idle(s: MachineState) {
    Terminal(s.state) || !s.procedure.Normal? || IntegrityBlocked(s) || (s.state == Failed && s.recoveryTo.None?)
  }

  predicate Stopped(s: MachineState) {
    s.block.Some? && !s.block.value.RecordIntegrityBlock?
  }

  /** The state in which the work goes on once an interruption is over. */
  function WorkState(s: MachineState): State {
    if s.state == Failed && s.recoveryTo.Some? then s.recoveryTo.value
    else if s.state == AwaitingToolPermission && s.returnTo.Some? then s.returnTo.value
    else if Stopped(s) then s.block.value.continuation.resumeState
    else s.state
  }

  /** The response that is or will again be awaited. */
  function WorkAwaiting(s: MachineState): Option<Awaiting> {
    if Stopped(s) then s.block.value.continuation.awaiting else s.awaiting
  }

  /** In the state of the task, a record that answers it is pending, or its response or a permission is awaited. */
  predicate Doing(s: MachineState, task: Task) {
    Idle(s) ||
    (&& WorkState(s) == StateOf(task)
     && if s.pending.Some? && !Aside(s.pending.value.kind)
        then Answers(s.pending.value.kind, task) && s.pending.value.sourceState == StateOf(task)
        else if s.state == AwaitingToolPermission then s.awaiting == Some(UserInputPermission)
        else WorkAwaiting(s) == AwaitedIn(task))
  }

  predicate GoesOn(s: MachineState, e: Event, task: Task, a: Applied) {
    a.Next? && Doing(a.state, After(s, e, task))
  }

  // ---- the rows of the registry ----

  /** What the match part of a rule says about the decided task. */
  function RowDecides(guard: Match): Option<Task> {
    match guard.event
    case SignalType(RunFailed) => if guard.states == Only(Merging) then Some(LearnFailed) else None
    case VerifiedType(UserCancelVerified) => if guard.states == Only(Merging) then Some(LearnCancelled) else None
    case SignalType(MergeOutcomeUnknown) =>
      if guard.deferredNonempty == Some(false) then Some(SettleFailedMerge) else None
    case type_ => DecidedBy(type_)
  }

  /** A rule for an event that means something else while merging tells the two cases apart. */
  predicate TellsApart(guard: Match) {
    match guard.event
    case SignalType(RunFailed) => guard.states == Only(Merging) || !StateAllowed(guard.states, Merging)
    case VerifiedType(UserCancelVerified) => guard.states == Only(Merging) || !StateAllowed(guard.states, Merging)
    case SignalType(MergeOutcomeUnknown) => guard.deferredNonempty.Some?
    case _ => true
  }

  /** A task and the state and response that belong to it. */
  predicate Belongs(decided: Option<Task>, state: State, awaiting: Option<Awaiting>) {
    decided.Some? && StateOf(decided.value) == state && AwaitedIn(decided.value) == awaiting
  }

  /** A record of this kind answers any task that waits for the response in this state. */
  predicate AnswersAwaited(kind: RecordKind, state: State, awaited: AwaitingFilter) {
    forall task: Task ::
      StateOf(task) == state && AwaitingAllowed(awaited, AwaitedIn(task)) ==> Answers(kind, task)
  }

  predicate FlowFits(f: FlowEffect, guard: Match) {
    match f
    case Advance(to, awaitingAfter, _) =>
      && guard.states.Only?
      && Belongs(RowDecides(guard), if to.None? then guard.states.only else to.value, awaitingAfter)
    case Produce(keepAwaiting) =>
      && guard.event == ProducedType && guard.recordKind.Some?
      && var kind := guard.recordKind.value;
      && ((Aside(kind) && keepAwaiting) || kind == IntegrityIncident
          || (!Aside(kind) && guard.states.Only? && Plain(guard.states.only)
              && AnswersAwaited(kind, guard.states.only, guard.awaiting)))
    case ProgressStop(id, _, _) =>
      Belongs(RowDecides(guard), ContinuationOf(id).resumeState, ContinuationOf(id).awaiting)
    case PermissionStop(returnTo) => guard.states == Only(returnTo) && RowDecides(guard).None?
    case PermissionResume => RowDecides(guard).None?
    case DependencyStop => guard.states == Only(ApplyingFixes) && RowDecides(guard).None?
  }

  predicate MergeFits(m: MergeEffect, decided: Option<Task>) {
    match m
    case ToMerging => decided == Some(CheckBeforeMerge)
    case MergeStep(to, awaitingAfter, _) =>
      (to.Some? && Terminal(to.value)) || Belongs(decided, if to.None? then Merging else to.value, awaitingAfter)
    case FreshReview => decided == Some(ReviewChanges)
    case CancelQuery => decided == Some(LearnCancelled)
    case ReturnToGate => decided == Some(HoldTheGate)
    case _ => decided.None?
  }

  predicate ResumeFits(r: ResumeEffect, decided: Option<Task>) {
    match r
    case RetryAwaiting(state, awaiting) => Belongs(decided, state, Some(awaiting))
    case _ => decided.None?
  }

  predicate Fits(rule: Rule) {
    (rule.guard.procedure == NormalKind ==> TellsApart(rule.guard)) &&
    match rule.effect
    case Flow(f) => FlowFits(f, rule.guard)
    case Merge(m) => rule.guard.procedure == NormalKind ==> MergeFits(m, RowDecides(rule.guard))
    case Resume(r) => rule.guard.procedure == NormalKind ==> ResumeFits(r, RowDecides(rule.guard))
    case Integrity(i) => i.Replay? || i.DetectUnion? ==> RowDecides(rule.guard).None?
  }

  predicate ReviewSide(w: WorkflowId) {
    w.T03? || w.TB03? || w.T04? || w.T05? || w.T06? || w.T07? || w.TB07?
  }

  predicate VerdictSide(d: DecisionId) {
    d.T14? || d.T15? || d.T17? || d.T19? || d.TB19?
  }

  predicate CheckSide(ci: CiId) {
    ci.T22? || ci.T23? || ci.TB23? || ci.T24?
  }

  lemma ReviewRowsFit(w: WorkflowId)
    requires ReviewSide(w)
    ensures Fits(WorkflowTable(w))
  {
    hide MergeFits;
    hide ResumeFits;
    hide Answers;
    hide AnswersAwaited;
  }

  lemma FixRowsFit(w: WorkflowId)
    requires !ReviewSide(w)
    ensures Fits(WorkflowTable(w))
  {
    hide MergeFits;
    hide ResumeFits;
    hide Answers;
    hide AnswersAwaited;
  }

  lemma VerdictRowsFit(d: DecisionId)
    requires VerdictSide(d)
    ensures Fits(DecisionTable(d))
  {
    hide MergeFits;
    hide ResumeFits;
    hide Answers;
    hide AnswersAwaited;
  }

  lemma DecisionRowsFit(d: DecisionId)
    requires !VerdictSide(d)
    ensures Fits(DecisionTable(d))
  {
    hide MergeFits;
    hide ResumeFits;
    hide Answers;
    hide AnswersAwaited;
  }

  lemma CheckRowsFit(ci: CiId)
    requires CheckSide(ci)
    ensures Fits(CiTable(ci))
  {
    hide MergeFits;
    hide ResumeFits;
    hide Answers;
    hide AnswersAwaited;
  }

  lemma ReportRowsFit(ci: CiId)
    requires !CheckSide(ci)
    ensures Fits(CiTable(ci))
  {
    hide MergeFits;
    hide ResumeFits;
    hide Answers;
    hide AnswersAwaited;
  }

  lemma GateRowsFit(g: GateId)
    ensures Fits(GateTable(g))
  {
    hide MergeFits;
    hide ResumeFits;
    hide Answers;
    hide AnswersAwaited;
  }

  lemma ProducedRowsFit(p: ProducedId)
    ensures Fits(ProducedTable(p))
  {}

  lemma InputRowsFit(u: InputId)
    ensures Fits(InputTable(u))
  {
    hide MergeFits;
    hide ResumeFits;
    hide DecidedBy;
  }

  lemma OutcomeRowsFit(m: MergeId)
    requires m.M35? || m.M37? || m.M38? || m.M39? || m.M40?
    ensures Fits(MergeTable(m))
  {
    hide FlowFits;
    hide ResumeFits;
  }

  lemma MergeRowsFit(m: MergeId)
    requires !(m.M35? || m.M37? || m.M38? || m.M39? || m.M40?)
    ensures Fits(MergeTable(m))
  {
    hide FlowFits;
    hide ResumeFits;
  }

  lemma CancelRowsFit(id: RuleId)
    requires id.CancelRule? || id.ProcedureRule?
    ensures Fits(RuleOf(id))
  {
    hide FlowFits;
  }

  lemma ResumeRowsFit(r: ResumeId)
    ensures Fits(ResumeTable(r))
  {
    hide FlowFits;
  }

  lemma IntegrityRowsFit(id: RuleId)
    requires id.DetectionRule? || id.IncidentRule? || id.BlockRule?
    ensures Fits(RuleOf(id))
  {
    hide ResumeFits;
    hide AnswersAwaited;
  }

  lemma RowsFit(id: RuleId)
    ensures Fits(RuleOf(id))
  {
    hide Fits;
    match id
    case WorkflowRule(w) =>
      if ReviewSide(w) { ReviewRowsFit(w); } else { FixRowsFit(w); }
    case DecisionRule(d) =>
      if VerdictSide(d) { VerdictRowsFit(d); } else { DecisionRowsFit(d); }
    case CiRule(ci) =>
      if CheckSide(ci) { CheckRowsFit(ci); } else { ReportRowsFit(ci); }
    case GateRule(g) => GateRowsFit(g);
    case MergeRule(m) =>
      if m.M35? || m.M37? || m.M38? || m.M39? || m.M40? { OutcomeRowsFit(m); } else { MergeRowsFit(m); }
    case ProducedRule(p) => ProducedRowsFit(p);
    case InputRule(u) => InputRowsFit(u);
    case CancelRule(_) => CancelRowsFit(id);
    case ProcedureRule(_, _) => CancelRowsFit(id);
    case ResumeRule(r) => ResumeRowsFit(r);
    case _ => IntegrityRowsFit(id);
  }

  lemma DecidedByRow(id: RuleId, s: MachineState, e: Event)
    requires Enabled(id, s, e) && Fits(RuleOf(id))
    ensures s.procedure.Normal? ==> Decided(s, e) == RowDecides(RuleOf(id).guard)
    ensures s.procedure.Normal? <==> RuleOf(id).guard.procedure == NormalKind
  {
    hide RuleOf;
    hide FlowFits;
    hide MergeFits;
    hide ResumeFits;
    hide DecidedBy;
  }

  // ---- one effect ----

  lemma AdvanceGoesOn(f: FlowEffect, s: MachineState, e: Event, task: Task)
    requires f.Advance? && Belongs(Decided(s, e), if f.to.None? then s.state else f.to.value, f.awaitingAfter)
    requires ShapeInv(s) && FlowReady(f, s, e)
    ensures GoesOn(s, e, task, ApplyFlow(f, s, e))
  {
    hide Decided;
    hide Answers;
    hide AwaitedIn;
    hide Registered;
    hide Canon;
  }

  lemma ProduceGoesOn(f: FlowEffect, guard: Match, s: MachineState, e: Event, task: Task)
    requires f.Produce? && FlowFits(f, guard)
    requires StateAllowed(guard.states, s.state) && AwaitingAllowed(guard.awaiting, s.awaiting)
    requires e.RecordProduced? && guard.recordKind == Some(e.kind) && Decided(s, e).None?
    requires ShapeInv(s) && FlowReady(f, s, e) && Doing(s, task)
    ensures GoesOn(s, e, task, ApplyFlow(f, s, e))
  {
    hide Decided;
    hide Answers;
    hide AwaitedIn;
    hide StateOf;
    hide RowDecides;
    hide Registered;
    hide Canon;
  }

  lemma StopGoesOn(f: FlowEffect, s: MachineState, e: Event, task: Task)
    requires f.ProgressStop?
    requires Belongs(Decided(s, e), ContinuationOf(f.continuation).resumeState, ContinuationOf(f.continuation).awaiting)
    requires ShapeInv(s) && FlowReady(f, s, e)
    ensures GoesOn(s, e, task, ApplyFlow(f, s, e))
  {
    hide Decided;
    hide ContinuationOf;
    hide Answers;
    hide AwaitedIn;
    hide StateOf;
    hide Registered;
    hide Canon;
  }

  lemma PermissionGoesOn(f: FlowEffect, s: MachineState, e: Event, task: Task)
    requires f.PermissionStop? || f.PermissionResume? || f.DependencyStop?
    requires Decided(s, e).None? && (f.PermissionStop? ==> s.state == f.returnTo)
    requires f.DependencyStop? ==> s.state == ApplyingFixes
    requires ShapeInv(s) && FlowReady(f, s, e) && Doing(s, task)
    ensures GoesOn(s, e, task, ApplyFlow(f, s, e))
  {
    hide Decided;
    hide Answers;
    hide Registered;
    hide Canon;
  }

  lemma FreshGoesOn(s: MachineState, e: Event, task: Task)
    requires Decided(s, e) == Some(ReviewChanges)
    ensures GoesOn(s, e, task, ApplyMerge(FreshReview, s, e))
  {
    hide Decided;
  }

  lemma OutcomeGoesOn(m: MergeEffect, s: MachineState, e: Event, task: Task)
    requires m.MergeStep?
    requires ShapeInv(s) && MergeReady(m, s, e) && Doing(s, task) && MergeFits(m, Decided(s, e))
    ensures GoesOn(s, e, task, ApplyMerge(m, s, e))
  {
    hide Decided;
    hide Answers;
    hide StateOf;
    hide AwaitedIn;
    hide Registered;
    hide Canon;
  }

  lemma GateGoesOn(m: MergeEffect, s: MachineState, e: Event, task: Task)
    requires m.ToMerging? || m.ReturnToGate?
    requires ShapeInv(s) && MergeReady(m, s, e) && Doing(s, task) && MergeFits(m, Decided(s, e))
    ensures GoesOn(s, e, task, ApplyMerge(m, s, e))
  {
    hide Decided;
    hide Answers;
    hide Registered;
    hide Canon;
  }

  lemma QueryGoesOn(s: MachineState, e: Event, task: Task)
    requires ShapeInv(s) && NormalIn(s, Merging) && Doing(s, task) && Decided(s, e) == Some(LearnCancelled)
    ensures GoesOn(s, e, task, ApplyMerge(CancelQuery, s, e))
  {
    hide Decided;
    hide Answers;
    hide Registered;
    hide Canon;
  }

  lemma CancelGoesOn(m: MergeEffect, s: MachineState, e: Event, task: Task)
    requires m.StartCancel? || m.FinishCancel? || m.CancelToIncident? || m.FailToRecovery? || m.Stay?
    requires ShapeInv(s) && MergeReady(m, s, e) && Doing(s, task)
    requires s.procedure.Normal? ==> MergeFits(m, Decided(s, e))
    ensures GoesOn(s, e, task, ApplyMerge(m, s, e))
  {
    hide Decided;
    hide Answers;
    hide StateOf;
    hide AwaitedIn;
    hide Registered;
    hide Canon;
  }

  lemma ResumeGoesOn(r: ResumeEffect, s: MachineState, e: Event, task: Task)
    requires ShapeInv(s) && ResumeReady(r, s, e) && Doing(s, task)
    requires s.procedure.Normal? ==> ResumeFits(r, Decided(s, e))
    ensures GoesOn(s, e, task, ApplyResume(r, s, e))
  {
    hide Decided;
    hide Answers;
    hide StateOf;
    hide AwaitedIn;
    hide Registered;
    hide Canon;
  }

  lemma TasksElsewhere(task: Task)
    ensures StateOf(task) != AwaitingToolPermission
  {}

  lemma IntegrityGoesOn(i: IntegrityEffect, s: MachineState, e: Event, task: Task)
    requires ShapeInv(s) && IntegrityReady(i, s, e) && Doing(s, task)
    requires s.procedure.Normal? && (i.Replay? || i.DetectUnion?) ==> Decided(s, e).None?
    ensures GoesOn(s, e, task, ApplyIntegrity(i, s, e))
  {
    TasksElsewhere(task);
    hide Decided;
    hide Answers;
    hide StateOf;
    hide AwaitedIn;
    hide Registered;
    hide Canon;
  }
}
