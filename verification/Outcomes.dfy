/** What each accepted answer leads to, down to the whole next state. */
module Outcomes {
  import opened Vocabulary
  import opened Violations
  import opened MachineStates
  import opened Events
  import opened Guards
  import opened Rules
  import opened Machine
  import opened Readiness
  import opened Invariant
  import opened Runs
  import opened Driving
  import opened Tasks
  import opened TaskRuns
  import opened UserDecisions

  /** Questions and resubmitted requests use up clarification turns, everything else review rounds. */
  function BudgetFor(name: VerifiedName): Budget {
    if name == ClarificationQuestionVerified || name == VerdictResubmitVerified then ClarificationTurn else ReviewRound
  }

  predicate Reports(name: VerifiedName) {
    || name == ReviewBlockingVerified || name == FixResultVerified || name == ClarificationQuestionVerified
    || name == VerdictResubmitVerified || name == CiCodeFailureVerified
  }

  /** The report says that the run may not go on. */
  predicate Limited(e: Event) {
    e.Verified? && e.detail.WithReport? && e.detail.report.progress != Continue
  }

  /** A record that decides on work outside the merge. */
  predicate Settles(name: VerifiedName) {
    && name != ExternalDependencyVerified && name != ToolPermissionBlocked && name != MergeApprovalVerified
    && name != UserCancelVerified && name != IntegrityIncidentVerified
  }

  predicate Reissues(c: BlockedContinuation) {
    c.awaiting.Some? && Asked(c.commands) == AwaitingCommands(c.awaiting.value)
  }

  /** A row for a deciding record stops exactly if its progress is bounded, on the budget of the record. */
  predicate SettlingRow(rule: Rule) {
    rule.guard.event.VerifiedType? && Settles(rule.guard.event.name) ==>
      && rule.effect.Flow? && rule.guard.procedure == NormalKind
      && var name := rule.guard.event.name;
      && var f := rule.effect.f;
      && (Reports(name) <==> rule.guard.progress != AnyProgress)
      && if rule.guard.progress == Bounded
         then f.ProgressStop? && f.budget == BudgetFor(name) && Reissues(ContinuationOf(f.continuation))
         else f.Advance? && (f.awaitingAfter.Some? ==> Asked(f.commands) == AwaitingCommands(f.awaitingAfter.value))
  }

  lemma ReviewSettles(w: WorkflowId)
    requires ReviewSide(w)
    ensures SettlingRow(WorkflowTable(w))
  {}

  lemma FixSettles(w: WorkflowId)
    requires !ReviewSide(w)
    ensures SettlingRow(WorkflowTable(w))
  {}

  lemma VerdictSettles(d: DecisionId)
    requires VerdictSide(d)
    ensures SettlingRow(DecisionTable(d))
  {}

  lemma DecisionSettles(d: DecisionId)
    requires !VerdictSide(d)
    ensures SettlingRow(DecisionTable(d))
  {}

  lemma CiSettles(ci: CiId)
    ensures SettlingRow(CiTable(ci))
  {}

  lemma GateSettles(g: GateId)
    ensures SettlingRow(GateTable(g))
  {}

  lemma OtherSettles(id: RuleId)
    requires !id.WorkflowRule? && !id.DecisionRule? && !id.CiRule? && !id.GateRule?
    ensures SettlingRow(RuleOf(id))
  {}

  lemma RowsSettle(id: RuleId)
    ensures SettlingRow(RuleOf(id))
  {
    hide SettlingRow;
    match id
    case WorkflowRule(w) =>
      if ReviewSide(w) { ReviewSettles(w); } else { FixSettles(w); }
    case DecisionRule(d) =>
      if VerdictSide(d) { VerdictSettles(d); } else { DecisionSettles(d); }
    case CiRule(ci) => CiSettles(ci);
    case GateRule(g) => GateSettles(g);
    case _ => OtherSettles(id);
  }

  lemma EnabledProgress(id: RuleId, s: MachineState, e: Event)
    requires Enabled(id, s, e) && e.Verified? && Events.Constructible(e)
    requires Reports(e.name) <==> RuleOf(id).guard.progress != AnyProgress
    ensures Reports(e.name) <==> e.detail.WithReport?
    ensures RuleOf(id).guard.progress == Bounded <==> Limited(e)
  {
    hide RuleOf;
    hide StateAllowed;
    hide AwaitingAllowed;
    hide PendingAllowed;
    hide PendingKey;
    hide BindingKey;
    hide CoverageKey;
    hide BlockAllowed;
    hide ExpectedKind;
  }

  /** A dependency that is blocked on: the head is part of its record. */
  predicate Depends(e: Event) {
    e.Verified? && e.name == ExternalDependencyVerified && e.detail.WithHead?
  }

  /** The block carries exactly what the limited report or the dependency said. */
  predicate Raises(e: Event, b: Block) {
    match b
    case ProgressBlock(binding, head, _, reason, budget, snapshot, fingerprint) =>
      && Limited(e) && binding == e.evidence.binding && head == e.detail.report.head
      && reason == e.detail.report.progress && budget == BudgetFor(e.name)
      && snapshot == e.detail.report.snapshot && fingerprint == e.detail.report.fingerprint
    case ExternalDependencyBlock(binding, head, _, evidence) =>
      Depends(e) && binding == e.evidence.binding && head == e.detail.head && evidence == e.evidence
    case RecordIntegrityBlock(_) => false
  }

  /** The block of a limited report, with the work it keeps for the resolution. */
  predicate BlocksOn(b: Block, e: Event, task: Task) {
    && b.ProgressBlock? && Raises(e, b)
    && b.continuation.resumeState == StateOf(task) && b.continuation.awaiting == AwaitedIn(task)
    && Reissues(b.continuation)
  }

  lemma AdvanceLeads(f: FlowEffect, s: MachineState, e: Event, task: Task)
    requires f.Advance? && ShapeInv(s) && FlowReady(f, s, e)
    requires Belongs(Some(task), if f.to.None? then s.state else f.to.value, f.awaitingAfter)
    ensures ApplyFlow(f, s, e) == Next(MachineState(StateOf(task), awaiting := AwaitedIn(task)), f.commands)
  {
    hide StateOf;
    hide AwaitedIn;
    hide Canon;
    hide Registered;
  }

  lemma StopLeads(f: FlowEffect, s: MachineState, e: Event, task: Task)
    requires f.ProgressStop? && ShapeInv(s) && FlowReady(f, s, e) && f.budget == BudgetFor(e.name)
    requires Reissues(ContinuationOf(f.continuation))
    requires Belongs(Some(task), ContinuationOf(f.continuation).resumeState, ContinuationOf(f.continuation).awaiting)
    ensures var a := ApplyFlow(f, s, e);
            && a.Next? && a.state.block.Some? && BlocksOn(a.state.block.value, e, task)
            && a.state == MachineState(Blocked, block := a.state.block) && a.commands == f.entry
  {
    hide StateOf;
    hide AwaitedIn;
    hide BudgetFor;
    hide ContinuationOf;
    hide Reissues;
    hide Canon;
    hide Registered;
  }

  /** A verified record is followed by the work it decides on and nothing else, or by the block its report demands. */
  lemma AnswerLeads(t: Step, task: Task)
    requires Legal(t) && Inv(t.before) && t.event.Verified? && Settles(t.event.name)
    requires DecidedBy(VerifiedType(t.event.name)) == Some(task)
    ensures Limited(t.event) ==>
              && t.after.block.Some? && BlocksOn(t.after.block.value, t.event, task)
              && t.after == MachineState(Blocked, block := t.after.block)
    ensures !Limited(t.event) ==>
              && t.after == MachineState(StateOf(task), awaiting := AwaitedIn(task))
              && (AwaitedIn(task).Some? ==> Asked(t.commands) == AwaitingCommands(AwaitedIn(task).value))
  {
    hide Transition;
    hide ShapeInv;
    hide CanonicalSets;
    hide Enabled;
    hide RuleOf;
    hide Reports;
    hide Limited;
    hide BlocksOn;
    hide Belongs;
    hide FlowReady;
    hide Detects;
    assert t.event.name != UserCancelVerified;
    hide DecidedBy;
    var id := StepEffect(t);
    var rule := RuleOf(id);
    EnabledGuard(id, t.before, t.event);
    RowsSettle(id);
    RowsFit(id);
    EnabledProgress(id, t.before, t.event);
    assert RowDecides(rule.guard) == Some(task);
    if Limited(t.event) {
      StopLeads(rule.effect.f, t.before, t.event, task);
    } else {
      AdvanceLeads(rule.effect.f, t.before, t.event, task);
    }
  }

  // ---- signals ----

  /** A signal that decides on work wherever it is accepted; an unexecuted merge is told apart below. */
  predicate Steers(signal: SignalName) {
    DecidedBy(SignalType(signal)).Some? && signal != MergeNotExecutedConfirmed
  }

  /** Only the start of fixing asks for nothing, and a merge is executed instead of asked about. */
  predicate Orders(signal: SignalName, task: Task, commands: seq<Command>) {
    match signal
    case FixStarted => commands == []
    case MergePreconditionsOk => commands == [ExecuteMerge]
    case _ => AwaitedIn(task).Some? ==> Asked(commands) == AwaitingCommands(AwaitedIn(task).value)
  }

  predicate Restates(signal: SignalName) {
    signal != FixStarted && signal != MergePreconditionsOk
  }

  predicate SteeringEffect(rule: Rule, signal: SignalName)
    requires Steers(signal)
  {
    && rule.guard.procedure == NormalKind
    && match rule.effect
       case Flow(Advance(_, _, commands)) =>
         Orders(signal, DecidedBy(SignalType(signal)).value, commands)
       case Merge(MergeStep(to, awaitingAfter, commands)) =>
         && Orders(signal, DecidedBy(SignalType(signal)).value, commands)
         && rule.guard.pending == WhenAbsent && rule.guard.awaiting == Exactly(MergePreconditions)
         && (to.None? || !Terminal(to.value))
       case Merge(FreshReview) => Restates(signal)
       case Merge(ReturnToGate) => Restates(signal)
       case Resume(RetryAwaiting(_, awaiting)) =>
         && Restates(signal)
         && (rule.guard.awaiting == Nothing || (rule.guard.awaiting == NothingOrCi && awaiting == CiResult))
       case _ => false
  }

  predicate SteeringRow(rule: Rule) {
    rule.guard.event.SignalType? && Steers(rule.guard.event.signal) && rule.guard.procedure == NormalKind ==>
      SteeringEffect(rule, rule.guard.event.signal)
  }

  lemma WorkflowSteers(w: WorkflowId)
    ensures SteeringRow(WorkflowTable(w))
  {}

  lemma CiSteers(ci: CiId)
    ensures SteeringRow(CiTable(ci))
  {}

  lemma DecisionSteers(d: DecisionId, g: GateId)
    ensures SteeringRow(DecisionTable(d)) && SteeringRow(GateTable(g))
  {}

  lemma MergeSteers(m: MergeId)
    ensures SteeringRow(MergeTable(m))
  {}

  lemma ResumeSteers(r: ResumeId)
    ensures SteeringRow(ResumeTable(r))
  {}

  lemma OtherSteers(id: RuleId)
    requires !id.WorkflowRule? && !id.DecisionRule? && !id.CiRule? && !id.GateRule? && !id.MergeRule? && !id.ResumeRule?
    ensures SteeringRow(RuleOf(id))
  {
    hide SteeringEffect;
  }

  lemma RowsSteer(id: RuleId)
    ensures SteeringRow(RuleOf(id))
  {
    hide SteeringRow;
    match id
    case WorkflowRule(w) => WorkflowSteers(w);
    case CiRule(ci) => CiSteers(ci);
    case DecisionRule(d) => DecisionSteers(d, T33);
    case GateRule(g) => DecisionSteers(T14, g);
    case MergeRule(m) => MergeSteers(m);
    case ResumeRule(r) => ResumeSteers(r);
    case _ => OtherSteers(id);
  }

  lemma FreshLeads(s: MachineState, e: Event)
    ensures ApplyMerge(FreshReview, s, e).Next?
    ensures ApplyMerge(FreshReview, s, e).state ==
            MachineState(StateOf(ReviewChanges), awaiting := AwaitedIn(ReviewChanges))
    ensures Asked(ApplyMerge(FreshReview, s, e).commands) == AwaitingCommands(AwaitedIn(ReviewChanges).value)
  {}

  lemma MergeStepLeads(m: MergeEffect, s: MachineState, e: Event, task: Task)
    requires ShapeInv(s) && MergeReady(m, s, e) && MergeFits(m, Some(task))
    requires m.ReturnToGate? || (m.MergeStep? && s.pending.None? && s.awaiting == Some(MergePreconditions)
                                 && (m.to.None? || !Terminal(m.to.value)))
    ensures ApplyMerge(m, s, e).Next?
    ensures ApplyMerge(m, s, e).state == MachineState(StateOf(task), awaiting := AwaitedIn(task))
    ensures m.MergeStep? ==> ApplyMerge(m, s, e).commands == m.commands
    ensures m.ReturnToGate? && AwaitedIn(task).Some? ==>
              Asked(ApplyMerge(m, s, e).commands) == AwaitingCommands(AwaitedIn(task).value)
  {
    hide Canon;
    hide Registered;
  }

  lemma RetryLeads(r: ResumeEffect, s: MachineState, e: Event, task: Task)
    requires r.RetryAwaiting? && ShapeInv(s) && ResumeReady(r, s, e) && ResumeFits(r, Some(task))
    requires s.awaiting.None? || s.awaiting == Some(r.awaiting)
    ensures AwaitedIn(task).Some?
    ensures ApplyResume(r, s, e) ==
            Next(MachineState(StateOf(task), awaiting := AwaitedIn(task)), AwaitingCommands(AwaitedIn(task).value))
    ensures Asked(AwaitingCommands(AwaitedIn(task).value)) == AwaitingCommands(AwaitedIn(task).value)
  {
    hide Canon;
    hide Registered;
  }

  /** Outside a procedure, a signal is followed by the work it decides on and nothing else. */
  lemma SignalLeads(t: Step, task: Task)
    requires Legal(t) && Inv(t.before) && t.before.procedure.Normal? && t.event.Signal? && Steers(t.event.signal)
    requires DecidedBy(SignalType(t.event.signal)) == Some(task)
    ensures t.after == MachineState(StateOf(task), awaiting := AwaitedIn(task))
    ensures Orders(t.event.signal, task, t.commands)
  {
    hide Transition;
    hide ShapeInv;
    hide CanonicalSets;
    hide Enabled;
    hide RuleOf;
    hide Belongs;
    hide FlowReady;
    hide MergeReady;
    hide ResumeReady;
    hide Detects;
    var id := StepEffect(t);
    var rule := RuleOf(id);
    EnabledGuard(id, t.before, t.event);
    RowsSteer(id);
    RowsFit(id);
    assert RowDecides(rule.guard) == Some(task);
    hide DecidedBy;
    match rule.effect
    case Flow(f) => AdvanceLeads(f, t.before, t.event, task);
    case Merge(m) =>
      if m.FreshReview? { FreshLeads(t.before, t.event); } else { MergeStepLeads(m, t.before, t.event, task); }
    case Resume(r) => RetryLeads(r, t.before, t.event, task);
    case Integrity(_) => assert false;
  }

  // ---- the merge ----

  lemma CandidateActs(t: Step)
    requires Legal(t)
    ensures Enabled(Candidate(t.before, t.event), t.before, t.event)
    ensures Apply(RuleOf(Candidate(t.before, t.event)).effect, t.before, t.event) == Next(t.after, t.commands)
  {
    hide Enabled;
    hide Candidate;
    hide RuleOf;
    hide Apply;
    hide FirstFailure;
  }

  lemma ApprovalLeads(t: Step)
    requires Legal(t) && Inv(t.before) && Accepts(t, MergeApprovalVerified)
    ensures t.after == MachineState(Merging, awaiting := Some(MergePreconditions))
    ensures t.commands == [VerifyMergePreconditions]
  {
    hide Transition;
    hide CanonicalSets;
    hide Registered;
    hide BindingKey;
    hide CoverageKey;
    hide PendingKey;
    CandidateActs(t);
  }

  /** Where a merge ends up once its outcome is known, by the work it was learnt during. */
  function Settled(s: MachineState, signal: SignalName, task: Task): MachineState {
    match signal
    case MergeConfirmed =>
      if s.deferred == [] then MachineState(Merged)
      else MachineState(Merging, procedure := RecordingIncident(TargetMerged, None), deferred := s.deferred)
    case MergeNotExecutedConfirmed =>
      if task == LearnCancelled then
        (if s.deferred == [] then MachineState(Cancelled)
         else MachineState(Merging, procedure := RecordingIncident(TargetCancelled, None), deferred := s.deferred))
      else if s.deferred == [] then MachineState(MergeFailed)
      else MachineState(Blocked, block := Some(RecordIntegrityBlock(s.deferred)))
    case _ => if s.deferred == [] then MachineState(MergeFailed) else s
  }

  predicate ReportsOutcome(e: Event) {
    e == Signal(MergeConfirmed) || e == Signal(MergeNotExecutedConfirmed) || e == Signal(MergeOutcomeUnknown)
  }

  /** The effect by which an outcome is taken up. */
  function OutcomeEffect(s: MachineState, signal: SignalName): Effect {
    var cancelled := s.awaiting == Some(MergeOutcomeCancel);
    match signal
    case MergeConfirmed =>
      if s.deferred == [] then Merge(MergeStep(Some(Merged), None, [])) else Integrity(OutcomeToIncident(TargetMerged))
    case MergeNotExecutedConfirmed =>
      if s.deferred != [] then Integrity(if cancelled then OutcomeToIncident(TargetCancelled) else OutcomeToBlock)
      else Merge(MergeStep(Some(if cancelled then Cancelled else MergeFailed), None, []))
    case _ =>
      Merge(if s.deferred == [] then MergeStep(Some(MergeFailed), None, []) else Stay([QueryMergeOutcome]))
  }

  lemma OutcomeRule(t: Step)
    requires Legal(t) && ReportsOutcome(t.event) && t.before.procedure.Normal?
    ensures t.before.state == Merging && t.before.pending.None? && t.before.awaiting.Some?
    ensures MergeOutcome(t.before.awaiting.value)
    ensures Apply(OutcomeEffect(t.before, t.event.signal), t.before, t.event) == Next(t.after, t.commands)
  {
    hide Transition;
    hide Apply;
    hide BindingKey;
    hide CoverageKey;
    hide VerifiedCandidate;
    hide ProducedCandidate;
    hide DetectionCandidate;
    hide ProgressKey;
    hide BlockKindKey;
    hide BlockReasonKey;
    hide Detects;
    CandidateActs(t);
  }

  /** An outcome merges, cancels or fails the run; detections made meanwhile are recorded or block it. */
  lemma OutcomeSettles(t: Step, task: Task)
    requires Legal(t) && Inv(t.before) && Doing(t.before, task) && t.before.procedure.Normal? && ReportsOutcome(t.event)
    ensures t.after == Settled(t.before, t.event.signal, task)
    ensures task == LearnMerged || task == LearnCancelled || task == LearnFailed
  {
    hide Transition;
    hide CanonicalSets;
    hide Registered;
    hide Answers;
    OutcomeRule(t);
  }
}
