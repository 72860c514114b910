/** What holds of the state and the event whenever a rule with a given effect is enabled. */
module Readiness {
  import opened Vocabulary
  import opened Violations
  import opened MachineStates
  import opened Events
  import opened Guards
  import opened Rules
  import opened Machine

  /** A state whose only companions are an awaited response and a pending record. */
  predicate Plain(s: State) {
    !Terminal(s) && s != Blocked && s != Failed && s != AwaitingToolPermission && s != Merging
  }

  predicate FromPlain(s: MachineState) {
    s.procedure.Normal? && Plain(s.state)
  }

  predicate NormalIn(s: MachineState, state: State) {
    s.procedure.Normal? && s.state == state
  }

  predicate FlowReady(f: FlowEffect, s: MachineState, e: Event) {
    match f
    case Advance(to, awaitingAfter, _) =>
      && FromPlain(s)
      && var target := if to.None? then s.state else to.value;
      && Plain(target)
      && (awaitingAfter.Some? ==> AtHome(awaitingAfter.value, target))
      && (Active(target) ==> awaitingAfter.Some?)
    case Produce(keepAwaiting) =>
      && e.RecordProduced? && s.pending.None? && NonTerminal(s.state)
      && (if s.procedure.RecordingIncident? then e.kind == IntegrityIncident
          else
            && s.procedure.Normal? && e.kind != IntegrityIncident
            && ((!keepAwaiting && Plain(s.state)) || (keepAwaiting && e.kind == UserCancel)
                || (e.kind == BlockIntervention && s.state == Blocked)))
    case ProgressStop(_, _, _) =>
      FromPlain(s) && e.Verified? && e.detail.WithReport? && e.detail.report.progress != Continue
    case PermissionStop(returnTo) => FromPlain(s) && (returnTo == RunningReview || returnTo == ApplyingFixes)
    case PermissionResume => NormalIn(s, AwaitingToolPermission) && s.pending.None?
    case DependencyStop => FromPlain(s) && e.Verified? && e.detail.WithHead?
  }

  predicate MergeReady(m: MergeEffect, s: MachineState, e: Event) {
    match m
    case ToMerging => NormalIn(s, ReadyForHumanMerge) && TypeOf(e) == VerifiedType(MergeApprovalVerified)
    case MergeStep(to, awaitingAfter, commands) =>
      && NormalIn(s, Merging) && s.awaiting.Some?
      && (commands == [] || commands == [QueryMergeOutcome]
          || (commands == [ExecuteMerge] && to.None? && s.awaiting == Some(MergePreconditions)
              && e == Signal(MergePreconditionsOk)))
      && (match to
          case None =>
            && awaitingAfter.Some? && MergeOutcome(awaitingAfter.value) && commands != []
            && (commands == [ExecuteMerge] ==> awaitingAfter == Some(MergeOutcomeExecute))
          case Some(target) =>
            || (target == Merged && s.deferred == [] && e == Signal(MergeConfirmed))
            || (target == Cancelled && s.deferred == [])
            || (target == MergeFailed && awaitingAfter.None? && s.pending.None?
                && (s.deferred == [] || s.awaiting == Some(MergePreconditions))))
    case FreshReview => s.procedure.Normal? && FreshReviewReady(s, e)
    case CancelQuery => NormalIn(s, Merging)
    case ReturnToGate => NormalIn(s, MergeFailed) && s.pending.None?
    case StartCancel(_) =>
      s.procedure.Normal? && NonTerminal(s.state) && s.state != Merging && e.Verified? && e.name == UserCancelVerified
    case FinishCancel =>
      && s.deferred == [] && NonTerminal(s.state) && s.state != Merging && e.CancellationCompleted?
      && (if s.procedure.Cancelling? then e.attempt == Some(s.procedure.attempt)
          else s.procedure.Normal? && e.emergency.Some?)
    case CancelToIncident =>
      && s.procedure.Cancelling? && NonTerminal(s.state) && s.deferred != []
      && e.CancellationCompleted? && e.attempt == Some(s.procedure.attempt)
    case FailToRecovery => s.procedure.Normal? && Active(s.state) && s.state != Merging
    case Stay(commands) =>
      s.procedure.Normal? && NonTerminal(s.state) && (commands == [] || commands == [QueryMergeOutcome])
  }

  predicate IntegrityBlocked(s: MachineState) {
    s.block.Some? && s.block.value.RecordIntegrityBlock?
  }

  /** A fresh review starts from a state without violations, or by evidence naming the exact violation set. */
  predicate FreshReviewReady(s: MachineState, e: Event) {
    || (s.state == Merging && s.awaiting == Some(MergePreconditions))
    || s.state == MergeFailed || s.state == Failed
    || (s.state == Blocked && !IntegrityBlocked(s))
    || (&& s.state == Blocked && IntegrityBlocked(s)
        && e.BlockResolved? && (e.route == IntegrityRestored || e.route == IntegritySalvaged)
        && e.resolution.violationBindings == Some(Bindings(s.block.value.violations)))
  }

  predicate ResumeReady(r: ResumeEffect, s: MachineState, e: Event) {
    match r
    case ReissueHalt => s.procedure.Cancelling? || s.procedure.HaltingForBlock?
    case ReissueIncident => s.procedure.RecordingIncident?
    case ReissuePersist => s.procedure.RecordingIncident? && s.pending.Some?
    case ResumePending => s.procedure.Normal? && s.pending.Some?
    case ResumeAwaitingFailed => NormalIn(s, Failed) && s.pending.None? && s.awaiting.Some? && s.recoveryTo.Some?
    case ResumeAwaitingLive => s.procedure.Normal? && s.awaiting.Some?
    case ResumeDrive => NormalIn(s, Failed) && s.pending.None? && s.awaiting.None? && s.recoveryTo.Some?
    case RetryAwaiting(state, awaiting) =>
      && FromPlain(s) && s.pending.None?
      && ((s.state == WaitingCi && state == WaitingCi && awaiting == CiResult)
          || (s.state == ReportFailed && state == GeneratingReport && awaiting == Report))
  }

  predicate IntegrityReady(i: IntegrityEffect, s: MachineState, e: Event) {
    match i
    case DetectUnion(extra) =>
      && e.ViolationDetected? && NonTerminal(s.state)
      && (if s.procedure.Normal? then
            s.state == Merging && s.awaiting.Some? && MergeOutcome(s.awaiting.value) && extra == [QueryMergeOutcome]
          else (s.procedure.RecordingIncident? || s.procedure.Cancelling?) && extra == [])
    case DetectBlock =>
      && e.ViolationDetected? && s.procedure.Normal? && NonTerminal(s.state)
      && (s.state == Blocked ==> !IntegrityBlocked(s))
          && (s.state == Merging ==> s.awaiting == Some(MergePreconditions))
    case DetectHalt => e.ViolationDetected? && s.procedure.Normal? && Active(s.state) && s.state != Merging
    case DetectHaltUnion => e.ViolationDetected? && s.procedure.HaltingForBlock?
    case DetectBlockedUnion => e.ViolationDetected? && NormalIn(s, Blocked) && IntegrityBlocked(s)
    case IncidentComplete => s.procedure.RecordingIncident? && RecordsIncident(e) && Covers(s, e.detail.recorded)
    case IncidentRemainder => s.procedure.RecordingIncident? && RecordsIncident(e) && !Covers(s, e.detail.recorded)
    case OutcomeToIncident(target) =>
      && NormalIn(s, Merging) && s.pending.None? && s.deferred != []
      && (target == TargetMerged <==> e == Signal(MergeConfirmed))
    case OutcomeToBlock => NormalIn(s, Merging) && s.deferred != []
    case HaltComplete => s.procedure.HaltingForBlock? && e == BlockHaltCompleted(s.procedure.attempt)
    case Replay =>
      && NormalIn(s, Blocked) && s.block.Some? && !IntegrityBlocked(s)
      && e.BlockResolved? && ResolutionMatches(s, e.resolution)
  }

  predicate RecordsIncident(e: Event) {
    e.Verified? && e.name == IntegrityIncidentVerified && e.detail.WithRecorded?
  }

  predicate Ready(x: Effect, s: MachineState, e: Event) {
    match x
    case Flow(f) => FlowReady(f, s, e)
    case Merge(m) => MergeReady(m, s, e)
    case Resume(r) => ResumeReady(r, s, e)
    case Integrity(i) => IntegrityReady(i, s, e)
  }

  lemma ProducedReady(p: ProducedId, s: MachineState, e: Event)
    requires Events.Constructible(e) && Guarded(ProducedTable(p), s, e)
    ensures Ready(ProducedTable(p).effect, s, e)
  {
    hide MergeReady;
    hide ResumeReady;
    hide IntegrityReady;
    hide BindingKey;
    hide CoverageKey;
  }

  lemma InputReady(u: InputId, s: MachineState, e: Event)
    requires Events.Constructible(e) && Guarded(InputTable(u), s, e)
    ensures Ready(InputTable(u).effect, s, e)
  {
    hide MergeReady;
    hide ResumeReady;
    hide IntegrityReady;
    hide BindingKey;
    hide CoverageKey;
  }

  lemma ReviewRulesReady(w: WorkflowId, s: MachineState, e: Event)
    requires w.T03? || w.TB03? || w.T04? || w.T05?
    requires Events.Constructible(e) && Guarded(WorkflowTable(w), s, e)
    ensures Ready(WorkflowTable(w).effect, s, e)
  {
    hide MergeReady;
    hide ResumeReady;
    hide IntegrityReady;
    hide BindingKey;
    hide CoverageKey;
  }

  lemma QuestionRulesReady(w: WorkflowId, s: MachineState, e: Event)
    requires w.T06? || w.T07? || w.TB07? || w.T08a?
    requires Events.Constructible(e) && Guarded(WorkflowTable(w), s, e)
    ensures Ready(WorkflowTable(w).effect, s, e)
  {
    hide MergeReady;
    hide ResumeReady;
    hide IntegrityReady;
    hide BindingKey;
    hide CoverageKey;
  }

  lemma AnswerRulesReady(w: WorkflowId, s: MachineState, e: Event)
    requires w.T08b? || w.T09? || w.T10? || w.T11?
    requires Events.Constructible(e) && Guarded(WorkflowTable(w), s, e)
    ensures Ready(WorkflowTable(w).effect, s, e)
  {
    hide MergeReady;
    hide ResumeReady;
    hide IntegrityReady;
    hide BindingKey;
    hide CoverageKey;
  }

  lemma ApplyingRulesReady(w: WorkflowId, s: MachineState, e: Event)
    requires w.TB11? || w.T12? || w.T13?
    requires Events.Constructible(e) && Guarded(WorkflowTable(w), s, e)
    ensures Ready(WorkflowTable(w).effect, s, e)
  {
    hide MergeReady;
    hide ResumeReady;
    hide IntegrityReady;
    hide BindingKey;
    hide CoverageKey;
  }

  lemma WorkflowReady(w: WorkflowId, s: MachineState, e: Event)
    requires Events.Constructible(e) && Guarded(WorkflowTable(w), s, e)
    ensures Ready(WorkflowTable(w).effect, s, e)
  {
    if w.T03? || w.TB03? || w.T04? || w.T05? {
      ReviewRulesReady(w, s, e);
    } else if w.T06? || w.T07? || w.TB07? || w.T08a? {
      QuestionRulesReady(w, s, e);
    } else if w.T08b? || w.T09? || w.T10? || w.T11? {
      AnswerRulesReady(w, s, e);
    } else {
      ApplyingRulesReady(w, s, e);
    }
  }

  lemma RequestRulesReady(d: DecisionId, s: MachineState, e: Event)
    requires d.T14? || d.T15? || d.T16? || d.T17?
    requires Events.Constructible(e) && Guarded(DecisionTable(d), s, e)
    ensures Ready(DecisionTable(d).effect, s, e)
  {
    hide MergeReady;
    hide ResumeReady;
    hide IntegrityReady;
    hide BindingKey;
    hide CoverageKey;
  }

  lemma RecordRulesReady(d: DecisionId, s: MachineState, e: Event)
    requires d.T18? || d.T19? || d.TB19? || d.T20a?
    requires Events.Constructible(e) && Guarded(DecisionTable(d), s, e)
    ensures Ready(DecisionTable(d).effect, s, e)
  {
    hide MergeReady;
    hide ResumeReady;
    hide IntegrityReady;
    hide BindingKey;
    hide CoverageKey;
  }

  lemma DecisionExitRulesReady(d: DecisionId, s: MachineState, e: Event)
    requires d.T20b? || d.T21? || d.T43?
    requires Events.Constructible(e) && Guarded(DecisionTable(d), s, e)
    ensures Ready(DecisionTable(d).effect, s, e)
  {
    hide MergeReady;
    hide ResumeReady;
    hide IntegrityReady;
    hide BindingKey;
    hide CoverageKey;
  }

  lemma DecisionReady(d: DecisionId, s: MachineState, e: Event)
    requires Events.Constructible(e) && Guarded(DecisionTable(d), s, e)
    ensures Ready(DecisionTable(d).effect, s, e)
  {
    if d.T14? || d.T15? || d.T16? || d.T17? {
      RequestRulesReady(d, s, e);
    } else if d.T18? || d.T19? || d.TB19? || d.T20a? {
      RecordRulesReady(d, s, e);
    } else {
      DecisionExitRulesReady(d, s, e);
    }
  }

  lemma CiResultRulesReady(ci: CiId, s: MachineState, e: Event)
    requires ci.T22? || ci.T23? || ci.TB23? || ci.T24?
    requires Events.Constructible(e) && Guarded(CiTable(ci), s, e)
    ensures Ready(CiTable(ci).effect, s, e)
  {
    hide MergeReady;
    hide ResumeReady;
    hide IntegrityReady;
    hide BindingKey;
    hide CoverageKey;
  }

  lemma CiStopRulesReady(ci: CiId, s: MachineState, e: Event)
    requires ci.T25? || ci.T26?
    requires Events.Constructible(e) && Guarded(CiTable(ci), s, e)
    ensures Ready(CiTable(ci).effect, s, e)
  {
    hide MergeReady;
    hide ResumeReady;
    hide IntegrityReady;
    hide BindingKey;
    hide CoverageKey;
  }

  lemma ReportRulesReady(ci: CiId, s: MachineState, e: Event)
    requires ci.T27? || ci.T28?
    requires Events.Constructible(e) && Guarded(CiTable(ci), s, e)
    ensures Ready(CiTable(ci).effect, s, e)
  {
    hide MergeReady;
    hide ResumeReady;
    hide IntegrityReady;
    hide BindingKey;
    hide CoverageKey;
  }

  lemma CiReady(ci: CiId, s: MachineState, e: Event)
    requires Events.Constructible(e) && Guarded(CiTable(ci), s, e)
    ensures Ready(CiTable(ci).effect, s, e)
  {
    if ci.T25? || ci.T26? {
      CiStopRulesReady(ci, s, e);
    } else if ci.T27? || ci.T28? {
      ReportRulesReady(ci, s, e);
    } else {
      CiResultRulesReady(ci, s, e);
    }
  }

  lemma GateQuestionRulesReady(g: GateId, s: MachineState, e: Event)
    requires g.T29a? || g.T29b? || g.T30?
    requires Events.Constructible(e) && Guarded(GateTable(g), s, e)
    ensures Ready(GateTable(g).effect, s, e)
  {
    hide MergeReady;
    hide ResumeReady;
    hide IntegrityReady;
    hide BindingKey;
    hide CoverageKey;
  }

  lemma GateChangesRulesReady(g: GateId, s: MachineState, e: Event)
    requires g.T31a? || g.T31b? || g.T33?
    requires Events.Constructible(e) && Guarded(GateTable(g), s, e)
    ensures Ready(GateTable(g).effect, s, e)
  {
    hide MergeReady;
    hide ResumeReady;
    hide IntegrityReady;
    hide BindingKey;
    hide CoverageKey;
  }

  lemma GateReady(g: GateId, s: MachineState, e: Event)
    requires Events.Constructible(e) && Guarded(GateTable(g), s, e)
    ensures Ready(GateTable(g).effect, s, e)
  {
    hide Guarded;
    hide Ready;
    if g.T29a? || g.T29b? || g.T30? {
      GateQuestionRulesReady(g, s, e);
    } else {
      GateChangesRulesReady(g, s, e);
    }
  }

  lemma MergeRuleReady(m: MergeId, s: MachineState, e: Event)
    requires Events.Constructible(e) && Guarded(MergeTable(m), s, e)
    ensures Ready(MergeTable(m).effect, s, e)
  {
    hide FlowReady;
    hide ResumeReady;
    hide IntegrityReady;
    hide BindingKey;
    hide CoverageKey;
  }

  lemma CancelReady(c: CancelId, s: MachineState, e: Event)
    requires Events.Constructible(e) && Guarded(CancelTable(c), s, e)
    ensures Ready(CancelTable(c).effect, s, e)
  {
    hide FlowReady;
    hide ResumeReady;
    hide IntegrityReady;
    hide CoverageKey;
    hide ResolutionMatches;
  }

  lemma ProcedureReady(stage: Stage, t: Trigger, s: MachineState, e: Event)
    requires Events.Constructible(e) && Guarded(ProcedureTable(stage, t), s, e)
    ensures Ready(ProcedureTable(stage, t).effect, s, e)
  {
    hide FlowReady;
    hide MergeReady;
    hide IntegrityReady;
    hide BindingKey;
    hide CoverageKey;
  }

  lemma ResumeRuleReady(r: ResumeId, s: MachineState, e: Event)
    requires Events.Constructible(e) && Guarded(ResumeTable(r), s, e)
    ensures Ready(ResumeTable(r).effect, s, e)
  {
    hide FlowReady;
    hide IntegrityReady;
    hide BindingKey;
    hide CoverageKey;
  }

  lemma DetectionReady(t: DetectionId, s: MachineState, e: Event)
    requires Events.Constructible(e) && Guarded(DetectionTable(t), s, e)
    ensures Ready(DetectionTable(t).effect, s, e)
  {
    hide FlowReady;
    hide MergeReady;
    hide ResumeReady;
    hide BindingKey;
    hide CoverageKey;
  }

  lemma IncidentReady(i: IncidentId, s: MachineState, e: Event)
    requires Events.Constructible(e) && Guarded(IncidentTable(i), s, e)
    ensures Ready(IncidentTable(i).effect, s, e)
  {
    hide ResumeReady;
    hide BindingKey;
  }

  lemma BlockReady(b: BlockId, s: MachineState, e: Event)
    requires Events.Constructible(e) && Guarded(BlockTable(b), s, e)
    ensures Ready(BlockTable(b).effect, s, e)
  {
    hide FlowReady;
    hide ResumeReady;
    hide CoverageKey;
  }

  lemma EnabledReady(id: RuleId, s: MachineState, e: Event)
    requires Events.Constructible(e) && Enabled(id, s, e)
    ensures Ready(RuleOf(id).effect, s, e)
  {
    match id
    case ProducedRule(p) => ProducedReady(p, s, e);
    case InputRule(u) => InputReady(u, s, e);
    case WorkflowRule(w) => WorkflowReady(w, s, e);
    case DecisionRule(d) => DecisionReady(d, s, e);
    case CiRule(ci) => CiReady(ci, s, e);
    case GateRule(g) => GateReady(g, s, e);
    case MergeRule(m) => MergeRuleReady(m, s, e);
    case CancelRule(c) => CancelReady(c, s, e);
    case ProcedureRule(stage, t) => ProcedureReady(stage, t, s, e);
    case ResumeRule(r) => ResumeRuleReady(r, s, e);
    case DetectionRule(t) => DetectionReady(t, s, e);
    case IncidentRule(i) => IncidentReady(i, s, e);
    case BlockRule(b) => BlockReady(b, s, e);
  }

  // ---- detections are matched by the detection effects and nothing else ----

  predicate Detects(x: Effect) {
    && x.Integrity?
    && (x.i.DetectUnion? || x.i.DetectBlock? || x.i.DetectHalt? || x.i.DetectHaltUnion? || x.i.DetectBlockedUnion?)
  }

  predicate DetectionRow(rule: Rule) {
    rule.guard.event == DetectionType <==> Detects(rule.effect)
  }

  lemma WorkflowDetectionRows(w: WorkflowId, d: DecisionId)
    ensures DetectionRow(WorkflowTable(w)) && DetectionRow(DecisionTable(d))
  {}

  lemma GateDetectionRows(ci: CiId, g: GateId, m: MergeId)
    ensures DetectionRow(CiTable(ci)) && DetectionRow(GateTable(g)) && DetectionRow(MergeTable(m))
  {}

  lemma CancelDetectionRows(c: CancelId, stage: Stage, t: Trigger, r: ResumeId)
    ensures DetectionRow(CancelTable(c)) && DetectionRow(ProcedureTable(stage, t)) && DetectionRow(ResumeTable(r))
  {}

  lemma IntegrityDetectionRows(t: DetectionId, i: IncidentId, b: BlockId)
    ensures DetectionRow(DetectionTable(t)) && DetectionRow(IncidentTable(i)) && DetectionRow(BlockTable(b))
  {}

  lemma ProducedDetectionRows(p: ProducedId, u: InputId)
    ensures DetectionRow(ProducedTable(p)) && DetectionRow(InputTable(u))
  {}

  /** A rule has a detection effect exactly when a detection is what it matches. */
  lemma DetectionRows(id: RuleId)
    ensures DetectionRow(RuleOf(id))
  {
    hide DetectionRow;
    match id
    case ProducedRule(p) => ProducedDetectionRows(p, P17);
    case InputRule(u) => ProducedDetectionRows(P01, u);
    case WorkflowRule(w) => WorkflowDetectionRows(w, T14);
    case DecisionRule(d) => WorkflowDetectionRows(T03, d);
    case CiRule(ci) => GateDetectionRows(ci, T33, M34);
    case GateRule(g) => GateDetectionRows(T22, g, M34);
    case MergeRule(m) => GateDetectionRows(T22, T33, m);
    case CancelRule(c) => CancelDetectionRows(c, XC, OnResume, RP);
    case ProcedureRule(stage, t) => CancelDetectionRows(C01, stage, t, RP);
    case ResumeRule(r) => CancelDetectionRows(C01, XC, OnResume, r);
    case DetectionRule(t) => IntegrityDetectionRows(t, IP, BHC);
    case IncidentRule(i) => IntegrityDetectionRows(ID1, i, BHC);
    case BlockRule(b) => IntegrityDetectionRows(ID1, IP, b);
  }

  lemma EnabledDetects(id: RuleId, s: MachineState, e: Event)
    requires Enabled(id, s, e)
    ensures e.ViolationDetected? <==> Detects(RuleOf(id).effect)
  {
    hide RuleOf;
    hide Detects;
    hide DeriveGuardKey;
    hide StateAllowed;
    DetectionRows(id);
  }
}
