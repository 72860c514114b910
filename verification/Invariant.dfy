/** The inductive invariant: the construction checks plus the facts they leave out. */
module Invariant {
  import opened Vocabulary
  import opened Violations
  import opened MachineStates
  import opened Events
  import opened Guards
  import opened Rules
  import opened Machine
  import opened Readiness

  /** A stored continuation is one of the registered ones. */
  predicate ContinuationRegistered(s: MachineState) {
    s.block.Some? && !s.block.value.RecordIntegrityBlock? ==> Registered(s.block.value.continuation)
  }

  /** Outside a procedure, merging always waits for the preconditions or for an outcome. */
  predicate MergingAwaits(s: MachineState) {
    s.procedure.Normal? && s.state == Merging ==>
      s.awaiting.Some? && (MergeOutcome(s.awaiting.value) || s.awaiting.value == MergePreconditions)
  }

  /** Outside a procedure, an active state waits for a response or holds a record to publish. */
  predicate ActiveHasWork(s: MachineState) {
    s.procedure.Normal? && Active(s.state) ==> s.awaiting.Some? || s.pending.Some?
  }

  /** A failed run that can be resumed still holds the work it was interrupted in. */
  predicate RecoveryHasWork(s: MachineState) {
    s.procedure.Normal? && s.recoveryTo.Some? ==>
      s.awaiting.Some? || (s.pending.Some? && s.pending.value.sourceState != Failed)
  }

  /** An incident that completes a merge is recorded while the state is still merging. */
  predicate MergeIncidentInMerging(s: MachineState) {
    s.procedure.RecordingIncident? && s.procedure.target.TargetMerged? ==> s.state == Merging
  }

  /** The part of the invariant that says which fields may be set together. */
  predicate ShapeInv(s: MachineState) {
    Shape(s) && ContinuationRegistered(s) && MergingAwaits(s) && ActiveHasWork(s) && RecoveryHasWork(s)
    && MergeIncidentInMerging(s)
  }

  predicate Inv(s: MachineState) {
    ShapeInv(s) && CanonicalSets(s)
  }

  lemma InvConstructible(s: MachineState)
    requires Inv(s)
    ensures MachineStates.Constructible(s)
  {
    ConstructibleParts(s);
  }

  lemma CanonSmall(v: Violation)
    ensures Canon([]) == []
    ensures IntegritySet([v])
  {
    CanonFixedPoint([]);
    CanonFixedPoint([v]);
  }

  lemma BareInv(state: State, awaiting: Option<Awaiting>)
    requires state == Merged || state == Cancelled || state == Failed
        || (awaiting.Some? && AtHome(awaiting.value, state))
    requires Terminal(state) || state == Failed ==> awaiting.None?
    requires state != AwaitingToolPermission
    ensures Inv(MachineState(state, awaiting := awaiting))
  {
    CanonFixedPoint([]);
  }

  lemma InitialInv(preflightOk: bool)
    ensures Inv(Initialize(preflightOk).0)
  {
    BareInv(RunningReview, Some(CodexCodeReview));
    BareInv(Failed, None);
  }

  lemma UnionNonempty(vs: seq<Violation>, v: Violation)
    ensures Canon(vs + [v]) != []
  {
    CanonBindings(vs + [v]);
    BindingSetOfAppend(vs, v);
    assert v.binding in Bindings(Canon(vs + [v]));
  }

  lemma HaltUnion(vs: seq<Violation>, v: Violation, attempt: Binding)
    requires IntegritySet(vs) && attempt in Bindings(vs)
    ensures IntegritySet(Canon(vs + [v])) && attempt in Bindings(Canon(vs + [v]))
  {
    CanonIdempotent(vs + [v]);
    UnionNonempty(vs, v);
    CanonFixedPoint(vs);
    CanonAdd(vs, v);
    BindingSetOfBindings(vs);
    BindingSetOfBindings(Canon(vs + [v]));
  }

  /** What an incident record leaves uncovered is nonempty and still canonical. */
  lemma RemainderSet(s: MachineState, recorded: seq<Binding>)
    requires DeferredSet(s) && !Covers(s, recorded)
    ensures IntegritySet(Unrecorded(s.deferred, set b | b in recorded))
  {
    var rest := Unrecorded(s.deferred, set b | b in recorded);
    CanonFixedPoint(s.deferred);
    UnrecordedCanonical(s.deferred, set b | b in recorded);
    CanonFixedPoint(rest);
    var v :| v in s.deferred && v.binding !in recorded;
    assert v in rest;
  }

  // ---- shape: each kind of effect succeeds and keeps the fields consistent ----

  lemma AdvanceShape(f: FlowEffect, s: MachineState, e: Event)
    requires f.Advance?
    requires ShapeInv(s) && FlowReady(f, s, e)
    ensures ApplyFlow(f, s, e).Next? && ShapeInv(ApplyFlow(f, s, e).state)
  {}

  lemma ProduceShape(f: FlowEffect, s: MachineState, e: Event)
    requires f.Produce?
    requires ShapeInv(s) && FlowReady(f, s, e)
    ensures ApplyFlow(f, s, e).Next? && ShapeInv(ApplyFlow(f, s, e).state)
  {}

  lemma StopShape(f: FlowEffect, s: MachineState, e: Event)
    requires f.ProgressStop? || f.DependencyStop?
    requires ShapeInv(s) && FlowReady(f, s, e)
    ensures ApplyFlow(f, s, e).Next? && ShapeInv(ApplyFlow(f, s, e).state)
  {}

  lemma PermissionShape(f: FlowEffect, s: MachineState, e: Event)
    requires f.PermissionStop? || f.PermissionResume?
    requires ShapeInv(s) && FlowReady(f, s, e)
    ensures ApplyFlow(f, s, e).Next? && ShapeInv(ApplyFlow(f, s, e).state)
  {}

  lemma MergeStepShape(m: MergeEffect, s: MachineState, e: Event)
    requires m.ToMerging? || m.MergeStep?
    requires ShapeInv(s) && MergeReady(m, s, e)
    ensures ApplyMerge(m, s, e).Next? && ShapeInv(ApplyMerge(m, s, e).state)
  {}

  lemma FreshShape(m: MergeEffect, s: MachineState, e: Event)
    requires m.FreshReview? || m.FinishCancel? || m.Stay?
    requires ShapeInv(s) && MergeReady(m, s, e)
    ensures ApplyMerge(m, s, e).Next? && ShapeInv(ApplyMerge(m, s, e).state)
  {}

  lemma GateShape(m: MergeEffect, s: MachineState, e: Event)
    requires m.CancelQuery? || m.ReturnToGate?
    requires ShapeInv(s) && MergeReady(m, s, e)
    ensures ApplyMerge(m, s, e).Next? && ShapeInv(ApplyMerge(m, s, e).state)
  {}

  lemma CancelShape(m: MergeEffect, s: MachineState, e: Event)
    requires m.StartCancel? || m.CancelToIncident?
    requires ShapeInv(s) && MergeReady(m, s, e)
    ensures ApplyMerge(m, s, e).Next? && ShapeInv(ApplyMerge(m, s, e).state)
  {}

  lemma FailShape(m: MergeEffect, s: MachineState, e: Event)
    requires m.FailToRecovery?
    requires ShapeInv(s) && MergeReady(m, s, e)
    ensures ApplyMerge(m, s, e).Next? && ShapeInv(ApplyMerge(m, s, e).state)
  {}

  lemma ReissueShape(r: ResumeEffect, s: MachineState, e: Event)
    requires r.ReissueHalt? || r.ReissueIncident? || r.ReissuePersist?
    requires ShapeInv(s) && ResumeReady(r, s, e)
    ensures ApplyResume(r, s, e).Next? && ShapeInv(ApplyResume(r, s, e).state)
  {}

  lemma ResumePendingShape(r: ResumeEffect, s: MachineState, e: Event)
    requires r.ResumePending?
    requires ShapeInv(s) && ResumeReady(r, s, e)
    ensures ApplyResume(r, s, e).Next? && ShapeInv(ApplyResume(r, s, e).state)
  {}

  lemma ResumeAwaitingShape(r: ResumeEffect, s: MachineState, e: Event)
    requires r.ResumeAwaitingFailed? || r.ResumeAwaitingLive?
    requires ShapeInv(s) && ResumeReady(r, s, e)
    ensures ApplyResume(r, s, e).Next? && ShapeInv(ApplyResume(r, s, e).state)
  {}

  lemma DriveShape(r: ResumeEffect, s: MachineState, e: Event)
    requires r.ResumeDrive? || r.RetryAwaiting?
    requires ShapeInv(s) && ResumeReady(r, s, e)
    ensures ApplyResume(r, s, e).Next? && ShapeInv(ApplyResume(r, s, e).state)
  {}

  lemma DetectUnionShape(i: IntegrityEffect, s: MachineState, e: Event)
    requires i.DetectUnion?
    requires ShapeInv(s) && IntegrityReady(i, s, e)
    ensures ApplyIntegrity(i, s, e).Next? && ShapeInv(ApplyIntegrity(i, s, e).state)
  {
    UnionNonempty(s.deferred, e.violation);
  }

  lemma DetectStopShape(i: IntegrityEffect, s: MachineState, e: Event)
    requires i.DetectBlock? || i.DetectHalt? || i.DetectHaltUnion? || i.DetectBlockedUnion?
    requires ShapeInv(s) && IntegrityReady(i, s, e)
    ensures ApplyIntegrity(i, s, e).Next? && ShapeInv(ApplyIntegrity(i, s, e).state)
  {}

  lemma CompleteShape(i: IntegrityEffect, s: MachineState, e: Event)
    requires i.IncidentComplete? || i.HaltComplete? || i.OutcomeToBlock? || i.OutcomeToIncident?
    requires ShapeInv(s) && IntegrityReady(i, s, e)
    ensures ApplyIntegrity(i, s, e).Next? && ShapeInv(ApplyIntegrity(i, s, e).state)
  {}

  lemma RemainderShape(i: IntegrityEffect, s: MachineState, e: Event)
    requires i.IncidentRemainder? && DeferredSet(s)
    requires ShapeInv(s) && IntegrityReady(i, s, e)
    ensures ApplyIntegrity(i, s, e).Next? && ShapeInv(ApplyIntegrity(i, s, e).state)
  {
    hide Canon;
    hide Registered;
    hide Covers;
    hide Unrecorded;
    hide FlowReady;
    RemainderSet(s, e.detail.recorded);
  }

  lemma ReplayShape(i: IntegrityEffect, s: MachineState, e: Event)
    requires i.Replay?
    requires ShapeInv(s) && IntegrityReady(i, s, e)
    ensures ApplyIntegrity(i, s, e).Next? && ShapeInv(ApplyIntegrity(i, s, e).state)
  {}

  // ---- violation sets: carried over, or changed by the canonical union ----

  /** No violation set is new in the next state. */
  predicate SetsCarried(s: MachineState, n: MachineState) {
    && (n.deferred == s.deferred || n.deferred == [])
    && (n.procedure == s.procedure || !n.procedure.HaltingForBlock?)
    && (n.block == s.block || n.block.None? || !n.block.value.RecordIntegrityBlock?)
  }

  lemma CarriedCanonical(s: MachineState, n: MachineState)
    requires CanonicalSets(s) && SetsCarried(s, n)
    ensures CanonicalSets(n)
  {
    CanonFixedPoint([]);
  }

  lemma FlowCarries(f: FlowEffect, s: MachineState, e: Event)
    requires ApplyFlow(f, s, e).Next?
    ensures SetsCarried(s, ApplyFlow(f, s, e).state)
  {}

  lemma MergeCarries(m: MergeEffect, s: MachineState, e: Event)
    requires ApplyMerge(m, s, e).Next?
    ensures SetsCarried(s, ApplyMerge(m, s, e).state)
  {}

  lemma ResumeCarries(r: ResumeEffect, s: MachineState, e: Event)
    requires ApplyResume(r, s, e).Next?
    ensures SetsCarried(s, ApplyResume(r, s, e).state)
  {}

  lemma DetectSets(i: IntegrityEffect, s: MachineState, e: Event)
    requires i.DetectUnion? || i.DetectBlock? || i.DetectHalt?
    requires CanonicalSets(s) && IntegrityReady(i, s, e)
    ensures CanonicalSets(ApplyIntegrity(i, s, e).state)
  {
    CanonSmall(e.violation);
    CanonIdempotent(s.deferred + [e.violation]);
  }

  lemma DetectHaltUnionSets(i: IntegrityEffect, s: MachineState, e: Event)
    requires i.DetectHaltUnion?
    requires CanonicalSets(s) && IntegrityReady(i, s, e)
    ensures CanonicalSets(ApplyIntegrity(i, s, e).state)
  {
    HaltUnion(s.procedure.violations, e.violation, s.procedure.attempt);
  }

  lemma DetectBlockedUnionSets(i: IntegrityEffect, s: MachineState, e: Event)
    requires i.DetectBlockedUnion?
    requires CanonicalSets(s) && IntegrityReady(i, s, e)
    ensures CanonicalSets(ApplyIntegrity(i, s, e).state)
  {
    UnionNonempty(s.block.value.violations, e.violation);
    CanonIdempotent(s.block.value.violations + [e.violation]);
  }

  lemma OutcomeSets(i: IntegrityEffect, s: MachineState, e: Event)
    requires i.IncidentRemainder? || i.OutcomeToBlock? || i.HaltComplete?
    requires CanonicalSets(s) && IntegrityReady(i, s, e)
    ensures CanonicalSets(ApplyIntegrity(i, s, e).state)
  {
    CanonFixedPoint([]);
    if i.IncidentRemainder? {
      RemainderSet(s, e.detail.recorded);
    }
  }

  lemma IntegritySets(i: IntegrityEffect, s: MachineState, e: Event)
    requires CanonicalSets(s) && IntegrityReady(i, s, e)
    ensures ApplyIntegrity(i, s, e).Next? && CanonicalSets(ApplyIntegrity(i, s, e).state)
  {
    match i
    case DetectHaltUnion => DetectHaltUnionSets(i, s, e);
    case DetectBlockedUnion => DetectBlockedUnionSets(i, s, e);
    case DetectUnion(_) => DetectSets(i, s, e);
    case DetectBlock => DetectSets(i, s, e);
    case DetectHalt => DetectSets(i, s, e);
    case IncidentRemainder => OutcomeSets(i, s, e);
    case OutcomeToBlock => OutcomeSets(i, s, e);
    case HaltComplete => OutcomeSets(i, s, e);
    case _ => CarriedCanonical(s, ApplyIntegrity(i, s, e).state);
  }

  // ---- putting the parts together ----

  lemma FlowPreserves(f: FlowEffect, s: MachineState, e: Event)
    requires Inv(s) && FlowReady(f, s, e)
    ensures ApplyFlow(f, s, e).Next? && Inv(ApplyFlow(f, s, e).state)
  {
    match f {
      case Advance(_, _, _) => AdvanceShape(f, s, e);
      case Produce(_) => ProduceShape(f, s, e);
      case ProgressStop(_, _, _) => StopShape(f, s, e);
      case DependencyStop => StopShape(f, s, e);
      case PermissionStop(_) => PermissionShape(f, s, e);
      case PermissionResume => PermissionShape(f, s, e);
    }
    FlowCarries(f, s, e);
    CarriedCanonical(s, ApplyFlow(f, s, e).state);
  }

  lemma MergePreserves(m: MergeEffect, s: MachineState, e: Event)
    requires Inv(s) && MergeReady(m, s, e)
    ensures ApplyMerge(m, s, e).Next? && Inv(ApplyMerge(m, s, e).state)
  {
    match m {
      case ToMerging => MergeStepShape(m, s, e);
      case MergeStep(_, _, _) => MergeStepShape(m, s, e);
      case CancelQuery => GateShape(m, s, e);
      case ReturnToGate => GateShape(m, s, e);
      case StartCancel(_) => CancelShape(m, s, e);
      case CancelToIncident => CancelShape(m, s, e);
      case FailToRecovery => FailShape(m, s, e);
      case _ => FreshShape(m, s, e);
    }
    MergeCarries(m, s, e);
    CarriedCanonical(s, ApplyMerge(m, s, e).state);
  }

  lemma ResumePreserves(r: ResumeEffect, s: MachineState, e: Event)
    requires Inv(s) && ResumeReady(r, s, e)
    ensures ApplyResume(r, s, e).Next? && Inv(ApplyResume(r, s, e).state)
  {
    match r {
      case ResumePending => ResumePendingShape(r, s, e);
      case ResumeAwaitingFailed => ResumeAwaitingShape(r, s, e);
      case ResumeAwaitingLive => ResumeAwaitingShape(r, s, e);
      case ResumeDrive => DriveShape(r, s, e);
      case RetryAwaiting(_, _) => DriveShape(r, s, e);
      case _ => ReissueShape(r, s, e);
    }
    ResumeCarries(r, s, e);
    CarriedCanonical(s, ApplyResume(r, s, e).state);
  }

  lemma IntegrityPreserves(i: IntegrityEffect, s: MachineState, e: Event)
    requires Inv(s) && IntegrityReady(i, s, e)
    ensures ApplyIntegrity(i, s, e).Next? && Inv(ApplyIntegrity(i, s, e).state)
  {
    match i {
      case DetectUnion(_) => DetectUnionShape(i, s, e);
      case DetectBlock => DetectStopShape(i, s, e);
      case DetectHalt => DetectStopShape(i, s, e);
      case DetectHaltUnion => DetectStopShape(i, s, e);
      case DetectBlockedUnion => DetectStopShape(i, s, e);
      case IncidentRemainder => RemainderShape(i, s, e);
      case Replay => ReplayShape(i, s, e);
      case _ => CompleteShape(i, s, e);
    }
    IntegritySets(i, s, e);
  }

  lemma RulePreserves(id: RuleId, s: MachineState, e: Event)
    requires Inv(s) && Events.Constructible(e) && Enabled(id, s, e)
    ensures var a := Apply(RuleOf(id).effect, s, e); a.Next? && Inv(a.state)
  {
    EnabledReady(id, s, e);
    match RuleOf(id).effect
    case Flow(f) => FlowPreserves(f, s, e);
    case Merge(m) => MergePreserves(m, s, e);
    case Resume(r) => ResumePreserves(r, s, e);
    case Integrity(i) => IntegrityPreserves(i, s, e);
  }

  /** The invariant is inductive, and a refused event is the only failure a transition can have. */
  lemma TransitionPreserves(s: MachineState, e: Event)
    requires Inv(s) && Events.Constructible(e)
    ensures Transition(s, e).Accepted? || Transition(s, e).TransitionRejected?
    ensures Transition(s, e).Accepted? ==> Inv(Transition(s, e).next)
  {
    if !Transition(s, e).TransitionRejected? {
      var id := RuleBehind(s, e);
      RulePreserves(id, s, e);
      InvConstructible(Apply(RuleOf(id).effect, s, e).state);
    }
  }

  /** Driving a recovered state afresh is a rule that no reachable state enables. */
  lemma DriveNeverNeeded(s: MachineState, e: Event)
    requires ShapeInv(s) && Events.Constructible(e)
    ensures !Enabled(ResumeRule(RD), s, e)
  {
    if Enabled(ResumeRule(RD), s, e) {
      EnabledReady(ResumeRule(RD), s, e);
    }
  }

  // ---- why the construction checks alone are not enough ----

  function UnregisteredBlock(evidence: RecordEvidence, head: Ref): MachineState {
    MachineState(Blocked, block := Some(ExternalDependencyBlock(
      evidence.binding, head, BlockedContinuation(Merged, [], Some(Report)), evidence)))
  }

  function Intervene(evidence: RecordEvidence, head: Ref): Event {
    BlockResolved(Intervention, Resolution(evidence.binding, head, Some(evidence), None, None, None, None, None))
  }

  lemma InterveneEnabled(evidence: RecordEvidence, head: Ref)
    ensures Enabled(BlockRule(BIV2), UnregisteredBlock(evidence, head), Intervene(evidence, head))
  {
    hide Canon;
  }

  /**
   * A block whose saved continuation is not registered passes every check, and its resolution builds an illegal state.
   */
  lemma UnregisteredContinuationBreaks(evidence: RecordEvidence, head: Ref)
    requires evidence.kind == BlockIntervention
    ensures MachineStates.Constructible(UnregisteredBlock(evidence, head))
        && Events.Constructible(Intervene(evidence, head))
    ensures Transition(UnregisteredBlock(evidence, head), Intervene(evidence, head)) == IllegalState(CheckTerminalBare)
  {
    hide Canon;
    hide Enabled;
    hide Transition;
    CanonFixedPoint([]);
    InterveneEnabled(evidence, head);
    TransitionBy(BlockRule(BIV2), UnregisteredBlock(evidence, head), Intervene(evidence, head));
  }

  /** A merging state that awaits nothing passes every check, and refuses a detection. */
  lemma IdleMergingRefusesDetection(v: Violation)
    ensures MachineStates.Constructible(MachineState(Merging))
        && Transition(MachineState(Merging), ViolationDetected(v)).TransitionRejected?
  {
    hide Canon;
    assert DeferredSet(MachineState(Merging)) by { CanonFixedPoint([]); }
  }
}
