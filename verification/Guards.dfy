/** Guard values derived from a state and an event, and the match part of a rule. */
module Guards {
  import opened Vocabulary
  import opened Violations
  import opened MachineStates
  import opened Events

  datatype ProcedureKind = NormalKind | CancellingKind | HaltingKind | RecordingKind
  datatype PendingMatch = PendingAbsent | PendingMatched | PendingMismatched | PendingPresent
  datatype BindingMatch = BindingMatched | BindingMismatched
  datatype BlockKind = ProgressKind | DependencyKind | IntegrityKind

  datatype GuardKey = GuardKey(
    procedure: ProcedureKind, awaiting: Option<Awaiting>, pending: PendingMatch, recordKind: Option<RecordKind>,
    progress: Option<Progress>, deferredNonempty: bool, binding: Option<BindingMatch>, blockKind: Option<BlockKind>,
    blockReason: Option<Progress>, coverage: Option<IncidentCoverage>, recoveryPresent: bool)

  function ProcedureKindOf(s: MachineState): ProcedureKind {
    match s.procedure
    case Normal => NormalKind
    case Cancelling(_) => CancellingKind
    case HaltingForBlock(_, _) => HaltingKind
    case RecordingIncident(_, _) => RecordingKind
  }

  function PendingVersus(s: MachineState, record: Option<RecordEvidence>): PendingMatch {
    if s.pending.None? then PendingAbsent
    else if record.Some? && s.pending.value.kind == record.value.kind && s.pending.value.binding == record.value.binding
    then PendingMatched
    else PendingMismatched
  }

  function PendingKey(s: MachineState, e: Event): PendingMatch {
    match e
    case Verified(_, evidence, _) => PendingVersus(s, Some(evidence))
    case BlockResolved(Intervention, res) => PendingVersus(s, res.record)
    case _ => if s.pending.None? then PendingAbsent else PendingPresent
  }

  /** Complete agreement between resolution evidence and the current block. */
  predicate ResolutionMatches(s: MachineState, res: Resolution) {
    match s.block
    case None => false
    case Some(ProgressBlock(binding, head, _, reason, budget, snapshot, fingerprint)) =>
      && res.targetBlock == binding && res.head == head
      && res.reason == Some(reason) && res.budget == Some(budget)
      && res.snapshot == Some(snapshot) && res.fingerprint == Some(fingerprint)
      && res.violationBindings.None?
    case Some(ExternalDependencyBlock(binding, head, _, _)) =>
      && res.targetBlock == binding && res.head == head
      && res.reason.None? && res.budget.None? && res.snapshot.None? && res.fingerprint.None?
      && res.violationBindings.None?
    case Some(RecordIntegrityBlock(violations)) =>
      && violations != [] && res.targetBlock == violations[0].binding && res.head == violations[0].head
      && res.reason.None? && res.budget.None? && res.snapshot.None? && res.fingerprint.None?
      && res.violationBindings == Some(Bindings(violations))
  }

  predicate AttemptMatches(s: MachineState, e: Event) {
    match e
    case CancellationCompleted(attempt, emergency) =>
      (match s.procedure
       case Cancelling(current) => attempt == Some(current)
       case Normal => emergency.Some?
       case _ => false)
    case BlockHaltCompleted(attempt) => s.procedure.HaltingForBlock? && attempt == s.procedure.attempt
    case BlockResolved(_, res) => ResolutionMatches(s, res)
    case _ => false
  }

  function BindingKey(s: MachineState, e: Event): Option<BindingMatch> {
    if e.CancellationCompleted? || e.BlockHaltCompleted? || e.BlockResolved?
    then Some(if AttemptMatches(s, e) then BindingMatched else BindingMismatched)
    else None
  }

  predicate Covers(s: MachineState, recorded: seq<Binding>) {
    forall v :: v in s.deferred ==> v.binding in recorded
  }

  function CoverageKey(s: MachineState, e: Event): Option<IncidentCoverage> {
    match e
    case Verified(IntegrityIncidentVerified, _, WithRecorded(recorded)) =>
      Some(if Covers(s, recorded) then Complete else Remainder)
    case _ => None
  }

  function ProgressKey(e: Event): Option<Progress> {
    match e
    case Verified(_, _, WithReport(report)) => Some(report.progress)
    case _ => None
  }

  function BlockKindKey(s: MachineState): Option<BlockKind> {
    match s.block
    case None => None
    case Some(ProgressBlock(_, _, _, _, _, _, _)) => Some(ProgressKind)
    case Some(ExternalDependencyBlock(_, _, _, _)) => Some(DependencyKind)
    case Some(RecordIntegrityBlock(_)) => Some(IntegrityKind)
  }

  function BlockReasonKey(s: MachineState): Option<Progress> {
    match s.block
    case Some(ProgressBlock(_, _, _, reason, _, _, _)) => Some(reason)
    case _ => None
  }

  function DeriveGuardKey(s: MachineState, e: Event): GuardKey {
    GuardKey(
      ProcedureKindOf(s), s.awaiting, PendingKey(s, e), if e.RecordProduced? then Some(e.kind) else None,
      ProgressKey(e), s.deferred != [], BindingKey(s, e), BlockKindKey(s), BlockReasonKey(s), CoverageKey(s, e),
      s.recoveryTo.Some?)
  }

  // ---- the match part of a rule: one filter per guard value ----

  datatype StateFilter =
    | Only(only: State) | AnyNonTerminal | NonTerminalNotMerging | ActiveNotMerging | AnyResumable | ResumableNotBlocked
    | NeitherFailedNorBlocked

  datatype AwaitingFilter =
    | AnyOrNone | Exactly(awaited: Awaiting) | DraftOrRevise | AnyOutcome | AnyMerging | AnyAwaited | Nothing
    | NothingOrCi

  datatype PendingFilter = AnyPending | WhenAbsent | WhenMatched | WhenAbsentOrMatched | WhenAbsentOrMismatched
      | WhenPresent
  datatype ProgressFilter = AnyProgress | Proceeds | Bounded
  datatype BlockFilter = AnyBlock | OneKind(kind: BlockKind) | ProgressOrDependency

  predicate StateAllowed(f: StateFilter, s: State) {
    match f
    case Only(only) => s == only
    case AnyNonTerminal => NonTerminal(s)
    case NonTerminalNotMerging => NonTerminal(s) && s != Merging
    case ActiveNotMerging => Active(s) && s != Merging
    case AnyResumable => Resumable(s)
    case ResumableNotBlocked => Resumable(s) && s != Blocked
    case NeitherFailedNorBlocked => NonTerminal(s) && s != Failed && s != Blocked
  }

  predicate AwaitingAllowed(f: AwaitingFilter, a: Option<Awaiting>) {
    match f
    case AnyOrNone => true
    case Exactly(awaited) => a == Some(awaited)
    case DraftOrRevise => a == Some(HostDraftDecisionRequest) || a == Some(HostReviseDecisionRequest)
    case AnyOutcome => a.Some? && MergeOutcome(a.value)
    case AnyMerging => a.Some? && (MergeOutcome(a.value) || a.value == MergePreconditions)
    case AnyAwaited => a.Some?
    case Nothing => a.None?
    case NothingOrCi => a.None? || a == Some(CiResult)
  }

  predicate PendingAllowed(f: PendingFilter, p: PendingMatch) {
    match f
    case AnyPending => true
    case WhenAbsent => p == PendingAbsent
    case WhenMatched => p == PendingMatched
    case WhenAbsentOrMatched => p == PendingAbsent || p == PendingMatched
    case WhenAbsentOrMismatched => p == PendingAbsent || p == PendingMismatched
    case WhenPresent => p == PendingPresent
  }

  predicate ProgressAllowed(f: ProgressFilter, p: Option<Progress>) {
    match f
    case AnyProgress => true
    case Proceeds => p == Some(Continue)
    case Bounded => p == Some(LimitReached) || p == Some(NoProgress)
  }

  predicate BlockAllowed(f: BlockFilter, k: Option<BlockKind>) {
    match f
    case AnyBlock => true
    case OneKind(kind) => k == Some(kind)
    case ProgressOrDependency => k == Some(ProgressKind) || k == Some(DependencyKind)
  }

  /** The match part of a rule; an absent component matches anything. */
  datatype Match = Match(
    states: StateFilter,
    event: EventType,
    nameonly procedure: ProcedureKind := NormalKind,
    nameonly awaiting: AwaitingFilter := AnyOrNone,
    nameonly pending: PendingFilter := AnyPending,
    nameonly recordKind: Option<RecordKind> := None,
    nameonly progress: ProgressFilter := AnyProgress,
    nameonly deferredNonempty: Option<bool> := None,
    nameonly bindingMatched: bool := false,
    nameonly blockKinds: BlockFilter := AnyBlock,
    nameonly blockReason: Option<Progress> := None,
    nameonly coverage: Option<IncidentCoverage> := None,
    nameonly recoveryPresent: Option<bool> := None)

  predicate Matches(m: Match, state: State, event: EventType, key: GuardKey) {
    && StateAllowed(m.states, state)
    && event == m.event
    && key.procedure == m.procedure
    && AwaitingAllowed(m.awaiting, key.awaiting)
    && PendingAllowed(m.pending, key.pending)
    && (m.recordKind.None? || key.recordKind == m.recordKind)
    && ProgressAllowed(m.progress, key.progress)
    && (m.deferredNonempty.None? || key.deferredNonempty == m.deferredNonempty.value)
    && (!m.bindingMatched || key.binding == Some(BindingMatched))
    && BlockAllowed(m.blockKinds, key.blockKind)
    && (m.blockReason.None? || key.blockReason == m.blockReason)
    && (m.coverage.None? || key.coverage == m.coverage)
    && (m.recoveryPresent.None? || key.recoveryPresent == m.recoveryPresent.value)
  }
}
