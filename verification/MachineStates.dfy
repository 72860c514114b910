/** The complete controller state and the checks every construction of one performs. */
module MachineStates {
  import opened Vocabulary
  import opened Violations

  /** The continuation a bounded-progress or dependency block saves for its resolution. */
  datatype BlockedContinuation = BlockedContinuation(resumeState: State, commands: seq<Command>,
      awaiting: Option<Awaiting>)

  datatype Block =
    | ProgressBlock(binding: Binding, head: Ref, continuation: BlockedContinuation, reason: Progress,
                    budget: Budget, snapshot: Snapshot, fingerprint: Fingerprint)
    | ExternalDependencyBlock(binding: Binding, head: Ref, continuation: BlockedContinuation, evidence: RecordEvidence)
    | RecordIntegrityBlock(violations: seq<Violation>)

  /** The mutually exclusive procedures in progress. A halting procedure carries a RecordIntegrityBlock. */
  datatype Procedure =
    | Normal
    | Cancelling(attempt: Binding)
    | HaltingForBlock(violations: seq<Violation>, attempt: Binding)
    | RecordingIncident(target: IncidentTarget, audit: Option<PendingRecord>)

  datatype MachineState = MachineState(
    state: State,
    procedure: Procedure := Normal,
    awaiting: Option<Awaiting> := None,
    pending: Option<PendingRecord> := None,
    deferred: seq<Violation> := [],
    returnTo: Option<State> := None,
    recoveryTo: Option<State> := None,
    block: Option<Block> := None)

  /** Nonempty, one entry per binding, bindings ascending. */
  predicate IntegritySet(vs: seq<Violation>) {
    vs != [] && Canon(vs) == vs
  }

  /** The checks of the nested block and procedure values. */
  predicate BlockReason(s: MachineState) {
    s.block.Some? && s.block.value.ProgressBlock? ==> s.block.value.reason != Continue
  }

  predicate BlockSet(s: MachineState) {
    s.block.Some? && s.block.value.RecordIntegrityBlock? ==> IntegritySet(s.block.value.violations)
  }

  predicate HaltSet(s: MachineState) {
    s.procedure.HaltingForBlock? ==>
      IntegritySet(s.procedure.violations) && s.procedure.attempt in Bindings(s.procedure.violations)
  }

  predicate DeferredSet(s: MachineState) {
    Canon(s.deferred) == s.deferred
  }

  predicate TerminalBare(s: MachineState) {
    Terminal(s.state) ==> s == MachineState(s.state)
  }

  predicate BlockScope(s: MachineState) {
    && (s.block.Some? <==> s.state == Blocked)
    && (s.state == Blocked ==>
          && s.awaiting.None?
          && !s.procedure.HaltingForBlock?
          && (s.procedure.Normal? && s.pending.Some? ==>
                s.pending.value.kind == UserCancel || s.pending.value.kind == BlockIntervention))
  }

  predicate RecoveryScope(s: MachineState) {
    s.recoveryTo.Some? ==> s.state == Failed && Active(s.recoveryTo.value) && s.recoveryTo.value != Merging
  }

  predicate ReturnScope(s: MachineState) {
    && (s.returnTo.Some? <==> s.state == AwaitingToolPermission)
    && (s.returnTo.Some? ==> s.returnTo.value == RunningReview || s.returnTo.value == ApplyingFixes)
  }

  predicate ProcedureShape(s: MachineState) {
    && (!s.procedure.Normal? ==> s.awaiting.None?)
    && (s.procedure.Cancelling? ==> s.state != Merging)
    && (s.procedure.HaltingForBlock? ==>
          Active(s.state) && s.state != Merging && s.pending.None? && s.deferred == [])
    && (s.procedure.RecordingIncident? ==>
          s.deferred != [] && (s.pending.Some? ==> s.pending.value.kind == IntegrityIncident))
  }

  predicate DeferredScope(s: MachineState) {
    s.deferred != [] ==>
      || s.procedure.Cancelling? || s.procedure.RecordingIncident?
      || (s.procedure.Normal? && s.state == Merging && s.awaiting.Some? && MergeOutcome(s.awaiting.value))
  }

  predicate PendingHome(s: MachineState) {
    s.pending.Some? ==>
      && (s.state == s.pending.value.sourceState || s.state == Failed)
      && (s.pending.value.kind == IntegrityIncident ==> s.procedure.RecordingIncident?)
      && (s.awaiting.Some? ==> s.pending.value.kind == UserCancel)
      && (s.state == Failed && s.pending.value.sourceState != Failed ==>
            s.recoveryTo == Some(s.pending.value.sourceState))
  }

  predicate AwaitingAtHome(s: MachineState) {
    s.awaiting.Some? ==>
      && (AtHome(s.awaiting.value, s.state) || s.state == Failed)
      && (s.state == Failed ==> s.recoveryTo.Some? && AtHome(s.awaiting.value, s.recoveryTo.value))
  }

  datatype Check =
    | CheckBlockReason | CheckBlockSet | CheckHaltSet | CheckDeferredSet | CheckTerminalBare | CheckBlockScope
    | CheckRecoveryScope | CheckReturnScope | CheckProcedureShape | CheckDeferredScope | CheckPendingHome
    | CheckAwaitingHome

  /** The first check that refuses the construction of this state, in the order they run. */
  function FirstFailure(s: MachineState): Option<Check> {
    if !BlockReason(s) then Some(CheckBlockReason)
    else if !BlockSet(s) then Some(CheckBlockSet)
    else if !HaltSet(s) then Some(CheckHaltSet)
    else if !DeferredSet(s) then Some(CheckDeferredSet)
    else if !TerminalBare(s) then Some(CheckTerminalBare)
    else if !BlockScope(s) then Some(CheckBlockScope)
    else if !RecoveryScope(s) then Some(CheckRecoveryScope)
    else if !ReturnScope(s) then Some(CheckReturnScope)
    else if !ProcedureShape(s) then Some(CheckProcedureShape)
    else if !DeferredScope(s) then Some(CheckDeferredScope)
    else if !PendingHome(s) then Some(CheckPendingHome)
    else if !AwaitingAtHome(s) then Some(CheckAwaitingHome)
    else None
  }

  predicate Constructible(s: MachineState) {
    FirstFailure(s).None?
  }

  /** The checks on which fields may be set together. */
  predicate Shape(s: MachineState) {
    && TerminalBare(s) && BlockReason(s) && BlockScope(s) && RecoveryScope(s) && ReturnScope(s)
    && ProcedureShape(s) && DeferredScope(s) && PendingHome(s) && AwaitingAtHome(s)
  }

  /** The checks that every violation set is canonical. */
  predicate CanonicalSets(s: MachineState) {
    BlockSet(s) && HaltSet(s) && DeferredSet(s)
  }

  lemma ConstructibleParts(s: MachineState)
    ensures Constructible(s) <==> Shape(s) && CanonicalSets(s)
  {}
}
