/** A live run takes every answer to its task: it is produced, then verified, and no fitting signal is refused. */
module Responsive {
  import opened Vocabulary
  import opened Violations
  import opened MachineStates
  import opened Events
  import opened Guards
  import opened Rules
  import opened Machine
  import opened Readiness
  import opened Invariant
  import opened Runs
  import opened Tasks
  import opened TaskRuns

  /** Working on the task, and neither failed, blocked, stopped for a permission nor publishing a record. */
  predicate Live(s: MachineState, task: Task) {
    Doing(s, task) && s.procedure.Normal? && s.state == StateOf(task) && s.pending.None?
  }

  lemma LiveAwaits(s: MachineState, task: Task)
    requires ShapeInv(s) && Live(s, task)
    ensures s.awaiting == AwaitedIn(task) && !Terminal(s.state) && s.block.None?
    ensures s.state != Merging ==> s.deferred == []
  {
    hide Answers;
    hide Canon;
    hide Registered;
  }

  predicate ReviewKind(kind: RecordKind) {
    || kind.ReviewResult? || kind.FixResult? || kind.ClarificationQuestion? || kind.ClarificationAnswer?
    || kind.ExternalDependency? || kind.PermissionBlock? || kind.DecisionRequest?
  }

  predicate GateKind(kind: RecordKind) {
    kind.GateQuestion? || kind.GateAnswer? || kind.GateChanges? || kind.MergeApproval? || kind.UserDecision?
  }

  predicate Producible(s: MachineState, e: Event) {
    Enabled(Candidate(s, e), s, e) && RuleOf(Candidate(s, e)).effect == Flow(Produce(false))
  }

  lemma ReviewIsProduced(s: MachineState, task: Task, kind: RecordKind, b: Binding)
    requires s.procedure.Normal? && s.state == StateOf(task) && s.pending.None? && s.awaiting == AwaitedIn(task)
    requires Answers(kind, task) && ReviewKind(kind)
    ensures Producible(s, RecordProduced(kind, b))
  {
    hide VerifiedCandidate;
    hide SignalCandidate;
    hide DetectionCandidate;
    hide BindingKey;
    hide CoverageKey;
    hide BlockKindKey;
    hide BlockReasonKey;
  }

  lemma OthersAreProduced(s: MachineState, task: Task, kind: RecordKind, b: Binding)
    requires s.procedure.Normal? && s.state == StateOf(task) && s.pending.None? && s.awaiting == AwaitedIn(task)
    requires Answers(kind, task) && !ReviewKind(kind) && !GateKind(kind)
    ensures Producible(s, RecordProduced(kind, b))
  {
    hide VerifiedCandidate;
    hide SignalCandidate;
    hide DetectionCandidate;
    hide BindingKey;
    hide CoverageKey;
    hide BlockKindKey;
    hide BlockReasonKey;
  }

  lemma GateIsProduced(s: MachineState, task: Task, kind: RecordKind, b: Binding)
    requires s.procedure.Normal? && s.state == StateOf(task) && s.pending.None? && s.awaiting == AwaitedIn(task)
    requires Answers(kind, task) && GateKind(kind)
    ensures Producible(s, RecordProduced(kind, b))
  {
    hide VerifiedCandidate;
    hide SignalCandidate;
    hide DetectionCandidate;
    hide BindingKey;
    hide CoverageKey;
    hide BlockKindKey;
    hide BlockReasonKey;
  }

  /** The publication of an answer is accepted, and only its record changes. */
  lemma ProductionIsTaken(s: MachineState, task: Task, kind: RecordKind, b: Binding) returns (t: Step)
    requires Inv(s) && Live(s, task) && Answers(kind, task)
    ensures Legal(t) && t.before == s && t.event == RecordProduced(kind, b) && Inv(t.after)
    ensures t.after == s.(awaiting := None, pending := Some(PendingRecord(kind, b, s.state)))
  {
    hide Transition;
    hide Enabled;
    hide RuleOf;
    hide Candidate;
    hide CanonicalSets;
    hide ShapeInv;
    hide Answers;
    hide StateOf;
    hide AwaitedIn;
    LiveAwaits(s, task);
    if ReviewKind(kind) { ReviewIsProduced(s, task, kind, b); }
    else if GateKind(kind) { GateIsProduced(s, task, kind, b); }
    else { OthersAreProduced(s, task, kind, b); }
    t := AcceptedBy(Candidate(s, RecordProduced(kind, b)), s, RecordProduced(kind, b));
  }

  // ---- its verification ----

  lemma EveryProgress(p: Progress)
    ensures p == Continue || p == LimitReached || p == NoProgress
  {
    match p
    case Continue =>
    case LimitReached =>
    case NoProgress =>
  }

  predicate Published(s: MachineState, e: Event, task: Task) {
    && s.procedure.Normal? && s.state == StateOf(task) && e.Verified? && Answers(ExpectedKind(e.name), task)
    && s.pending == Some(PendingRecord(e.evidence.kind, e.evidence.binding, s.state)) && Events.Constructible(e)
  }

  lemma ReviewIsVerified(s: MachineState, e: Event, task: Task)
    requires Published(s, e, task) && ReviewKind(ExpectedKind(e.name)) && !task.ApplyTheFixes?
    ensures Enabled(Candidate(s, e), s, e)
  {
    hide ProducedCandidate;
    hide SignalCandidate;
    hide DetectionCandidate;
    hide BindingKey;
    hide CoverageKey;
    hide BlockKindKey;
    hide BlockReasonKey;
    if e.detail.WithReport? { EveryProgress(e.detail.report.progress); }
  }

  lemma FixIsVerified(s: MachineState, e: Event)
    requires Published(s, e, ApplyTheFixes)
    ensures Enabled(Candidate(s, e), s, e)
  {
    hide ProducedCandidate;
    hide SignalCandidate;
    hide DetectionCandidate;
    hide BindingKey;
    hide CoverageKey;
    hide BlockKindKey;
    hide BlockReasonKey;
    if e.detail.WithReport? { EveryProgress(e.detail.report.progress); }
  }

  lemma GateIsVerified(s: MachineState, e: Event, task: Task)
    requires Published(s, e, task) && GateKind(ExpectedKind(e.name))
    ensures Enabled(Candidate(s, e), s, e)
  {
    hide ProducedCandidate;
    hide SignalCandidate;
    hide DetectionCandidate;
    hide BindingKey;
    hide CoverageKey;
    hide BlockKindKey;
    hide BlockReasonKey;
  }

  lemma DecisionIsVerified(s: MachineState, e: Event, task: Task)
    requires Published(s, e, task) && StateOf(task).ReviewingDecisionRequest?
    requires !ReviewKind(ExpectedKind(e.name)) && !GateKind(ExpectedKind(e.name))
    ensures Enabled(Candidate(s, e), s, e)
  {
    hide ProducedCandidate;
    hide SignalCandidate;
    hide DetectionCandidate;
    hide BindingKey;
    hide CoverageKey;
    hide BlockKindKey;
    hide BlockReasonKey;
    if e.detail.WithReport? { EveryProgress(e.detail.report.progress); }
  }

  lemma CheckIsVerified(s: MachineState, e: Event, task: Task)
    requires Published(s, e, task) && !StateOf(task).ReviewingDecisionRequest?
    requires !ReviewKind(ExpectedKind(e.name)) && !GateKind(ExpectedKind(e.name))
    ensures Enabled(Candidate(s, e), s, e)
  {
    hide ProducedCandidate;
    hide SignalCandidate;
    hide DetectionCandidate;
    hide BindingKey;
    hide CoverageKey;
    hide BlockKindKey;
    hide BlockReasonKey;
    if e.detail.WithReport? { EveryProgress(e.detail.report.progress); }
  }

  /** Every answer to the task, with any verdict and any progress, is taken in two steps: produced and verified. */
  lemma AnswerIsTaken(s: MachineState, task: Task, e: Event) returns (run: seq<Step>)
    requires Inv(s) && Live(s, task)
    requires Events.Constructible(e) && e.Verified? && Answers(ExpectedKind(e.name), task)
    ensures RunFrom(s, run) && |run| == 2 && run[1].event == e
    ensures run[0].event == RecordProduced(e.evidence.kind, e.evidence.binding)
  {
    hide Transition;
    hide Enabled;
    hide RuleOf;
    hide Candidate;
    hide Inv;
    hide Answers;
    hide ExpectedKind;
    hide DetailFits;
    var produced := ProductionIsTaken(s, task, e.evidence.kind, e.evidence.binding);
    var n := produced.after;
    LiveIsGoing(task);
    assert Published(n, e, task);
    if GateKind(ExpectedKind(e.name)) { GateIsVerified(n, e, task); }
    else if !ReviewKind(ExpectedKind(e.name)) {
      if StateOf(task).ReviewingDecisionRequest? {
        DecisionIsVerified(n, e, task);
      } else {
        CheckIsVerified(n, e, task);
      }
    }
    else if task.ApplyTheFixes? { FixIsVerified(n, e); }
    else { ReviewIsVerified(n, e, task); }
    var verified := AcceptedBy(Candidate(n, e), n, e);
    run := [produced, verified];
  }

  lemma LiveIsGoing(task: Task)
    ensures !Terminal(StateOf(task))
  {}

  predicate Commented(e: Event, task: Task) {
    && e.Verified?
    && ((task.DecideAsUser? && e.name == UserDecisionVerified)
        || (task.HoldTheGate?
            && (e.name == GateQuestionVerified || e.name == GateChangesVerified || e.name == MergeApprovalVerified)))
  }

  lemma CommentEnabled(s: MachineState, task: Task, e: Event)
    requires s.procedure.Normal? && s.state == StateOf(task) && s.pending.None? && s.awaiting == AwaitedIn(task)
    requires Commented(e, task)
    ensures Enabled(Candidate(s, e), s, e)
  {
    hide ProducedCandidate;
    hide SignalCandidate;
    hide DetectionCandidate;
    hide BindingKey;
    hide CoverageKey;
    hide BlockKindKey;
    hide BlockReasonKey;
  }

  /** A record that the user comments directly is verified without being produced. */
  lemma CommentIsTaken(s: MachineState, task: Task, e: Event) returns (t: Step)
    requires Inv(s) && Live(s, task) && Events.Constructible(e) && Commented(e, task)
    ensures Legal(t) && t.before == s && t.event == e && Inv(t.after)
  {
    hide Transition;
    hide Enabled;
    hide RuleOf;
    hide Candidate;
    hide CanonicalSets;
    hide ShapeInv;
    hide Commented;
    hide StateOf;
    hide AwaitedIn;
    LiveAwaits(s, task);
    CommentEnabled(s, task, e);
    t := AcceptedBy(Candidate(s, e), s, e);
  }

  // ---- signals ----

  predicate AboutOutcome(signal: SignalName) {
    signal.MergeConfirmed? || signal.MergeNotExecutedConfirmed? || signal.MergeOutcomeUnknown?
  }

  predicate AboutHead(signal: SignalName) {
    || signal.HeadChangedExternally? || signal.ResumeSameHeadValidated?
    || signal.MergePreconditionsOk? || signal.MergePreconditionMismatch?
  }

  lemma OutcomeSignalEnabled(s: MachineState, task: Task, signal: SignalName)
    requires s.procedure.Normal? && s.state == StateOf(task) && s.pending.None? && s.awaiting == AwaitedIn(task)
    requires Signals(signal, task) && AboutOutcome(signal)
    ensures Enabled(Candidate(s, Signal(signal)), s, Signal(signal))
  {
    hide ProducedCandidate;
    hide VerifiedCandidate;
    hide DetectionCandidate;
    hide BindingKey;
    hide CoverageKey;
    hide BlockKindKey;
    hide BlockReasonKey;
    hide ProgressKey;
    hide ProcedureCandidate;
  }

  lemma HeadSignalEnabled(s: MachineState, task: Task, signal: SignalName)
    requires s.procedure.Normal? && s.state == StateOf(task) && s.pending.None? && s.awaiting == AwaitedIn(task)
    requires Signals(signal, task) && AboutHead(signal)
    ensures Enabled(Candidate(s, Signal(signal)), s, Signal(signal))
  {
    hide ProducedCandidate;
    hide VerifiedCandidate;
    hide DetectionCandidate;
    hide BindingKey;
    hide CoverageKey;
    hide BlockKindKey;
    hide BlockReasonKey;
    hide ProgressKey;
    hide ProcedureCandidate;
  }

  lemma WorkSignalEnabled(s: MachineState, task: Task, signal: SignalName)
    requires s.procedure.Normal? && s.state == StateOf(task) && s.pending.None? && s.awaiting == AwaitedIn(task)
    requires Signals(signal, task) && !AboutOutcome(signal) && !AboutHead(signal) && !AnyTime(signal)
    ensures Enabled(Candidate(s, Signal(signal)), s, Signal(signal))
  {
    hide ProducedCandidate;
    hide VerifiedCandidate;
    hide DetectionCandidate;
    hide BindingKey;
    hide CoverageKey;
    hide BlockKindKey;
    hide BlockReasonKey;
    hide ProgressKey;
    hide ProcedureCandidate;
  }

  /** Every signal that means something during the task is accepted. */
  lemma SignalIsTaken(s: MachineState, task: Task, signal: SignalName) returns (t: Step)
    requires Inv(s) && Live(s, task) && Signals(signal, task) && !AnyTime(signal)
    ensures Legal(t) && t.before == s && t.event == Signal(signal) && Inv(t.after)
  {
    hide Transition;
    hide Enabled;
    hide RuleOf;
    hide Candidate;
    hide CanonicalSets;
    hide ShapeInv;
    hide Signals;
    hide StateOf;
    hide AwaitedIn;
    LiveAwaits(s, task);
    if AboutOutcome(signal) { OutcomeSignalEnabled(s, task, signal); }
    else if AboutHead(signal) { HeadSignalEnabled(s, task, signal); }
    else { WorkSignalEnabled(s, task, signal); }
    t := AcceptedBy(Candidate(s, Signal(signal)), s, Signal(signal));
  }

  // ---- resolutions ----

  /** The route that the kind of a block, and the reason of a limited report, call for. */
  predicate RouteFor(b: Block, route: ResolutionRoute) {
    match b
    case ProgressBlock(_, _, _, reason, _, _, _) =>
      (reason == LimitReached && route.LimitRaised?) || (reason == NoProgress && route.Intervention?)
    case ExternalDependencyBlock(_, _, _, _) => route.Intervention?
    case RecordIntegrityBlock(_) => route.IntegrityRestored? || route.IntegritySalvaged?
  }

  lemma ResolutionEnabled(s: MachineState, e: Event)
    requires NormalIn(s, Blocked) && s.pending.None? && s.block.Some? && e.BlockResolved?
    requires RouteFor(s.block.value, e.route) && ResolutionMatches(s, e.resolution)
    ensures Enabled(Candidate(s, e), s, e)
  {
    hide ResolutionMatches;
    hide ProducedCandidate;
    hide VerifiedCandidate;
    hide SignalCandidate;
    hide DetectionCandidate;
    hide CoverageKey;
    hide ProgressKey;
  }

  lemma PermissionEnabled(s: MachineState)
    requires NormalIn(s, AwaitingToolPermission) && s.pending.None? && s.awaiting == Some(UserInputPermission)
    ensures Enabled(Candidate(s, Signal(PermissionResumeValidated)), s, Signal(PermissionResumeValidated))
  {
    hide ProducedCandidate;
    hide VerifiedCandidate;
    hide DetectionCandidate;
    hide BindingKey;
    hide CoverageKey;
    hide ProgressKey;
  }

  /** Evidence that agrees with a block lifts it, by the route its kind calls for. */
  lemma ResolutionIsTaken(s: MachineState, e: Event) returns (t: Step)
    requires Inv(s) && NormalIn(s, Blocked) && s.pending.None? && Events.Constructible(e) && e.BlockResolved?
    requires RouteFor(s.block.value, e.route) && ResolutionMatches(s, e.resolution)
    ensures Legal(t) && t.before == s && t.event == e && Inv(t.after)
  {
    hide Transition;
    hide Enabled;
    hide RuleOf;
    hide Candidate;
    hide CanonicalSets;
    hide ResolutionMatches;
    hide RouteFor;
    ResolutionEnabled(s, e);
    t := AcceptedBy(Candidate(s, e), s, e);
  }

  /** A granted permission is taken whenever one is waited for. */
  lemma PermissionIsTaken(s: MachineState, task: Task) returns (t: Step)
    requires Inv(s) && Doing(s, task) && NormalIn(s, AwaitingToolPermission) && s.pending.None?
    ensures Legal(t) && t.before == s && t.event == Signal(PermissionResumeValidated) && Inv(t.after)
  {
    hide Transition;
    hide Enabled;
    hide RuleOf;
    hide Candidate;
    hide CanonicalSets;
    hide Registered;
    PermissionEnabled(s);
    t := AcceptedBy(Candidate(s, Signal(PermissionResumeValidated)), s, Signal(PermissionResumeValidated));
  }
}
