/** Every run does the task that its last deciding event set, and accepts only what answers it. */
module TaskRuns {
  import opened Vocabulary
  import opened Violations
  import opened MachineStates
  import opened Events
  import opened Guards
  import opened Rules
  import opened Machine
  import opened Readiness
  import opened Invariant
  import opened Runs
  import opened Tasks

  /** The task of a run is that of its last deciding event; a run starts with a review. */
  function TaskOf(run: seq<Step>): Task {
    if run == [] then ReviewChanges
    else After(run[|run| - 1].before, run[|run| - 1].event, TaskOf(run[..|run| - 1]))
  }

  // ---- one step ----

  lemma EnabledGuard(id: RuleId, s: MachineState, e: Event)
    requires Enabled(id, s, e)
    ensures var guard := RuleOf(id).guard;
            && StateAllowed(guard.states, s.state) && TypeOf(e) == guard.event
            && AwaitingAllowed(guard.awaiting, s.awaiting) && PendingAllowed(guard.pending, PendingKey(s, e))
            && (guard.recordKind.None? || (e.RecordProduced? && guard.recordKind == Some(e.kind)))
            && ProcedureKindOf(s) == guard.procedure
  {
    hide RuleOf;
    hide StateAllowed;
    hide AwaitingAllowed;
    hide PendingAllowed;
    hide PendingKey;
    hide TypeOf;
    hide BindingKey;
    hide CoverageKey;
  }

  lemma FlowGoesOn(f: FlowEffect, id: RuleId, s: MachineState, e: Event, task: Task)
    requires Enabled(id, s, e) && RuleOf(id).effect == Flow(f) && Fits(RuleOf(id))
    requires ShapeInv(s) && FlowReady(f, s, e) && Doing(s, task)
    ensures GoesOn(s, e, task, ApplyFlow(f, s, e))
  {
    hide Enabled;
    hide RuleOf;
    hide ShapeInv;
    hide AnswersAwaited;
    hide GoesOn;
    hide Doing;
    EnabledGuard(id, s, e);
    DecidedByRow(id, s, e);
    match f
    case Advance(_, _, _) => AdvanceGoesOn(f, s, e, task);
    case Produce(_) => ProduceGoesOn(f, RuleOf(id).guard, s, e, task);
    case ProgressStop(_, _, _) => StopGoesOn(f, s, e, task);
    case _ => PermissionGoesOn(f, s, e, task);
  }

  lemma MergeGoesOn(m: MergeEffect, s: MachineState, e: Event, task: Task)
    requires ShapeInv(s) && MergeReady(m, s, e) && Doing(s, task)
    requires s.procedure.Normal? ==> MergeFits(m, Decided(s, e))
    ensures GoesOn(s, e, task, ApplyMerge(m, s, e))
  {
    hide ShapeInv;
    hide Doing;
    hide GoesOn;
    hide Decided;
    match m
    case MergeStep(_, _, _) => OutcomeGoesOn(m, s, e, task);
    case ToMerging => GateGoesOn(m, s, e, task);
    case CancelQuery => QueryGoesOn(s, e, task);
    case ReturnToGate => GateGoesOn(m, s, e, task);
    case FreshReview => FreshGoesOn(s, e, task);
    case _ => CancelGoesOn(m, s, e, task);
  }

  /** A step does the task it decides on, or goes on with the one before. */
  lemma StepGoesOn(t: Step, task: Task)
    requires Legal(t) && Inv(t.before) && Doing(t.before, task)
    ensures Doing(t.after, After(t.before, t.event, task))
  {
    hide Legal;
    hide ShapeInv;
    hide CanonicalSets;
    hide Enabled;
    hide RuleOf;
    hide Doing;
    hide After;
    hide Decided;
    hide FlowFits;
    hide MergeFits;
    hide ResumeFits;
    var id := StepEffect(t);
    RowsFit(id);
    DecidedByRow(id, t.before, t.event);
    match RuleOf(id).effect
    case Flow(f) => FlowGoesOn(f, id, t.before, t.event, task);
    case Merge(m) => MergeGoesOn(m, t.before, t.event, task);
    case Resume(r) => ResumeGoesOn(r, t.before, t.event, task);
    case Integrity(i) => IntegrityGoesOn(i, t.before, t.event, task);
  }

  // ---- what a step may answer ----

  /** The tasks during which a signal means something; failures, resumes and permissions come at any time. */
  predicate Signals(signal: SignalName, task: Task) {
    match signal
    case FixStarted => task.StudyFindings?
    case CiSucceeded => task.WatchChecks?
    case CiInfraFailure => task.WatchChecks?
    case CiResumeRequested => task.WatchChecks? || task.PauseForChecks?
    case ReportFailureSignal => task.WriteTheReport?
    case ReporterRetryRequested => task.RetryTheReport?
    case MergePreconditionsOk => task.CheckBeforeMerge?
    case MergePreconditionMismatch => task.CheckBeforeMerge?
    case MergeConfirmed => task.LearnMerged? || task.LearnCancelled? || task.LearnFailed?
    case MergeNotExecutedConfirmed => task.LearnCancelled? || task.LearnFailed?
    case MergeOutcomeUnknown => task.LearnMerged? || task.LearnCancelled? || task.LearnFailed?
    case HeadChangedExternally =>
      || task.WatchChecks? || task.PauseForChecks? || task.HoldTheGate? || task.AnswerAtGate?
      || task.CheckBeforeMerge? || task.SettleFailedMerge?
    case ResumeSameHeadValidated => task.SettleFailedMerge?
    case _ => true
  }

  predicate AnyTime(signal: SignalName) {
    signal.RunFailed? || signal.ResumeValidated? || signal.ResumeFallbackRequired? || signal.PermissionResumeValidated?
  }

  /** What an event may answer outside a procedure. */
  predicate Fitting(e: Event, task: Task) {
    match e
    case RecordProduced(kind, _) => Aside(kind) || Answers(kind, task)
    case Verified(name, _, _) => Aside(ExpectedKind(name)) || Answers(ExpectedKind(name), task)
    case Signal(signal) => Signals(signal, task)
    case _ => true
  }

  /** The same for a row: it names a state and a response whose tasks the event answers. */
  predicate SignalsAwaited(signal: SignalName, state: State, awaited: AwaitingFilter) {
    forall task: Task ::
      StateOf(task) == state && AwaitingAllowed(awaited, AwaitedIn(task)) ==> Signals(signal, task)
  }

  predicate AnswerRow(guard: Match) {
    match guard.event
    case ProducedType =>
      && guard.recordKind.Some? && var kind := guard.recordKind.value;
      && (Aside(kind) || (guard.states.Only? && Plain(guard.states.only) && guard.pending == WhenAbsent
                          && AnswersAwaited(kind, guard.states.only, guard.awaiting)))
    case VerifiedType(name) =>
      var kind := ExpectedKind(name);
      || Aside(kind)
      || (&& guard.states.Only? && Plain(guard.states.only)
          && (guard.pending == WhenMatched
              || (guard.pending == WhenAbsent && AnswersAwaited(kind, guard.states.only, guard.awaiting))))
    case SignalType(signal) =>
      || AnyTime(signal)
      || (&& guard.states.Only? && (Plain(guard.states.only) || guard.states.only == Merging)
          && guard.pending == WhenAbsent && SignalsAwaited(signal, guard.states.only, guard.awaiting))
    case _ => true
  }

  predicate AnsweringRow(rule: Rule) {
    rule.guard.procedure == NormalKind ==> AnswerRow(rule.guard)
  }

  lemma WorkflowAnswers(w: WorkflowId)
    ensures AnsweringRow(WorkflowTable(w))
  {}

  lemma DecisionAnswers(d: DecisionId)
    ensures AnsweringRow(DecisionTable(d))
  {}

  lemma CiAnswers(ci: CiId)
    ensures AnsweringRow(CiTable(ci))
  {}

  lemma GateAnswers(g: GateId)
    ensures AnsweringRow(GateTable(g))
  {}

  lemma MergeStepAnswers(m: MergeId)
    requires m.M32a? || m.M32b? || m.M34? || m.M35? || m.M36? || m.MSH? || m.MHC?
    ensures AnsweringRow(MergeTable(m))
  {}

  lemma OutcomeAnswers(m: MergeId)
    requires !(m.M32a? || m.M32b? || m.M34? || m.M35? || m.M36? || m.MSH? || m.MHC?)
    ensures AnsweringRow(MergeTable(m))
  {
    hide Answers;
    hide AnswersAwaited;
  }

  lemma ProducedAnswers(p: ProducedId)
    ensures AnsweringRow(ProducedTable(p))
  {}

  lemma InputAnswers(u: InputId)
    ensures AnsweringRow(InputTable(u))
  {}

  lemma ResumeAnswers(id: RuleId)
    requires id.CancelRule? || id.ProcedureRule? || id.ResumeRule?
    ensures AnsweringRow(RuleOf(id))
  {
    hide Answers;
    hide AnswersAwaited;
  }

  lemma IncidentAnswers(id: RuleId)
    requires id.DetectionRule? || id.IncidentRule? || id.BlockRule?
    ensures AnsweringRow(RuleOf(id))
  {
    hide Answers;
    hide AnswersAwaited;
  }

  lemma RowsAnswer(id: RuleId)
    ensures AnsweringRow(RuleOf(id))
  {
    hide AnsweringRow;
    match id
    case WorkflowRule(w) => WorkflowAnswers(w);
    case DecisionRule(d) => DecisionAnswers(d);
    case CiRule(ci) => CiAnswers(ci);
    case GateRule(g) => GateAnswers(g);
    case MergeRule(m) =>
      if m.M32a? || m.M32b? || m.M34? || m.M35? || m.M36? || m.MSH? || m.MHC? { MergeStepAnswers(m); }
      else { OutcomeAnswers(m); }
    case ProducedRule(p) => ProducedAnswers(p);
    case InputRule(u) => InputAnswers(u);
    case CancelRule(_) => ResumeAnswers(id);
    case ProcedureRule(_, _) => ResumeAnswers(id);
    case ResumeRule(_) => ResumeAnswers(id);
    case _ => IncidentAnswers(id);
  }

  lemma GuardAnswers(guard: Match, s: MachineState, e: Event, task: Task)
    requires AnswerRow(guard) && ShapeInv(s) && Doing(s, task) && s.procedure.Normal? && !Terminal(s.state)
    requires StateAllowed(guard.states, s.state) && TypeOf(e) == guard.event && Events.Constructible(e)
    requires AwaitingAllowed(guard.awaiting, s.awaiting) && PendingAllowed(guard.pending, PendingKey(s, e))
    requires guard.recordKind.None? || (e.RecordProduced? && guard.recordKind == Some(e.kind))
    ensures Fitting(e, task)
  {
    hide Answers;
    hide StateOf;
    hide AwaitedIn;
    hide Registered;
    hide Canon;
  }

  /** Outside a procedure, a step is accepted only if its event answers the task. */
  lemma StepAnswers(t: Step, task: Task)
    requires Legal(t) && Inv(t.before) && Doing(t.before, task) && t.before.procedure.Normal?
    ensures Fitting(t.event, task)
  {
    hide Transition;
    hide ShapeInv;
    hide CanonicalSets;
    hide Enabled;
    hide RuleOf;
    hide Doing;
    hide Fitting;
    hide AnswerRow;
    hide StateAllowed;
    hide AwaitingAllowed;
    hide PendingAllowed;
    hide PendingKey;
    var id := StepEffect(t);
    RowsAnswer(id);
    EnabledGuard(id, t.before, t.event);
    GuardAnswers(RuleOf(id).guard, t.before, t.event, task);
  }

  // ---- whole runs ----

  lemma InitialTask(preflightOk: bool)
    ensures Inv(Initialize(preflightOk).0) && Doing(Initialize(preflightOk).0, ReviewChanges)
  {
    hide Inv;
    InitialInv(preflightOk);
  }

  /** Every run does the task of its last deciding event: in its state, and waiting for its response or its record. */
  lemma {:induction false} RunDoesTask(preflightOk: bool, run: seq<Step>)
    requires RunFrom(Initialize(preflightOk).0, run)
    ensures Doing(EndOf(Initialize(preflightOk).0, run), TaskOf(run))
  {
    hide Inv;
    hide Legal;
    hide Doing;
    hide After;
    InitialTask(preflightOk);
    if run != [] {
      var init, last := run[..|run| - 1], run[|run| - 1];
      RunDoesTask(preflightOk, init);
      RunPreserves(Initialize(preflightOk).0, run);
      assert last.before == EndOf(Initialize(preflightOk).0, init);
      StepGoesOn(last, TaskOf(init));
    }
  }

  /** The prefix of a run is a run, it ends where the next step begins, and it does its task there. */
  lemma TaskBefore(preflightOk: bool, run: seq<Step>, i: nat)
    requires RunFrom(Initialize(preflightOk).0, run) && i < |run|
    ensures Legal(run[i]) && Inv(run[i].before) && Doing(run[i].before, TaskOf(run[..i]))
    ensures TaskOf(run[..i + 1]) == After(run[i].before, run[i].event, TaskOf(run[..i]))
  {
    hide Inv;
    hide Legal;
    hide Doing;
    hide After;
    InitialTask(preflightOk);
    RunPreserves(Initialize(preflightOk).0, run);
    RunDoesTask(preflightOk, run[..i]);
    assert run[i].before == EndOf(Initialize(preflightOk).0, run[..i]);
    assert run[..i + 1][..i] == run[..i];
  }

  /** Every event that a run accepts outside a procedure answers the task of the run before it. */
  lemma RunAnswers(preflightOk: bool, run: seq<Step>, i: nat)
    requires RunFrom(Initialize(preflightOk).0, run) && i < |run| && run[i].before.procedure.Normal?
    ensures Fitting(run[i].event, TaskOf(run[..i]))
  {
    hide Inv;
    hide Legal;
    hide Doing;
    hide TaskOf;
    hide Fitting;
    TaskBefore(preflightOk, run, i);
    StepAnswers(run[i], TaskOf(run[..i]));
  }
}
