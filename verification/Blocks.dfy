/** A block goes back to one report, is lifted only by evidence about it, and gives back the work it stopped. */
module Blocks {
  import opened Vocabulary
  import opened Violations
  import opened MachineStates
  import opened Events
  import opened Guards
  import opened Rules
  import opened Machine
  import opened Readiness
  import opened Invariant
  import opened Runs
  import opened Driving
  import opened Tasks
  import opened TaskRuns
  import opened UserDecisions
  import opened Outcomes

  /** A step leaves such a block only where there was the same one before, or by raising it. */
  predicate Blocks(s: MachineState, e: Event, a: Applied) {
    a.Next? && Stopped(a.state) ==>
      (a.state.block == s.block && Decided(s, e).None?) || Raises(e, a.state.block.value)
  }

  predicate RaisingRow(rule: Rule) {
    match rule.effect
    case Flow(ProgressStop(_, budget, _)) =>
      && rule.guard.event.VerifiedType? && Reports(rule.guard.event.name)
      && rule.guard.progress == Bounded && budget == BudgetFor(rule.guard.event.name)
    case Flow(DependencyStop) => rule.guard.event == VerifiedType(ExternalDependencyVerified)
    case _ => true
  }

  lemma FlowRaises(w: WorkflowId, d: DecisionId, ci: CiId, g: GateId)
    ensures RaisingRow(WorkflowTable(w)) && RaisingRow(DecisionTable(d)) && RaisingRow(CiTable(ci))
        && RaisingRow(GateTable(g))
  {}

  lemma OtherRaises(id: RuleId)
    requires !id.WorkflowRule? && !id.DecisionRule? && !id.CiRule? && !id.GateRule?
    ensures RaisingRow(RuleOf(id))
  {}

  lemma RowsRaise(id: RuleId)
    ensures RaisingRow(RuleOf(id))
  {
    hide RaisingRow;
    match id
    case WorkflowRule(w) => FlowRaises(w, T14, T22, T33);
    case DecisionRule(d) => FlowRaises(T03, d, T22, T33);
    case CiRule(ci) => FlowRaises(T03, T14, ci, T33);
    case GateRule(g) => FlowRaises(T03, T14, T22, g);
    case _ => OtherRaises(id);
  }

  lemma FlowBlocks(f: FlowEffect, s: MachineState, e: Event)
    requires ShapeInv(s) && FlowReady(f, s, e)
    requires f.ProgressStop? ==> e.Verified? && f.budget == BudgetFor(e.name)
    requires f.DependencyStop? ==> e.Verified? && e.name == ExternalDependencyVerified
    requires f.Produce? ==> Decided(s, e).None?
    ensures Blocks(s, e, ApplyFlow(f, s, e))
  {
    hide Decided;
    hide BudgetFor;
    hide Canon;
    hide Registered;
  }

  lemma MergeBlocks(m: MergeEffect, s: MachineState, e: Event)
    requires ShapeInv(s) && MergeReady(m, s, e)
    requires s.procedure.Normal? ==> MergeFits(m, Decided(s, e))
    ensures Blocks(s, e, ApplyMerge(m, s, e))
  {
    hide Decided;
    hide Canon;
    hide Registered;
    hide Raises;
    ProcedureDecides(s, e);
  }

  lemma ProcedureDecides(s: MachineState, e: Event)
    ensures !s.procedure.Normal? ==> Decided(s, e).None?
  {}

  lemma ResumeBlocks(r: ResumeEffect, s: MachineState, e: Event)
    requires ShapeInv(s) && ResumeReady(r, s, e)
    requires s.procedure.Normal? ==> ResumeFits(r, Decided(s, e))
    ensures Blocks(s, e, ApplyResume(r, s, e))
  {
    hide Decided;
    hide Canon;
    hide Registered;
    hide Raises;
    ProcedureDecides(s, e);
  }

  lemma IntegrityBlocks(i: IntegrityEffect, s: MachineState, e: Event)
    requires ShapeInv(s) && IntegrityReady(i, s, e)
    ensures Blocks(s, e, ApplyIntegrity(i, s, e))
  {
    hide Canon;
    hide Registered;
    hide Raises;
  }

  lemma StepBlocks(t: Step)
    requires Legal(t) && Inv(t.before)
    ensures Blocks(t.before, t.event, Next(t.after, t.commands))
  {
    hide Transition;
    hide ShapeInv;
    hide CanonicalSets;
    hide Enabled;
    hide RuleOf;
    hide Blocks;
    hide FlowReady;
    hide MergeReady;
    hide ResumeReady;
    hide IntegrityReady;
    hide MergeFits;
    hide ResumeFits;
    hide Detects;
    hide BudgetFor;
    hide Reports;
    var id := StepEffect(t);
    EnabledGuard(id, t.before, t.event);
    RowsRaise(id);
    RowsFit(id);
    DecidedByRow(id, t.before, t.event);
    match RuleOf(id).effect
    case Flow(f) => FlowBlocks(f, t.before, t.event);
    case Merge(m) => MergeBlocks(m, t.before, t.event);
    case Resume(r) => ResumeBlocks(r, t.before, t.event);
    case Integrity(i) => IntegrityBlocks(i, t.before, t.event);
  }

  /** Every progress or dependency block of a run goes back to the report that raised it, with nothing decided since. */
  lemma {:induction false} BlockWasRaised(preflightOk: bool, run: seq<Step>) returns (k: nat)
    requires RunFrom(Initialize(preflightOk).0, run) && Stopped(EndOf(Initialize(preflightOk).0, run))
    ensures k < |run| && Raises(run[k].event, EndOf(Initialize(preflightOk).0, run).block.value)
    ensures QuietBetween(run, k, |run|)
  {
    hide Inv;
    hide Legal;
    hide Raises;
    hide Decided;
    InitialTask(preflightOk);
    RunPreserves(Initialize(preflightOk).0, run);
    var last := run[|run| - 1];
    StepBlocks(last);
    if Raises(last.event, last.after.block.value) {
      k := |run| - 1;
    } else {
      var init := run[..|run| - 1];
      assert last.before == EndOf(Initialize(preflightOk).0, init);
      k := BlockWasRaised(preflightOk, init);
      assert init[k] == run[k];
      forall j: nat | k < j < |run| ensures Decided(run[j].before, run[j].event).None? {
        if j < |run| - 1 { assert init[j] == run[j]; }
      }
    }
  }

  // ---- resolutions ----

  predicate Lifts(e: Event) {
    e.BlockResolved? && (e.route.LimitRaised? || e.route.Intervention?)
  }

  /** The resolution speaks of this very report, by the route that its reason demands. */
  predicate Lifted(route: ResolutionRoute, res: Resolution, raised: Event) {
    && raised.Verified? && res.targetBlock == raised.evidence.binding && res.violationBindings.None?
    && match raised.detail
       case WithReport(report) =>
         && res.head == report.head && res.reason == Some(report.progress) && res.budget == Some(BudgetFor(raised.name))
         && res.snapshot == Some(report.snapshot) && res.fingerprint == Some(report.fingerprint)
         && (route.LimitRaised? <==> report.progress == LimitReached)
       case WithHead(head) =>
         && res.head == head && route.Intervention?
         && res.reason.None? && res.budget.None? && res.snapshot.None? && res.fingerprint.None?
       case _ => false
  }

  lemma LiftingRule(t: Step)
    requires Legal(t) && Lifts(t.event)
    ensures t.before.procedure.Normal? && t.before.state == Blocked && ResolutionMatches(t.before, t.event.resolution)
    ensures Apply(Integrity(Replay), t.before, t.event) == Next(t.after, t.commands)
    ensures Stopped(t.before)
    ensures t.event.route.LimitRaised? ==> BlockReasonKey(t.before) == Some(LimitReached)
    ensures t.event.route.Intervention? ==> BlockReasonKey(t.before) != Some(LimitReached)
  {
    hide Transition;
    hide Apply;
    hide CoverageKey;
    hide PendingKey;
    hide ProgressKey;
    hide VerifiedCandidate;
    hide SignalCandidate;
    hide ProducedCandidate;
    hide DetectionCandidate;
    CandidateActs(t);
    hide ResolutionMatches;
  }

  lemma LiftedRaised(s: MachineState, route: ResolutionRoute, res: Resolution, raised: Event)
    requires Stopped(s) && ResolutionMatches(s, res) && Raises(raised, s.block.value)
    requires route.LimitRaised? || route.Intervention?
    requires route.LimitRaised? ==> BlockReasonKey(s) == Some(LimitReached)
    requires route.Intervention? ==> BlockReasonKey(s) != Some(LimitReached)
    ensures Lifted(route, res, raised)
  {}

  /** A block is lifted only by evidence about the very report or dependency that raised it. */
  lemma LiftedByEvidence(preflightOk: bool, run: seq<Step>, n: nat) returns (k: nat)
    requires RunFrom(Initialize(preflightOk).0, run) && n < |run| && Lifts(run[n].event)
    ensures k < n && QuietBetween(run, k, n) && Lifted(run[n].event.route, run[n].event.resolution, run[k].event)
  {
    hide Legal;
    hide Raises;
    hide Lifted;
    hide Decided;
    hide ResolutionMatches;
    LiftingRule(run[n]);
    assert EndOf(Initialize(preflightOk).0, run[..n]) == run[n].before;
    k := BlockWasRaised(preflightOk, run[..n]);
    assert run[..n][k] == run[k];
    LiftedRaised(run[n].before, run[n].event.route, run[n].event.resolution, run[k].event);
    forall j: nat | k < j < n ensures Decided(run[j].before, run[j].event).None? {
      assert run[..n][j] == run[j];
    }
  }

  // ---- what an interruption gives back ----

  predicate EndsInterruption(t: Step) {
    Lifts(t.event) || (t.before.procedure.Normal? && t.event == Signal(PermissionResumeValidated))
  }

  lemma RegisteredReissues(c: BlockedContinuation)
    requires Registered(c)
    ensures Reissues(c)
  {
    var id :| c == ContinuationOf(id);
  }

  lemma ReplayLeads(s: MachineState, e: Event, task: Task)
    requires ShapeInv(s) && NormalIn(s, Blocked) && Stopped(s) && Doing(s, task)
    ensures AwaitedIn(task).Some?
    ensures var c := s.block.value.continuation;
            && Asked(c.commands) == AwaitingCommands(AwaitedIn(task).value)
            && ApplyIntegrity(Replay, s, e) ==
               Next(MachineState(StateOf(task), awaiting := AwaitedIn(task)), c.commands)
  {
    hide Answers;
    hide Canon;
    hide StateOf;
    hide AwaitedIn;
    RegisteredReissues(s.block.value.continuation);
    hide Registered;
  }

  lemma PermissionRule(t: Step)
    requires Legal(t) && t.before.procedure.Normal? && t.event == Signal(PermissionResumeValidated)
    ensures t.before.state == AwaitingToolPermission && t.before.pending.None?
    ensures Apply(Flow(PermissionResume), t.before, t.event) == Next(t.after, t.commands)
  {
    hide Transition;
    hide Apply;
    hide CoverageKey;
    hide BindingKey;
    hide VerifiedCandidate;
    hide ProducedCandidate;
    hide DetectionCandidate;
    CandidateActs(t);
  }

  lemma PermissionLeads(s: MachineState, e: Event, task: Task)
    requires ShapeInv(s) && NormalIn(s, AwaitingToolPermission) && s.pending.None? && Doing(s, task)
    ensures AwaitedIn(task).Some? && ApplyFlow(PermissionResume, s, e) ==
            Next(MachineState(StateOf(task), awaiting := AwaitedIn(task)), AwaitingCommands(AwaitedIn(task).value))
    ensures Asked(AwaitingCommands(AwaitedIn(task).value)) == AwaitingCommands(AwaitedIn(task).value)
  {
    hide Answers;
    hide Canon;
  }

  /** A lifted block or a granted permission asks again for exactly the work that the last decision of the run set. */
  lemma WorkResumes(preflightOk: bool, run: seq<Step>, n: nat)
    requires RunFrom(Initialize(preflightOk).0, run) && n < |run| && EndsInterruption(run[n])
    ensures var task := TaskOf(run[..n]);
            && AwaitedIn(task).Some?
            && run[n].after == MachineState(StateOf(task), awaiting := AwaitedIn(task))
            && Asked(run[n].commands) == AwaitingCommands(AwaitedIn(task).value)
  {
    hide Legal;
    hide TaskOf;
    hide Doing;
    hide ShapeInv;
    hide CanonicalSets;
    hide StateOf;
    hide AwaitedIn;
    hide ResolutionMatches;
    var t, task := run[n], TaskOf(run[..n]);
    TaskBefore(preflightOk, run, n);
    if Lifts(t.event) {
      LiftingRule(t);
      ReplayLeads(t.before, t.event, task);
    } else {
      PermissionRule(t);
      PermissionLeads(t.before, t.event, task);
    }
  }
}
