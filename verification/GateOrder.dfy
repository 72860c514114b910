/** A merge is executed only behind the whole sequence of gates, each passed since the last invalidation. */
module GateOrder {
  import opened Vocabulary
  import opened Violations
  import opened MachineStates
  import opened Events
  import opened Guards
  import opened Rules
  import opened Machine
  import opened Readiness
  import opened Invariant
  import opened Runs

  /** The gates already passed: 1 review, 2 and CI, 3 and report, 4 and human approval. */
  function PlainStage(s: State): nat {
    match s
    case WaitingCi => 1
    case GeneratingReport => 2
    case ReportFailed => 2
    case ReadyForHumanMerge => 3
    case MergeFailed => 3
    case _ => 0
  }

  /** A failed run keeps the stage it will resume in; an invalidated merge outcome keeps none. */
  function Stage(s: MachineState): nat {
    if !s.procedure.Normal? then 0
    else match s.state
         case Merging => if s.awaiting == Some(MergePreconditions) then 4 else if s.deferred == [] then 3 else 0
         case Failed => if s.recoveryTo.Some? then PlainStage(s.recoveryTo.value) else 0
         case state => PlainStage(state)
  }

  /** The event that passes each gate. */
  function GateEvent(stage: nat): EventType {
    if stage <= 1 then VerifiedType(ReviewApprovedVerified)
    else if stage == 2 then SignalType(CiSucceeded)
    else if stage == 3 then VerifiedType(ReportVerified)
    else VerifiedType(MergeApprovalVerified)
  }

  /** One gate at a time; an invalidation loses all of them; executing a merge uses up the approval. */
  predicate Gated(p: nat, e: Event, q: nat, commands: seq<Command>) {
    && (q <= p || (q == p + 1 && TypeOf(e) == GateEvent(q)))
    && (InvalidateApprovals in commands ==> q == 0)
    && (ExecuteMerge in commands ==> p == 4 && q == 3 && e == Signal(MergePreconditionsOk))
  }

  predicate GatedAs(s: MachineState, e: Event, a: Applied) {
    a.Next? && Gated(Stage(s), e, Stage(a.state), a.commands)
  }

  /** The same for a row of the registry that advances between plain states. */
  predicate GatedRow(rule: Rule) {
    rule.effect.Flow? && rule.effect.f.Advance? ==>
      && rule.guard.states.Only?
      && var p := PlainStage(rule.guard.states.only);
      && var q := PlainStage(if rule.effect.f.to.None? then rule.guard.states.only else rule.effect.f.to.value);
      && (q <= p || (q == p + 1 && rule.guard.event == GateEvent(q)))
      && (InvalidateApprovals in rule.effect.f.commands ==> q == 0)
      && ExecuteMerge !in rule.effect.f.commands
  }

  predicate StopRowQuiet(rule: Rule) {
    rule.effect.Flow? && rule.effect.f.ProgressStop? ==> ExecuteMerge !in rule.effect.f.entry
  }

  lemma WorkflowGatedRows(w: WorkflowId)
    ensures GatedRow(WorkflowTable(w)) && StopRowQuiet(WorkflowTable(w))
  {}

  lemma DecisionGatedRows(d: DecisionId)
    ensures GatedRow(DecisionTable(d)) && StopRowQuiet(DecisionTable(d))
  {}

  lemma CiGatedRows(ci: CiId)
    ensures GatedRow(CiTable(ci)) && StopRowQuiet(CiTable(ci))
  {}

  lemma GateGatedRows(g: GateId)
    ensures GatedRow(GateTable(g)) && StopRowQuiet(GateTable(g))
  {}

  lemma OtherGatedRows(id: RuleId)
    requires !id.WorkflowRule? && !id.DecisionRule? && !id.CiRule? && !id.GateRule?
    ensures GatedRow(RuleOf(id)) && StopRowQuiet(RuleOf(id))
  {}

  lemma GatedRows(id: RuleId)
    ensures GatedRow(RuleOf(id)) && StopRowQuiet(RuleOf(id))
  {
    hide GatedRow;
    hide StopRowQuiet;
    match id
    case WorkflowRule(w) => WorkflowGatedRows(w);
    case DecisionRule(d) => DecisionGatedRows(d);
    case CiRule(ci) => CiGatedRows(ci);
    case GateRule(g) => GateGatedRows(g);
    case _ => OtherGatedRows(id);
  }

  lemma EnabledBasics(id: RuleId, s: MachineState, e: Event)
    requires Enabled(id, s, e)
    ensures StateAllowed(RuleOf(id).guard.states, s.state) && TypeOf(e) == RuleOf(id).guard.event
  {
    hide RuleOf;
    hide DeriveGuardKey;
    hide StateAllowed;
    hide TypeOf;
  }

  lemma AdvanceGated(rule: Rule, s: MachineState, e: Event)
    requires rule.effect.Flow? && rule.effect.f.Advance? && GatedRow(rule)
    requires StateAllowed(rule.guard.states, s.state) && TypeOf(e) == rule.guard.event
    requires Ready(rule.effect, s, e)
    ensures GatedAs(s, e, Apply(rule.effect, s, e))
  {}

  lemma FlowGated(f: FlowEffect, s: MachineState, e: Event)
    requires !f.Advance? && (f.ProgressStop? ==> ExecuteMerge !in f.entry)
    requires ShapeInv(s) && FlowReady(f, s, e) && ApplyFlow(f, s, e).Next?
    ensures GatedAs(s, e, ApplyFlow(f, s, e))
  {
    hide Registered;
    hide Canon;
    hide GateEvent;
  }

  lemma MergeStepGated(m: MergeEffect, s: MachineState, e: Event)
    requires m.MergeStep?
    requires ShapeInv(s) && MergeReady(m, s, e) && ApplyMerge(m, s, e).Next?
    ensures GatedAs(s, e, ApplyMerge(m, s, e))
  {
    hide Registered;
    hide Canon;
    hide GateEvent;
  }

  lemma MergeGated(m: MergeEffect, s: MachineState, e: Event)
    requires !m.MergeStep?
    requires ShapeInv(s) && MergeReady(m, s, e) && ApplyMerge(m, s, e).Next?
    ensures GatedAs(s, e, ApplyMerge(m, s, e))
  {
    hide Registered;
    hide Canon;
  }

  lemma ResumeGated(r: ResumeEffect, s: MachineState, e: Event)
    requires ShapeInv(s) && ResumeReady(r, s, e) && ApplyResume(r, s, e).Next?
    ensures GatedAs(s, e, ApplyResume(r, s, e))
  {
    hide Registered;
    hide Canon;
    hide GateEvent;
  }

  lemma IntegrityGated(i: IntegrityEffect, s: MachineState, e: Event)
    requires !i.DetectUnion?
    requires ShapeInv(s) && IntegrityReady(i, s, e) && ApplyIntegrity(i, s, e).Next?
    ensures GatedAs(s, e, ApplyIntegrity(i, s, e))
  {
    hide Canon;
    hide GateEvent;
  }

  lemma DetectUnionGated(i: IntegrityEffect, s: MachineState, e: Event)
    requires i.DetectUnion?
    requires ShapeInv(s) && IntegrityReady(i, s, e) && ApplyIntegrity(i, s, e).Next?
    ensures GatedAs(s, e, ApplyIntegrity(i, s, e))
  {
    hide Registered;
    hide Canon;
    hide GateEvent;
    UnionNonempty(s.deferred, e.violation);
  }

  lemma EffectGated(rule: Rule, s: MachineState, e: Event)
    requires GatedRow(rule) && StopRowQuiet(rule)
    requires StateAllowed(rule.guard.states, s.state) && TypeOf(e) == rule.guard.event
    requires ShapeInv(s) && Ready(rule.effect, s, e) && Apply(rule.effect, s, e).Next?
    ensures GatedAs(s, e, Apply(rule.effect, s, e))
  {
    hide ShapeInv;
    hide GatedRow;
    hide GatedAs;
    hide StateAllowed;
    match rule.effect
    case Flow(f) =>
      if f.Advance? {
        AdvanceGated(rule, s, e);
      } else {
        FlowGated(f, s, e);
      }
    case Merge(m) =>
      if m.MergeStep? {
        MergeStepGated(m, s, e);
      } else {
        MergeGated(m, s, e);
      }
    case Resume(r) => ResumeGated(r, s, e);
    case Integrity(i) =>
      if i.DetectUnion? {
        DetectUnionGated(i, s, e);
      } else {
        IntegrityGated(i, s, e);
      }
  }

  lemma StepGated(t: Step)
    requires Legal(t) && Inv(t.before)
    ensures Gated(Stage(t.before), t.event, Stage(t.after), t.commands)
  {
    hide Legal;
    hide ShapeInv;
    hide CanonicalSets;
    hide Enabled;
    hide Ready;
    hide Apply;
    hide RuleOf;
    hide Stage;
    hide Gated;
    var id := StepEffect(t);
    GatedRows(id);
    EnabledBasics(id, t.before, t.event);
    EffectGated(RuleOf(id), t.before, t.event);
  }

  // ---- over whole runs ----

  /** The steps at which the gates were passed, in order, with no invalidation since the first of them. */
  ghost predicate Passed(run: seq<Step>, gates: seq<int>) {
    && |gates| <= 4
    && (forall j :: 0 <= j < |gates| ==> 0 <= gates[j] < |run| && TypeOf(run[gates[j]].event) == GateEvent(j + 1))
    && (forall j :: 0 < j < |gates| ==> gates[j - 1] < gates[j])
    && (gates != [] ==> forall k :: gates[0] <= k < |run| ==> InvalidateApprovals !in run[k].commands)
    && (|gates| == 4 ==> forall k :: gates[3] <= k < |run| ==> ExecuteMerge !in run[k].commands)
  }

  function NextGates(gates: seq<int>, q: nat, at: nat): seq<int> {
    if q <= |gates| then gates[..q] else gates + [at]
  }

  lemma GatesQuiet(init: seq<Step>, last: Step, gates: seq<int>, q: nat)
    requires Passed(init, gates) && Gated(|gates|, last.event, q, last.commands) && q <= 4
    ensures var run, next := init + [last], NextGates(gates, q, |init|);
            && (next != [] ==> forall k :: 0 <= next[0] <= k < |run| ==> InvalidateApprovals !in run[k].commands)
            && (|next| == 4 ==> forall k :: 0 <= next[3] <= k < |run| ==> ExecuteMerge !in run[k].commands)
  {
    hide GateEvent;
    hide TypeOf;
    var run, next := init + [last], NextGates(gates, q, |init|);
    assert forall k :: 0 <= k < |init| ==> run[k] == init[k];
    assert run[|init|] == last;
  }

  lemma GatesExtend(init: seq<Step>, last: Step, gates: seq<int>, q: nat)
    requires Passed(init, gates) && Gated(|gates|, last.event, q, last.commands) && q <= 4
    ensures Passed(init + [last], NextGates(gates, q, |init|)) && |NextGates(gates, q, |init|)| == q
  {
    hide GateEvent;
    hide TypeOf;
    GatesQuiet(init, last, gates, q);
    var run := init + [last];
    assert forall j :: 0 <= j < |gates| ==> run[gates[j]] == init[gates[j]];
  }

  lemma StageBound(s: MachineState)
    ensures Stage(s) <= 4
  {}

  /** Every run has passed exactly the gates that its stage stands for. */
  lemma {:induction false} GatesPassed(s: MachineState, run: seq<Step>) returns (gates: seq<int>)
    requires Inv(s) && Stage(s) == 0 && RunFrom(s, run)
    ensures Passed(run, gates) && |gates| == Stage(EndOf(s, run))
    decreases |run|
  {
    hide Inv;
    hide Legal;
    hide Stage;
    hide Gated;
    hide NextGates;
    hide Passed;
    if run == [] {
      gates := [];
      assert Passed(run, gates) by { NothingPassed(run); }
    } else {
      var init, last := run[..|run| - 1], run[|run| - 1];
      RunPreserves(s, run);
      StepGated(last);
      assert last.before == EndOf(s, init);
      var earlier := GatesPassed(s, init);
      StageBound(last.after);
      GatesExtend(init, last, earlier, Stage(last.after));
      gates := NextGates(earlier, Stage(last.after), |init|);
      assert run == init + [last];
    }
  }

  lemma NothingPassed(run: seq<Step>)
    ensures Passed(run, [])
  {}

  lemma InitialStage(preflightOk: bool)
    ensures Stage(Initialize(preflightOk).0) == 0
  {}

  /**
   * Gate order: an executed merge answers a precondition check, and before it, in this order and with nothing
   * invalidated since, a review was approved, CI succeeded, the report was verified and the merge was approved by a
   * human.
   */
  lemma MergeIsGated(s: MachineState, run: seq<Step>, k: int) returns (gates: seq<int>)
    requires Inv(s) && Stage(s) == 0 && RunFrom(s, run)
    requires 0 <= k < |run| && ExecuteMerge in run[k].commands
    ensures Passed(run[..k], gates) && |gates| == 4
    ensures run[k].event == Signal(MergePreconditionsOk) && InvalidateApprovals !in run[k].commands
  {
    hide Inv;
    hide Legal;
    hide Stage;
    hide Passed;
    RunPreserves(s, run);
    StepGated(run[k]);
    var init := run[..k];
    assert EndOf(s, init) == run[k].before;
    gates := GatesPassed(s, init);
  }

  /** No two executed merges share one approval: between them another human approval was verified. */
  lemma MergesNeedOwnApproval(s: MachineState, run: seq<Step>, j: int, k: int) returns (approval: int)
    requires Inv(s) && Stage(s) == 0 && RunFrom(s, run)
    requires 0 <= j < k < |run| && ExecuteMerge in run[j].commands && ExecuteMerge in run[k].commands
    ensures j < approval < k && TypeOf(run[approval].event) == VerifiedType(MergeApprovalVerified)
  {
    hide Inv;
    hide Legal;
    hide Stage;
    var gates := MergeIsGated(s, run, k);
    approval := gates[3];
    assert run[..k][approval] == run[approval];
    assert run[..k][j] == run[j];
    assert j != approval by {
      RunPreserves(s, run);
      StepGated(run[j]);
    }
  }

  // ---- the converse: no gate is lost silently ----

  /** Passed gates are given up only by revoking the approvals, by a stop or by the end of the run. */
  predicate Revokes(p: nat, after: MachineState, commands: seq<Command>) {
    p >= 1 && Stage(after) == 0 ==> InvalidateApprovals in commands || !after.procedure.Normal? || Terminal(after.state)
  }

  predicate RevokesAs(s: MachineState, a: Applied) {
    a.Next? && Revokes(Stage(s), a.state, a.commands)
  }

  /** The same for a row that leaves a plain state without a merge effect. */
  predicate RevokingRow(rule: Rule) {
    rule.effect.Flow? && !rule.effect.f.Produce? && !rule.effect.f.PermissionResume? ==>
      && rule.guard.states.Only?
      && var f, p := rule.effect.f, PlainStage(rule.guard.states.only);
      && match f
         case Advance(to, _, commands) =>
           var target := if to.None? then rule.guard.states.only else to.value;
           p >= 1 && PlainStage(target) == 0 ==> InvalidateApprovals in commands
         case ProgressStop(_, _, entry) => p >= 1 ==> InvalidateApprovals in entry
         case _ => p == 0
  }

  lemma WorkflowRevokingRows(w: WorkflowId, d: DecisionId)
    ensures RevokingRow(WorkflowTable(w)) && RevokingRow(DecisionTable(d))
  {}

  lemma CiRevokingRows(ci: CiId, g: GateId)
    ensures RevokingRow(CiTable(ci)) && RevokingRow(GateTable(g))
  {}

  lemma OtherRevokingRows(id: RuleId)
    requires !id.WorkflowRule? && !id.DecisionRule? && !id.CiRule? && !id.GateRule?
    ensures RevokingRow(RuleOf(id))
  {}

  lemma RevokingRows(id: RuleId)
    ensures RevokingRow(RuleOf(id))
  {
    hide RevokingRow;
    match id
    case WorkflowRule(w) => WorkflowRevokingRows(w, T14);
    case DecisionRule(d) => WorkflowRevokingRows(T03, d);
    case CiRule(ci) => CiRevokingRows(ci, T33);
    case GateRule(g) => CiRevokingRows(T22, g);
    case _ => OtherRevokingRows(id);
  }

  lemma FlowRevokes(rule: Rule, s: MachineState, e: Event)
    requires rule.effect.Flow? && RevokingRow(rule) && StateAllowed(rule.guard.states, s.state)
    requires ShapeInv(s) && FlowReady(rule.effect.f, s, e) && ApplyFlow(rule.effect.f, s, e).Next?
    ensures RevokesAs(s, ApplyFlow(rule.effect.f, s, e))
  {
    hide Registered;
    hide Canon;
  }

  lemma MergeRevokes(m: MergeEffect, s: MachineState, e: Event)
    requires ShapeInv(s) && MergeReady(m, s, e) && ApplyMerge(m, s, e).Next?
    ensures RevokesAs(s, ApplyMerge(m, s, e))
  {
    hide Registered;
    hide Canon;
  }

  lemma ResumeRevokes(r: ResumeEffect, s: MachineState, e: Event)
    requires ShapeInv(s) && ResumeReady(r, s, e) && ApplyResume(r, s, e).Next?
    ensures RevokesAs(s, ApplyResume(r, s, e))
  {
    hide Registered;
    hide Canon;
  }

  lemma IntegrityRevokes(i: IntegrityEffect, s: MachineState, e: Event)
    requires ShapeInv(s) && IntegrityReady(i, s, e) && ApplyIntegrity(i, s, e).Next?
    ensures RevokesAs(s, ApplyIntegrity(i, s, e))
  {
    hide Canon;
  }

  /** A step that loses the review approval of a run going on emits the revocation. */
  lemma StepRevokes(t: Step)
    requires Legal(t) && Inv(t.before)
    ensures Revokes(Stage(t.before), t.after, t.commands)
  {
    hide Legal;
    hide ShapeInv;
    hide CanonicalSets;
    hide Enabled;
    hide RuleOf;
    hide RevokingRow;
    hide StateAllowed;
    hide Stage;
    hide Revokes;
    var id := StepEffect(t);
    RevokingRows(id);
    EnabledBasics(id, t.before, t.event);
    match RuleOf(id).effect
    case Flow(f) => FlowRevokes(RuleOf(id), t.before, t.event);
    case Merge(m) => MergeRevokes(m, t.before, t.event);
    case Resume(r) => ResumeRevokes(r, t.before, t.event);
    case Integrity(i) => IntegrityRevokes(i, t.before, t.event);
  }

  // ---- what was merged, by whatever path, had been approved ----

  /** Merging is entered only by the approval, and merged only from merging. */
  predicate EntersMerging(s: MachineState, a: Applied) {
    && a.Next?
    && (a.state.state == Merging ==> s.state == Merging || Stage(a.state) == 4)
    && (a.state.state == Merged ==> s.state == Merging)
  }

  lemma FlowEnters(f: FlowEffect, s: MachineState, e: Event)
    requires ShapeInv(s) && FlowReady(f, s, e) && ApplyFlow(f, s, e).Next?
    ensures EntersMerging(s, ApplyFlow(f, s, e))
  {
    hide Registered;
    hide Canon;
    hide Stage;
  }

  lemma MergeEnters(m: MergeEffect, s: MachineState, e: Event)
    requires ShapeInv(s) && MergeReady(m, s, e) && ApplyMerge(m, s, e).Next?
    ensures EntersMerging(s, ApplyMerge(m, s, e))
  {
    hide Registered;
    hide Canon;
  }

  lemma ResumeEnters(r: ResumeEffect, s: MachineState, e: Event)
    requires ShapeInv(s) && ResumeReady(r, s, e) && ApplyResume(r, s, e).Next?
    ensures EntersMerging(s, ApplyResume(r, s, e))
  {
    hide Registered;
    hide Canon;
    hide Stage;
  }

  lemma IntegrityEnters(i: IntegrityEffect, s: MachineState, e: Event)
    requires ShapeInv(s) && IntegrityReady(i, s, e) && ApplyIntegrity(i, s, e).Next?
    ensures EntersMerging(s, ApplyIntegrity(i, s, e))
  {
    hide Canon;
    hide Stage;
  }

  lemma StepEnters(t: Step)
    requires Legal(t) && Inv(t.before)
    ensures EntersMerging(t.before, Next(t.after, t.commands))
  {
    hide Legal;
    hide ShapeInv;
    hide CanonicalSets;
    hide Enabled;
    hide RuleOf;
    hide EntersMerging;
    var id := StepEffect(t);
    match RuleOf(id).effect
    case Flow(f) => FlowEnters(f, t.before, t.event);
    case Merge(m) => MergeEnters(m, t.before, t.event);
    case Resume(r) => ResumeEnters(r, t.before, t.event);
    case Integrity(i) => IntegrityEnters(i, t.before, t.event);
  }

  /** Every state from the n-th step on is merging. */
  ghost predicate MergingSince(run: seq<Step>, n: nat) {
    forall i :: n <= i < |run| ==> run[i].before.state == Merging
  }

  /**
   * Four gates in order with no invalidation between them, the last of them the human approval that started the
   * merging.
   */
  ghost predicate ApprovedAt(run: seq<Step>, n: nat) {
    && n <= |run| && MergingSince(run, n)
    && exists gates :: Passed(run[..n], gates) && |gates| == 4 && gates[3] == n - 1
  }

  ghost predicate Approved(run: seq<Step>) {
    exists n: nat :: ApprovedAt(run, n)
  }

  lemma ApprovedEarlier(init: seq<Step>, last: Step, n: nat)
    requires ApprovedAt(init, n) && last.before.state == Merging
    ensures ApprovedAt(init + [last], n)
  {
    hide Passed;
    assert (init + [last])[..n] == init[..n];
  }

  lemma NotMergingStage(s: MachineState)
    requires s.state != Merging
    ensures Stage(s) <= 3
  {}

  /** Entering the merging takes the fourth gate with all others passed. */
  lemma EntryApproved(s: MachineState, init: seq<Step>, last: Step)
    requires Inv(s) && Stage(s) == 0 && RunFrom(s, init) && EndOf(s, init) == last.before
    requires Inv(last.before) && Legal(last) && last.before.state != Merging && Stage(last.after) == 4
    ensures ApprovedAt(init + [last], |init| + 1)
  {
    hide Inv;
    hide Legal;
    hide Stage;
    hide Passed;
    var earlier := GatesPassed(s, init);
    NotMergingStage(last.before);
    StepGated(last);
    GatesExtend(init, last, earlier, 4);
    assert (init + [last])[..|init| + 1] == init + [last];
  }

  lemma {:induction false} MergingWasApproved(s: MachineState, run: seq<Step>)
    requires Inv(s) && Stage(s) == 0 && s.state != Merging && !Terminal(s.state) && RunFrom(s, run)
    requires EndOf(s, run).state == Merging || EndOf(s, run).state == Merged
    ensures Approved(run)
    decreases |run|
  {
    hide Inv;
    hide Legal;
    hide Stage;
    hide ApprovedAt;
    var init, last := run[..|run| - 1], run[|run| - 1];
    RunPreserves(s, run);
    StepEnters(last);
    assert last.before == EndOf(s, init);
    assert run == init + [last];
    if last.before.state == Merging {
      MergingWasApproved(s, init);
      var n: nat :| ApprovedAt(init, n);
      ApprovedEarlier(init, last, n);
    } else {
      EntryApproved(s, init, last);
    }
  }

  /**
   * No run ends merged, by any path, but out of a merging episode entered by an approval with every gate passed before
   * it.
   */
  lemma MergedWasApproved(preflightOk: bool, run: seq<Step>)
    requires RunFrom(Initialize(preflightOk).0, run)
    requires EndOf(Initialize(preflightOk).0, run).state == Merged
    ensures Approved(run)
  {
    hide Inv;
    hide Legal;
    hide Approved;
    InitialInv(preflightOk);
    InitialStage(preflightOk);
    MergingWasApproved(Initialize(preflightOk).0, run);
  }
}
