/** Every response the machine awaits was asked for, and every record it holds was handed over for publication. */
module Driving {
  import opened Vocabulary
  import opened Violations
  import opened MachineStates
  import opened Events
  import opened Guards
  import opened Rules
  import opened Machine
  import opened Readiness
  import opened Invariant
  import opened Runs
  import opened GateOrder

  /** The commands of a step, apart from the revocation of approvals that may precede them. */
  function Asked(commands: seq<Command>): seq<Command> {
    if commands != [] && commands[0] == InvalidateApprovals then commands[1..] else commands
  }

  /** Outside a procedure, a newly awaited response is exactly what the commands ask for; a merge is executed first. */
  predicate AsksFor(s: MachineState, e: Event, a: Applied) {
    a.Next? && a.state.procedure.Normal? && a.state.awaiting.Some? && a.state.awaiting != s.awaiting ==>
      || Asked(a.commands) == AwaitingCommands(a.state.awaiting.value)
      || (e == Signal(MergePreconditionsOk) && a.state.awaiting == Some(MergeOutcomeExecute)
          && a.commands == [ExecuteMerge])
  }

  /** A record that becomes pending is the one the step publishes, and it was produced in the state it names. */
  predicate HandsOver(s: MachineState, e: Event, a: Applied) {
    a.Next? && a.state.pending.Some? && a.state.pending != s.pending ==>
      && var p := a.state.pending.value;
      && e == RecordProduced(p.kind, p.binding) && p.sourceState == s.state == a.state.state
      && a.commands == [PersistRecord(p.kind, p.binding)]
  }

  /** The same for a row that advances: it asks for what it awaits, unless it only goes on waiting for it. */
  predicate AskingRow(rule: Rule) {
    rule.effect.Flow? && rule.effect.f.Advance? && rule.effect.f.awaitingAfter.Some? ==>
      var f := rule.effect.f;
      Asked(f.commands) == AwaitingCommands(f.awaitingAfter.value)
          || rule.guard.awaiting == Exactly(f.awaitingAfter.value)
  }

  lemma WorkflowAskingRows(w: WorkflowId)
    ensures AskingRow(WorkflowTable(w))
  {}

  lemma DecisionAskingRows(d: DecisionId)
    ensures AskingRow(DecisionTable(d))
  {}

  lemma CiAskingRows(ci: CiId, g: GateId)
    ensures AskingRow(CiTable(ci)) && AskingRow(GateTable(g))
  {}

  lemma OtherAskingRows(id: RuleId)
    requires !id.WorkflowRule? && !id.DecisionRule? && !id.CiRule? && !id.GateRule?
    ensures AskingRow(RuleOf(id))
  {}

  lemma AskingRows(id: RuleId)
    ensures AskingRow(RuleOf(id))
  {
    hide AskingRow;
    match id
    case WorkflowRule(w) => WorkflowAskingRows(w);
    case DecisionRule(d) => DecisionAskingRows(d);
    case CiRule(ci) => CiAskingRows(ci, T33);
    case GateRule(g) => CiAskingRows(T22, g);
    case _ => OtherAskingRows(id);
  }

  lemma EnabledAwaiting(id: RuleId, s: MachineState, e: Event)
    requires Enabled(id, s, e)
    ensures AwaitingAllowed(RuleOf(id).guard.awaiting, s.awaiting)
  {
    hide RuleOf;
    hide StateAllowed;
    hide AwaitingAllowed;
    hide TypeOf;
  }

  lemma FlowDrives(rule: Rule, s: MachineState, e: Event)
    requires rule.effect.Flow? && AskingRow(rule) && AwaitingAllowed(rule.guard.awaiting, s.awaiting)
    requires ShapeInv(s) && FlowReady(rule.effect.f, s, e)
    ensures AsksFor(s, e, ApplyFlow(rule.effect.f, s, e)) && HandsOver(s, e, ApplyFlow(rule.effect.f, s, e))
  {
    hide Registered;
    hide Canon;
  }

  lemma MergeDrives(m: MergeEffect, s: MachineState, e: Event)
    requires ShapeInv(s) && MergeReady(m, s, e)
    ensures AsksFor(s, e, ApplyMerge(m, s, e)) && HandsOver(s, e, ApplyMerge(m, s, e))
  {
    hide Registered;
    hide Canon;
  }

  lemma ResumeDrives(r: ResumeEffect, s: MachineState, e: Event)
    requires ShapeInv(s) && ResumeReady(r, s, e)
    ensures AsksFor(s, e, ApplyResume(r, s, e)) && HandsOver(s, e, ApplyResume(r, s, e))
  {
    hide Registered;
    hide Canon;
  }

  lemma IntegrityDrives(i: IntegrityEffect, s: MachineState, e: Event)
    requires ShapeInv(s) && IntegrityReady(i, s, e)
    ensures AsksFor(s, e, ApplyIntegrity(i, s, e)) && HandsOver(s, e, ApplyIntegrity(i, s, e))
  {
    hide Canon;
  }

  lemma StepDrives(t: Step)
    requires Legal(t) && Inv(t.before)
    ensures AsksFor(t.before, t.event, Next(t.after, t.commands))
        && HandsOver(t.before, t.event, Next(t.after, t.commands))
  {
    hide Legal;
    hide ShapeInv;
    hide CanonicalSets;
    hide Enabled;
    hide RuleOf;
    hide AskingRow;
    hide AwaitingAllowed;
    hide AsksFor;
    hide HandsOver;
    var id := StepEffect(t);
    AskingRows(id);
    EnabledAwaiting(id, t.before, t.event);
    match RuleOf(id).effect
    case Flow(f) => FlowDrives(RuleOf(id), t.before, t.event);
    case Merge(m) => MergeDrives(m, t.before, t.event);
    case Resume(r) => ResumeDrives(r, t.before, t.event);
    case Integrity(i) => IntegrityDrives(i, t.before, t.event);
  }
}
