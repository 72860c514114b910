/** The publication that a cancel interrupts is named in its incidents, and nothing else is. */
module Audit {
  import opened Vocabulary
  import opened Violations
  import opened MachineStates
  import opened Events
  import opened Guards
  import opened Rules
  import opened Machine
  import opened Readiness
  import opened Invariant
  import opened Runs
  import opened TaskRuns
  import opened UserDecisions

  predicate Recording(s: MachineState) {
    s.procedure.Cancelling? || s.procedure.RecordingIncident?
  }

  /** The record whose publication the procedure cut short. */
  function CutShort(s: MachineState): Option<PendingRecord> {
    match s.procedure
    case Cancelling(_) => s.pending
    case RecordingIncident(_, audit) => audit
    case _ => None
  }

  /** A cancel cuts short what was pending, unless that was its own record; a merge outcome cuts short nothing. */
  predicate Audits(s: MachineState, e: Event, a: Applied) {
    && a.Next?
    && (Recording(s) ==> Recording(a.state) || Terminal(a.state.state))
    && (Recording(a.state) ==>
      if Recording(s) then CutShort(a.state) == CutShort(s)
      else if a.state.procedure.RecordingIncident? then CutShort(a.state).None?
      else CutShort(a.state) == if PendingKey(s, e) == PendingMatched then None else s.pending)
  }

  predicate CuttingRow(rule: Rule) {
    rule.effect.Merge? && rule.effect.m.StartCancel? ==>
      rule.guard.pending == if rule.effect.m.consumePending then WhenMatched else WhenAbsentOrMismatched
  }

  lemma CancelCuts(c: CancelId)
    ensures CuttingRow(CancelTable(c))
  {}

  lemma OthersCut(id: RuleId)
    requires !id.CancelRule?
    ensures CuttingRow(RuleOf(id))
  {}

  lemma FlowAudits(f: FlowEffect, s: MachineState, e: Event)
    requires ShapeInv(s) && FlowReady(f, s, e)
    ensures Audits(s, e, ApplyFlow(f, s, e))
  {
    hide PendingKey;
    hide Canon;
    hide Registered;
  }

  lemma MergeAudits(m: MergeEffect, s: MachineState, e: Event)
    requires m.StartCancel? ==> (m.consumePending <==> PendingKey(s, e) == PendingMatched)
    requires ShapeInv(s) && MergeReady(m, s, e)
    ensures Audits(s, e, ApplyMerge(m, s, e))
  {
    hide PendingKey;
    hide Canon;
    hide Registered;
  }

  lemma ResumeAudits(r: ResumeEffect, s: MachineState, e: Event)
    requires ShapeInv(s) && ResumeReady(r, s, e)
    ensures Audits(s, e, ApplyResume(r, s, e))
  {
    hide PendingKey;
    hide Canon;
    hide Registered;
  }

  lemma IntegrityAudits(i: IntegrityEffect, s: MachineState, e: Event)
    requires ShapeInv(s) && IntegrityReady(i, s, e)
    ensures Audits(s, e, ApplyIntegrity(i, s, e))
  {
    hide PendingKey;
    hide Canon;
    hide Registered;
  }

  lemma CutsOf(id: RuleId)
    ensures CuttingRow(RuleOf(id))
  {
    hide CuttingRow;
    match id
    case CancelRule(c) => CancelCuts(c);
    case _ => OthersCut(id);
  }

  lemma StepAudits(t: Step)
    requires Legal(t) && Inv(t.before)
    ensures Audits(t.before, t.event, Next(t.after, t.commands))
  {
    hide Transition;
    hide ShapeInv;
    hide CanonicalSets;
    hide Enabled;
    hide RuleOf;
    hide FlowReady;
    hide MergeReady;
    hide ResumeReady;
    hide IntegrityReady;
    hide Audits;
    hide PendingKey;
    hide Detects;
    var id := StepEffect(t);
    EnabledGuard(id, t.before, t.event);
    CutsOf(id);
    match RuleOf(id).effect
    case Flow(f) => FlowAudits(f, t.before, t.event);
    case Merge(m) => MergeAudits(m, t.before, t.event);
    case Resume(r) => ResumeAudits(r, t.before, t.event);
    case Integrity(i) => IntegrityAudits(i, t.before, t.event);
  }

  /**
   * From the step that starts a cancel or an incident on, the incident names what that step cut short: for a cancel the
   * record that was waiting for its publication, unless it was the cancel itself.
   */
  lemma {:induction false} AuditNamesTheCutShort(s: MachineState, run: seq<Step>, k: nat, n: nat)
    requires RunFrom(s, run) && Inv(s) && k <= n < |run| && !Recording(run[k].before) && Recording(run[k].after)
    ensures Recording(run[n].after) || (Terminal(run[n].after.state) && n == |run| - 1)
    ensures Recording(run[n].after) ==>
              CutShort(run[n].after) ==
              if run[k].after.procedure.RecordingIncident? || PendingKey(run[k].before, run[k].event) == PendingMatched
              then None else run[k].before.pending
    decreases n
  {
    hide Inv;
    hide Transition;
    hide PendingKey;
    RunPreserves(s, run);
    StepAudits(run[n]);
    if n > k { AuditNamesTheCutShort(s, run, k, n - 1); }
    if n < |run| - 1 { NotAfterTheEnd(run[n + 1]); }
  }

  lemma NotAfterTheEnd(t: Step)
    requires Legal(t)
    ensures !Terminal(t.before.state)
  {}
}
