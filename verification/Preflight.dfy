/** A run whose preflight failed starts nothing by itself; only settling a detected violation makes it review. */
module Preflight {
  import opened Vocabulary
  import opened Violations
  import opened MachineStates
  import opened Events
  import opened Guards
  import opened Rules
  import opened Machine
  import opened Readiness
  import opened Invariant
  import opened Runs
  import opened Tasks
  import opened TaskRuns
  import opened Demands

  /** Failed without work to return to, blocked on record integrity, or cancelled: nothing is awaited or in progress. */
  predicate Unstarted(s: MachineState) {
    && s.awaiting.None? && s.recoveryTo.None? && s.returnTo.None? && !s.procedure.HaltingForBlock?
    && (s.state == Failed || s.state == Cancelled || (s.state == Blocked && IntegrityBlocked(s)))
    && (s.procedure.RecordingIncident? ==> s.procedure.target == TargetCancelled)
  }

  /** The commands of a run that does not work: it publishes, halts, revokes and records, and asks for nothing else. */
  predicate Passive(cmd: Command) {
    cmd.PersistRecord? || cmd.HaltRun? || cmd.InvalidateApprovals? || cmd.RecordIntegrityIncident?
  }

  predicate StaysUnstarted(a: Applied) {
    a.Next? && Unstarted(a.state) && forall cmd :: cmd in a.commands ==> Passive(cmd)
  }

  lemma FlowStays(f: FlowEffect, s: MachineState, e: Event)
    requires ShapeInv(s) && FlowReady(f, s, e) && Unstarted(s)
    ensures StaysUnstarted(ApplyFlow(f, s, e))
  {
    hide Canon;
    hide Registered;
  }

  lemma MergeStays(m: MergeEffect, s: MachineState, e: Event)
    requires ShapeInv(s) && MergeReady(m, s, e) && Unstarted(s) && !m.FreshReview?
    requires m.Stay? ==> m.commands == []
    ensures StaysUnstarted(ApplyMerge(m, s, e))
  {
    hide Canon;
    hide Registered;
  }

  lemma ResumeStays(r: ResumeEffect, s: MachineState, e: Event)
    requires ShapeInv(s) && ResumeReady(r, s, e) && Unstarted(s)
    ensures StaysUnstarted(ApplyResume(r, s, e))
  {
    hide Canon;
    hide Registered;
  }

  lemma IntegrityStays(i: IntegrityEffect, s: MachineState, e: Event)
    requires ShapeInv(s) && IntegrityReady(i, s, e) && Unstarted(s)
    ensures StaysUnstarted(ApplyIntegrity(i, s, e))
  {
    hide Canon;
    hide Registered;
  }

  lemma FreshRules(id: RuleId)
    requires RuleOf(id).effect == Merge(FreshReview)
    ensures id == MergeRule(M36) || id == MergeRule(MHC) || id == ResumeRule(RF) || id == ResumeRule(RFB)
         || id == BlockRule(BRS) || id == BlockRule(BSV)
  {}

  lemma FreshSettles(id: RuleId, s: MachineState, e: Event)
    requires Enabled(id, s, e) && Unstarted(s) && RuleOf(id).effect == Merge(FreshReview)
    ensures SettlesIntegrity(e)
  {
    FreshRules(id);
    hide CoverageKey;
    hide BindingKey;
    hide PendingKey;
    hide ProgressKey;
  }

  lemma StepStays(t: Step)
    requires Legal(t) && Inv(t.before) && Unstarted(t.before) && !SettlesIntegrity(t.event)
    ensures StaysUnstarted(Next(t.after, t.commands))
  {
    hide Transition;
    hide ShapeInv;
    hide CanonicalSets;
    hide Enabled;
    hide RuleOf;
    hide StaysUnstarted;
    hide SettlesIntegrity;
    hide FlowReady;
    hide MergeReady;
    hide ResumeReady;
    hide IntegrityReady;
    hide Detects;
    var id := StepEffect(t);
    EnabledGuard(id, t.before, t.event);
    RowsCall(id);
    match RuleOf(id).effect
    case Flow(f) => FlowStays(f, t.before, t.event);
    case Merge(m) =>
      if m.FreshReview? { FreshSettles(id, t.before, t.event); }
      MergeStays(m, t.before, t.event);
    case Resume(r) => ResumeStays(r, t.before, t.event);
    case Integrity(i) => IntegrityStays(i, t.before, t.event);
  }

  /** A run from a failed preflight that settles no violation asks for no review, no host, no check and no merge. */
  lemma {:induction false} FailedPreflightStartsNothing(run: seq<Step>)
    requires RunFrom(Initialize(false).0, run)
    requires forall i :: 0 <= i < |run| ==> !SettlesIntegrity(run[i].event)
    ensures Unstarted(EndOf(Initialize(false).0, run))
    ensures forall i, cmd :: 0 <= i < |run| && cmd in run[i].commands ==> Passive(cmd)
  {
    hide Inv;
    hide Legal;
    hide Passive;
    hide SettlesIntegrity;
    if run != [] {
      var init, last := run[..|run| - 1], run[|run| - 1];
      assert forall i :: 0 <= i < |init| ==> init[i] == run[i];
      FailedPreflightStartsNothing(init);
      InitialInv(false);
      RunPreserves(Initialize(false).0, run);
      assert last.before == EndOf(Initialize(false).0, init);
      StepStays(last);
    }
  }

  // ---- the way round it ----

  function Salvage(v: Violation): Event {
    BlockResolved(IntegritySalvaged, Resolution(v.binding, v.head, None, None, None, None, None, Some([v.binding])))
  }

  lemma DetectionEnabled(v: Violation)
    ensures Enabled(DetectionRule(ID6), MachineState(Failed), ViolationDetected(v))
  {
    hide CoverageKey;
  }

  lemma SalvageEnabled(v: Violation)
    ensures Enabled(BlockRule(BSV), MachineState(Blocked, block := Some(RecordIntegrityBlock([v]))), Salvage(v))
  {
    hide CoverageKey;
    assert Bindings([v]) == [v.binding];
  }

  /** Settling a violation does start it: two accepted steps lead from a failed preflight to a review. */
  lemma SettledPreflightReviews(v: Violation) returns (run: seq<Step>)
    ensures RunFrom(Initialize(false).0, run) && |run| == 2
    ensures run[0].event == ViolationDetected(v) && run[1].event == Salvage(v)
    ensures EndOf(Initialize(false).0, run) == Initialize(true).0
    ensures RequestCodexReview(PurposeCodeReview) in run[1].commands
  {
    hide Inv;
    hide Enabled;
    hide Transition;
    InitialInv(false);
    DetectionEnabled(v);
    var detected := AcceptedBy(DetectionRule(ID6), MachineState(Failed), ViolationDetected(v));
    SalvageEnabled(v);
    var salvaged := AcceptedBy(BlockRule(BSV), detected.after, Salvage(v));
    run := [detected, salvaged];
  }
}
