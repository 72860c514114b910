/** Every run can end: from any state a short sequence of accepted events leads to a terminal state. */
module Endings {
  import opened Vocabulary
  import opened Violations
  import opened MachineStates
  import opened Events
  import opened Guards
  import opened Rules
  import opened Machine
  import opened Readiness
  import opened Invariant
  import opened Runs

  /** The event an operator would arrange next, given a binding for the records it publishes. */
  function NextEvent(s: MachineState, b: Binding): Event {
    match s.procedure
    case Cancelling(attempt) => CancellationCompleted(Some(attempt), None)
    case HaltingForBlock(_, attempt) => BlockHaltCompleted(attempt)
    case RecordingIncident(_, _) =>
      if s.pending.None? then RecordProduced(IntegrityIncident, b)
      else Verified(IntegrityIncidentVerified, RecordEvidence(IntegrityIncident, s.pending.value.binding, b),
                    WithRecorded(Bindings(s.deferred)))
    case Normal =>
      if s.state != Merging then CancellationCompleted(None, Some(b))
      else if s.awaiting == Some(MergeOutcomeCancel) && s.pending.None? then Signal(MergeNotExecutedConfirmed)
      else
        var binding := if s.pending.Some? then s.pending.value.binding else b;
        Verified(UserCancelVerified, RecordEvidence(UserCancel, binding, b), NoDetail)
  }

  /** How many such events are still needed, at most. */
  function Rank(s: MachineState): nat {
    if Terminal(s.state) then 0 else
    match s.procedure
    case RecordingIncident(_, _) => if s.pending.Some? then 1 else 2
    case Cancelling(_) => 3
    case HaltingForBlock(_, _) => 2
    case Normal =>
      if s.state != Merging then 1 else if s.awaiting == Some(MergeOutcomeCancel) && s.pending.None? then 3 else 4
  }

  function NextRule(s: MachineState): RuleId {
    match s.procedure
    case Cancelling(_) => CancelRule(if s.deferred == [] then C03 else C04)
    case HaltingForBlock(_, _) => BlockRule(BHC)
    case RecordingIncident(_, _) => IncidentRule(if s.pending.None? then IP else IVC)
    case Normal =>
      if s.state != Merging then CancelRule(C05)
      else if s.awaiting == Some(MergeOutcomeCancel) && s.pending.None? then
        (if s.deferred == [] then MergeRule(M38) else IncidentRule(I47))
      else MergeRule(if s.pending.Some? then M41a else M41b)
  }

  lemma BindingsCover(s: MachineState)
    ensures Covers(s, Bindings(s.deferred))
  {
    forall v | v in s.deferred ensures v.binding in Bindings(s.deferred) {
      var i :| 0 <= i < |s.deferred| && s.deferred[i] == v;
      assert Bindings(s.deferred)[i] == v.binding;
    }
  }

  lemma IncidentNextEnabled(s: MachineState, b: Binding)
    requires ShapeInv(s) && !Terminal(s.state) && s.procedure.RecordingIncident?
    ensures Events.Constructible(NextEvent(s, b)) && Enabled(NextRule(s), s, NextEvent(s, b))
  {
    hide Registered;
    hide Canon;
    BindingsCover(s);
    hide Covers;
  }

  lemma StopNextEnabled(s: MachineState, b: Binding)
    requires ShapeInv(s) && !Terminal(s.state) && (s.procedure.Cancelling? || s.procedure.HaltingForBlock?)
    ensures Events.Constructible(NextEvent(s, b)) && Enabled(NextRule(s), s, NextEvent(s, b))
  {
    hide Registered;
    hide Canon;
  }

  predicate OutcomeNext(s: MachineState) {
    s.awaiting == Some(MergeOutcomeCancel) && s.pending.None?
  }

  lemma OutcomeNextEnabled(s: MachineState, b: Binding)
    requires ShapeInv(s) && NormalIn(s, Merging) && OutcomeNext(s)
    ensures Events.Constructible(NextEvent(s, b)) && Enabled(NextRule(s), s, NextEvent(s, b))
  {
    hide ShapeInv;
    hide Canon;
  }

  lemma CancelNextEnabled(s: MachineState, b: Binding)
    requires ShapeInv(s) && NormalIn(s, Merging) && !OutcomeNext(s)
    ensures Events.Constructible(NextEvent(s, b)) && Enabled(NextRule(s), s, NextEvent(s, b))
  {
    hide Registered;
    hide Canon;
    hide BindingKey;
    hide CoverageKey;
    hide BlockKindKey;
    hide BlockReasonKey;
    hide ProgressKey;
  }

  lemma EmergencyNextEnabled(s: MachineState, b: Binding)
    requires ShapeInv(s) && !Terminal(s.state) && s.procedure.Normal? && s.state != Merging
    ensures Events.Constructible(NextEvent(s, b)) && Enabled(NextRule(s), s, NextEvent(s, b))
  {
    hide Registered;
    hide Canon;
  }

  /** The run is recording the incident of a merge that did happen: it can only end merged. */
  predicate EndsMerged(s: MachineState) {
    s.procedure.RecordingIncident? && s.procedure.target.TargetMerged?
  }

  ghost predicate Nearer(s: MachineState, a: Applied) {
    && a.Next? && Rank(a.state) < Rank(s)
    && (Terminal(a.state.state) ==> a.state.state == if EndsMerged(s) then Merged else Cancelled)
    && (!Terminal(a.state.state) ==> (EndsMerged(a.state) <==> EndsMerged(s)))
  }

  lemma MergingNextNearer(s: MachineState, b: Binding)
    requires ShapeInv(s) && NormalIn(s, Merging)
    ensures Nearer(s, Apply(RuleOf(NextRule(s)).effect, s, NextEvent(s, b)))
  {
    hide ShapeInv;
    hide Canon;
  }

  lemma ProcedureNextNearer(s: MachineState, b: Binding)
    requires ShapeInv(s) && !Terminal(s.state) && !NormalIn(s, Merging)
    ensures Nearer(s, Apply(RuleOf(NextRule(s)).effect, s, NextEvent(s, b)))
  {
    hide Registered;
    hide Canon;
  }

  lemma NextEnabled(s: MachineState, b: Binding)
    requires ShapeInv(s) && !Terminal(s.state)
    ensures Events.Constructible(NextEvent(s, b)) && Enabled(NextRule(s), s, NextEvent(s, b))
  {
    hide ShapeInv;
    hide Enabled;
    hide Events.Constructible;
    hide NextEvent;
    hide NextRule;
    if s.procedure.RecordingIncident? {
      IncidentNextEnabled(s, b);
    } else if !s.procedure.Normal? {
      StopNextEnabled(s, b);
    } else if s.state != Merging {
      EmergencyNextEnabled(s, b);
    } else if OutcomeNext(s) {
      OutcomeNextEnabled(s, b);
    } else {
      CancelNextEnabled(s, b);
    }
  }

  /** One accepted step strictly closer to the end. */
  lemma NextStep(s: MachineState, b: Binding) returns (t: Step)
    requires Inv(s) && !Terminal(s.state)
    ensures Legal(t) && t.before == s && t.event == NextEvent(s, b) && Inv(t.after)
    ensures Nearer(s, Next(t.after, t.commands))
  {
    hide ShapeInv;
    hide CanonicalSets;
    hide Legal;
    hide Enabled;
    hide NextRule;
    hide NextEvent;
    hide Nearer;
    NextEnabled(s, b);
    if NormalIn(s, Merging) {
      MergingNextNearer(s, b);
    } else {
      ProcedureNextNearer(s, b);
    }
    t := AcceptedBy(NextRule(s), s, NextEvent(s, b));
  }

  /** Every run can end, by at most four accepted events: merged if it records a merge that happened, else cancelled. */
  lemma {:induction false} CanEnd(s: MachineState, b: Binding) returns (run: seq<Step>)
    requires Inv(s)
    ensures RunFrom(s, run) && |run| <= Rank(s) <= 4
    ensures Terminal(EndOf(s, run).state)
    ensures !Terminal(s.state) ==> EndOf(s, run).state == if EndsMerged(s) then Merged else Cancelled
    decreases Rank(s)
  {
    hide Inv;
    hide Legal;
    if Terminal(s.state) {
      run := [];
    } else {
      var t := NextStep(s, b);
      var rest := CanEnd(t.after, b);
      run := [t] + rest;
    }
  }

  lemma ReachableCanEnd(s: MachineState, b: Binding) returns (run: seq<Step>)
    requires Reachable(s)
    ensures RunFrom(s, run) && |run| <= 4 && Terminal(EndOf(s, run).state)
  {
    hide Inv;
    hide Reachable;
    ReachableInv(s);
    run := CanEnd(s, b);
  }

  /** A verified cancel is accepted in every state outside a procedure and outside merging. */
  lemma CancelStarts(s: MachineState, cancel: RecordEvidence) returns (t: Step)
    requires Inv(s) && !Terminal(s.state) && s.procedure.Normal? && s.state != Merging && cancel.kind == UserCancel
    ensures Legal(t) && t.before == s && t.event == Verified(UserCancelVerified, cancel, NoDetail) && Inv(t.after)
    ensures t.commands == [HaltRun(cancel.binding)]
    ensures t.after == s.(procedure := Cancelling(cancel.binding), awaiting := None,
                          pending := if PendingKey(s, t.event) == PendingMatched then None else s.pending)
  {
    hide Inv;
    hide Legal;
    var e := Verified(UserCancelVerified, cancel, NoDetail);
    var id := CancelRule(if PendingKey(s, e) == PendingMatched then C01 else C02);
    t := AcceptedBy(id, s, e);
  }

  /** The completion of exactly the attempt in progress cancels a run without deferred violations. */
  lemma CancelCompletes(s: MachineState) returns (t: Step)
    requires Inv(s) && s.procedure.Cancelling? && s.deferred == []
    ensures Legal(t) && t.before == s && t.event == CancellationCompleted(Some(s.procedure.attempt), None)
    ensures t.after == MachineState(Cancelled) && t.commands == []
  {
    StopNextEnabled(s, "");
    hide Inv;
    hide Legal;
    t := AcceptedBy(CancelRule(C03), s, CancellationCompleted(Some(s.procedure.attempt), None));
  }
}
