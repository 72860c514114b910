/** A cancel is absorbing: nothing but its own completion, with every deferred violation recorded, ends the run. */
module Cancellation {
  import opened Vocabulary
  import opened Violations
  import opened MachineStates
  import opened Events
  import opened Guards
  import opened Rules
  import opened Machine
  import opened Readiness
  import opened Invariant
  import opened Runs

  predicate CancelPhase(s: MachineState) {
    || s.procedure.Cancelling?
    || (s.procedure.RecordingIncident? && s.procedure.target.TargetCancelled?)
    || s.state == Cancelled
  }

  /** The commands that stop a run and record its incidents; none of them makes progress. */
  predicate Quiet(c: Command) {
    c.HaltRun? || c.InvalidateApprovals? || c.RecordIntegrityIncident?
        || (c.PersistRecord? && c.kind == IntegrityIncident)
  }

  /** An event that records these bindings in a verified incident. */
  predicate RecordsBinding(e: Event, b: Binding) {
    RecordsIncident(e) && b in e.detail.recorded
  }

  ghost predicate CancelMove(s: MachineState, e: Event, a: Applied) {
    && a.Next? && CancelPhase(a.state) && a.state.state != Merged
    && (forall c :: c in a.commands ==> Quiet(c))
    && (s.procedure.Cancelling? ==>
          || a.state.procedure == s.procedure
          || e == CancellationCompleted(Some(s.procedure.attempt), None))
    && (a.state.state == Cancelled ==>
          if s.procedure.Cancelling? then s.deferred == [] else RecordsIncident(e) && Covers(s, e.detail.recorded))
  }

  ghost predicate DeferredMove(s: MachineState, e: Event, a: Applied) {
    && a.Next?
    && (e.ViolationDetected? ==> e.violation.binding in BindingSet(a.state.deferred))
    && (forall b :: b in BindingSet(s.deferred) ==> b in BindingSet(a.state.deferred) || RecordsBinding(e, b))
  }

  lemma FlowCancelMove(f: FlowEffect, s: MachineState, e: Event)
    requires !e.ViolationDetected?
    requires CancelPhase(s) && s.state != Cancelled && ShapeInv(s) && FlowReady(f, s, e) && ApplyFlow(f, s, e).Next?
    ensures CancelMove(s, e, ApplyFlow(f, s, e)) && DeferredMove(s, e, ApplyFlow(f, s, e))
  {
    hide Registered;
    hide Canon;
    hide BindingSet;
  }

  lemma MergeCancelMove(m: MergeEffect, s: MachineState, e: Event)
    requires Events.Constructible(e)
    requires !e.ViolationDetected?
    requires CancelPhase(s) && s.state != Cancelled && ShapeInv(s) && MergeReady(m, s, e) && ApplyMerge(m, s, e).Next?
    ensures CancelMove(s, e, ApplyMerge(m, s, e)) && DeferredMove(s, e, ApplyMerge(m, s, e))
  {
    hide Registered;
    hide Canon;
  }

  lemma ResumeCancelMove(r: ResumeEffect, s: MachineState, e: Event)
    requires !e.ViolationDetected?
    requires CancelPhase(s) && s.state != Cancelled && ShapeInv(s) && ResumeReady(r, s, e) && ApplyResume(r, s, e).Next?
    ensures CancelMove(s, e, ApplyResume(r, s, e)) && DeferredMove(s, e, ApplyResume(r, s, e))
  {
    hide Registered;
    hide Canon;
    hide BindingSet;
  }

  lemma DetectCancelMove(i: IntegrityEffect, s: MachineState, e: Event)
    requires i.DetectUnion?
    requires CancelPhase(s) && s.state != Cancelled && Inv(s) && IntegrityReady(i, s, e)
        && ApplyIntegrity(i, s, e).Next?
    ensures CancelMove(s, e, ApplyIntegrity(i, s, e)) && DeferredMove(s, e, ApplyIntegrity(i, s, e))
  {
    hide Registered;
    hide Canon;
    hide Canonical;
    hide BindingSet;
    CanonFixedPoint(s.deferred);
    CanonAdd(s.deferred, e.violation);
  }

  lemma CompleteCancelMove(i: IntegrityEffect, s: MachineState, e: Event)
    requires i.IncidentComplete?
    requires !e.ViolationDetected?
    requires CancelPhase(s) && s.state != Cancelled && ShapeInv(s) && IntegrityReady(i, s, e)
        && ApplyIntegrity(i, s, e).Next?
    ensures CancelMove(s, e, ApplyIntegrity(i, s, e)) && DeferredMove(s, e, ApplyIntegrity(i, s, e))
  {
    hide Registered;
    hide Canon;
  }

  lemma IntegrityCancelMove(i: IntegrityEffect, s: MachineState, e: Event)
    requires !i.DetectUnion? && !i.IncidentComplete? && (e.ViolationDetected? ==> Detects(Integrity(i)))
    requires CancelPhase(s) && s.state != Cancelled && Inv(s) && IntegrityReady(i, s, e)
        && ApplyIntegrity(i, s, e).Next?
    ensures CancelMove(s, e, ApplyIntegrity(i, s, e)) && DeferredMove(s, e, ApplyIntegrity(i, s, e))
  {
    hide Registered;
    hide Canon;
    hide Canonical;
    hide BindingSet;
    hide Unrecorded;
    hide Covers;
    CanonFixedPoint(s.deferred);
    if i.IncidentRemainder? {
      UnrecordedCanonical(s.deferred, set b | b in e.detail.recorded);
    }
  }

  lemma EffectCancelMove(x: Effect, s: MachineState, e: Event)
    requires Events.Constructible(e) && (e.ViolationDetected? ==> Detects(x))
    requires CancelPhase(s) && s.state != Cancelled && Inv(s) && Ready(x, s, e) && Apply(x, s, e).Next?
    ensures CancelMove(s, e, Apply(x, s, e)) && DeferredMove(s, e, Apply(x, s, e))
  {
    hide CancelPhase;
    hide CancelMove;
    hide DeferredMove;
    hide ShapeInv;
    hide CanonicalSets;
    match x
    case Flow(f) => FlowCancelMove(f, s, e);
    case Merge(m) => MergeCancelMove(m, s, e);
    case Resume(r) => ResumeCancelMove(r, s, e);
    case Integrity(i) =>
      if i.DetectUnion? {
        DetectCancelMove(i, s, e);
      } else if i.IncidentComplete? {
        CompleteCancelMove(i, s, e);
      } else {
        IntegrityCancelMove(i, s, e);
      }
  }

  lemma StepCancelMove(t: Step)
    requires Legal(t) && Inv(t.before) && CancelPhase(t.before)
    ensures Events.Constructible(t.event)
    ensures CancelMove(t.before, t.event, Next(t.after, t.commands))
        && DeferredMove(t.before, t.event, Next(t.after, t.commands))
  {
    hide Inv;
    hide CancelPhase;
    hide CancelMove;
    hide DeferredMove;
    hide Ready;
    hide Apply;
    hide RuleOf;
    hide Detects;
    hide Enabled;
    hide Transition;
    var id := StepEffect(t);
    EffectCancelMove(RuleOf(id).effect, t.before, t.event);
  }

  // ---- over whole runs ----

  /** From the start of a cancel every continuation stays quiet in the cancel phase and can only end cancelled. */
  lemma {:induction false} CancelAbsorbs(s: MachineState, run: seq<Step>)
    requires Inv(s) && CancelPhase(s) && RunFrom(s, run)
    ensures CancelPhase(EndOf(s, run)) && (Terminal(EndOf(s, run).state) ==> EndOf(s, run).state == Cancelled)
    ensures forall i, c :: 0 <= i < |run| && c in run[i].commands ==> Quiet(c)
    ensures forall i :: 0 <= i < |run| ==> CancelPhase(run[i].before)
    decreases |run|
  {
    hide Inv;
    hide Legal;
    hide CancelPhase;
    hide Quiet;
    if run == [] {
      PhaseNotMerged(s);
    } else {
      var init, last := run[..|run| - 1], run[|run| - 1];
      RunPreserves(s, run);
      CancelAbsorbs(s, init);
      assert last.before == EndOf(s, init);
      StepCancelMove(last);
    }
  }

  lemma PhaseNotMerged(s: MachineState)
    requires Inv(s) && CancelPhase(s)
    ensures s.state != Merged
  {}

  /** The attempt is never replaced: a cancelled run received the completion of exactly the attempt that was started. */
  lemma {:induction false} CancelledByOwnAttempt(s: MachineState, run: seq<Step>)
    requires Inv(s) && s.procedure.Cancelling? && RunFrom(s, run)
    ensures EndOf(s, run).procedure == s.procedure
            || exists i :: 0 <= i < |run| && run[i].event == CancellationCompleted(Some(s.procedure.attempt), None)
    decreases |run|
  {
    hide Inv;
    hide Legal;
    if run != [] {
      var init, last := run[..|run| - 1], run[|run| - 1];
      CancelledByOwnAttempt(s, init);
      CancelAbsorbs(s, run);
      RunPreserves(s, run);
      assert last.before == EndOf(s, init);
      if EndOf(s, init).procedure == s.procedure {
        StepCancelMove(last);
      } else {
        var i :| 0 <= i < |init| && init[i].event == CancellationCompleted(Some(s.procedure.attempt), None);
        assert run[i].event == init[i].event;
      }
    }
  }

  /** A violation deferred at any point of a cancelled run is named in an incident verified later. */
  lemma {:induction false} CancelledWithFullCoverage(s: MachineState, run: seq<Step>, b: Binding)
    requires Inv(s) && CancelPhase(s) && RunFrom(s, run) && b in BindingSet(s.deferred)
    ensures b in BindingSet(EndOf(s, run).deferred) || exists i :: 0 <= i < |run| && RecordsBinding(run[i].event, b)
    decreases |run|
  {
    hide Inv;
    hide Legal;
    hide CancelPhase;
    hide BindingSet;
    hide RecordsBinding;
    if run != [] {
      var init, last := run[..|run| - 1], run[|run| - 1];
      CancelledWithFullCoverage(s, init, b);
      CancelAbsorbs(s, run);
      RunPreserves(s, run);
      assert last.before == EndOf(s, init);
      StepCancelMove(last);
      if b !in BindingSet(EndOf(s, init).deferred) {
        var i :| 0 <= i < |init| && RecordsBinding(init[i].event, b);
        assert run[i] == init[i];
      }
    }
  }

  /** So is every violation that is detected while the cancel is in progress. */
  lemma CancelRecordsDetections(s: MachineState, run: seq<Step>, i: int)
    requires Inv(s) && CancelPhase(s) && RunFrom(s, run) && EndOf(s, run).state == Cancelled
    requires 0 <= i < |run| && run[i].event.ViolationDetected?
    ensures exists k :: i < k < |run| && RecordsBinding(run[k].event, run[i].event.violation.binding)
  {
    hide Legal;
    hide CancelPhase;
    hide RecordsBinding;
    hide CanonicalSets;
    hide ContinuationRegistered;
    RunPreserves(s, run);
    CancelAbsorbs(s, run);
    StepCancelMove(run[i]);
    var b, rest := run[i].event.violation.binding, run[i + 1..];
    assert EndOf(run[i].after, rest) == EndOf(s, run);
    CancelledWithFullCoverage(run[i].after, rest, b);
    var k :| 0 <= k < |rest| && RecordsBinding(rest[k].event, b);
    assert rest[k] == run[i + 1 + k];
  }

  /** Cancelled is reached only by the completion of the attempt, and with nothing deferred left unrecorded. */
  lemma CancelEnds(s: MachineState, run: seq<Step>)
    requires Inv(s) && s.procedure.Cancelling? && RunFrom(s, run) && Terminal(EndOf(s, run).state)
    ensures EndOf(s, run) == MachineState(Cancelled)
    ensures exists i :: 0 <= i < |run| && run[i].event == CancellationCompleted(Some(s.procedure.attempt), None)
    ensures forall b :: b in BindingSet(s.deferred) ==> exists i :: 0 <= i < |run| && RecordsBinding(run[i].event, b)
  {
    hide Legal;
    hide CanonicalSets;
    hide ContinuationRegistered;
    hide RecordsBinding;
    RunPreserves(s, run);
    CancelAbsorbs(s, run);
    CancelledByOwnAttempt(s, run);
    forall b | b in BindingSet(s.deferred) ensures exists i :: 0 <= i < |run| && RecordsBinding(run[i].event, b) {
      CancelledWithFullCoverage(s, run, b);
    }
  }
}
