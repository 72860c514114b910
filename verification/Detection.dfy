/** Detections are never refused, and a halt for a block always completes with exactly what was detected. */
module Detection {
  import opened Vocabulary
  import opened Violations
  import opened MachineStates
  import opened Events
  import opened Guards
  import opened Rules
  import opened Machine
  import opened Readiness
  import opened Invariant
  import opened Runs
  import opened Conservation
  import opened Endings

  lemma ProcedureDetectionEnabled(s: MachineState, v: Violation)
    requires ShapeInv(s) && !Terminal(s.state) && !s.procedure.Normal?
    ensures Enabled(DetectionCandidate(s), s, ViolationDetected(v))
  {
    hide Registered;
    hide Canon;
  }

  lemma MergingDetectionEnabled(s: MachineState, v: Violation)
    requires ShapeInv(s) && NormalIn(s, Merging)
    ensures Enabled(DetectionCandidate(s), s, ViolationDetected(v))
  {
    hide Registered;
    hide Canon;
  }

  lemma NormalDetectionEnabled(s: MachineState, v: Violation)
    requires ShapeInv(s) && !Terminal(s.state) && s.procedure.Normal? && s.state != Merging
    ensures Enabled(DetectionCandidate(s), s, ViolationDetected(v))
  {
    hide Registered;
    hide Canon;
  }

  lemma DetectionEnabled(s: MachineState, v: Violation)
    requires ShapeInv(s) && !Terminal(s.state)
    ensures Enabled(DetectionCandidate(s), s, ViolationDetected(v))
  {
    hide ShapeInv;
    hide Enabled;
    hide DetectionCandidate;
    if !s.procedure.Normal? {
      ProcedureDetectionEnabled(s, v);
    } else if s.state == Merging {
      MergingDetectionEnabled(s, v);
    } else {
      NormalDetectionEnabled(s, v);
    }
  }

  lemma DetectionInvalidates(x: Effect, s: MachineState, e: Event)
    requires Detects(x) && Apply(x, s, e).Next?
    ensures InvalidateApprovals in Apply(x, s, e).commands
    ensures Apply(x, s, e).state.state != Cancelled || s.state == Cancelled
  {
    hide Canon;
  }

  /**
   * Every state of a run in progress accepts a violation, by one rule, which revokes approvals and tracks the binding.
   */
  lemma DetectionAccepted(s: MachineState, v: Violation) returns (t: Step)
    requires Inv(s) && !Terminal(s.state)
    ensures Legal(t) && t.before == s && t.event == ViolationDetected(v) && Inv(t.after)
    ensures forall id :: Enabled(id, s, t.event) <==> id == DetectionCandidate(s)
    ensures InvalidateApprovals in t.commands && v.binding in Tracked(t.after)
  {
    hide ShapeInv;
    hide CanonicalSets;
    hide Legal;
    hide Enabled;
    hide Tracked;
    hide RuleOf;
    hide Apply;
    hide Detects;
    hide DetectionCandidate;
    var e := ViolationDetected(v);
    var id := DetectionCandidate(s);
    DetectionEnabled(s, v);
    SelectIsRegistryScan(s, e);
    t := AcceptedBy(id, s, e);
    EnabledDetects(id, s, e);
    DetectionInvalidates(RuleOf(id).effect, s, e);
    StepTracks(t);
    DetectionClearsNothing(e);
  }

  lemma ReachableDetection(s: MachineState, v: Violation) returns (t: Step)
    requires Reachable(s) && !Terminal(s.state)
    ensures Legal(t) && t.before == s && t.event == ViolationDetected(v)
    ensures InvalidateApprovals in t.commands && v.binding in Tracked(t.after)
  {
    hide Inv;
    hide Reachable;
    hide Tracked;
    hide Legal;
    ReachableInv(s);
    t := DetectionAccepted(s, v);
  }

  // ---- the halt for a block ----

  /** The violations detected along a run, in order. */
  function Detections(run: seq<Step>): seq<Violation> {
    if run == [] then [] else
      var last := run[|run| - 1].event;
      Detections(run[..|run| - 1]) + if last.ViolationDetected? then [last.violation] else []
  }

  /** What a halting state does: collect further detections, reissue the same halt, or complete it. */
  ghost predicate HaltMove(s: MachineState, e: Event, a: Applied)
    requires s.procedure.HaltingForBlock?
  {
    match e
    case ViolationDetected(v) =>
      a == Next(s.(procedure := HaltingForBlock(Canon(s.procedure.violations + [v]), s.procedure.attempt)),
          [InvalidateApprovals])
    case BlockHaltCompleted(attempt) =>
      && attempt == s.procedure.attempt
      && a == Next(MachineState(Blocked, block := Some(RecordIntegrityBlock(s.procedure.violations))), [])
    case _ => a == Next(s, [HaltRun(s.procedure.attempt)])
  }

  lemma EffectHaltMove(x: Effect, s: MachineState, e: Event)
    requires ShapeInv(s) && s.procedure.HaltingForBlock? && Ready(x, s, e) && Apply(x, s, e).Next?
    requires Detects(x) <==> e.ViolationDetected?
    requires e.BlockHaltCompleted? ==> x == Integrity(HaltComplete)
    ensures HaltMove(s, e, Apply(x, s, e))
  {
    hide Canon;
    hide Registered;
  }

  lemma StepHaltMove(t: Step)
    requires Legal(t) && Inv(t.before) && t.before.procedure.HaltingForBlock?
    ensures HaltMove(t.before, t.event, Next(t.after, t.commands))
  {
    hide Legal;
    hide ShapeInv;
    hide CanonicalSets;
    hide Enabled;
    hide Ready;
    hide Apply;
    hide Detects;
    hide HaltMove;
    var id := StepEffect(t);
    CandidateFor(id, t.before, t.event);
    EffectHaltMove(RuleOf(id).effect, t.before, t.event);
  }

  /**
   * While a halt is not completed its attempt is fixed and its set is exactly what was detected, first evidence kept.
   */
  lemma {:induction false} HaltCollects(s: MachineState, run: seq<Step>)
    requires Inv(s) && s.procedure.HaltingForBlock? && RunFrom(s, run)
    requires forall i :: 0 <= i < |run| ==> !run[i].event.BlockHaltCompleted?
    ensures EndOf(s, run) ==
            s.(procedure := HaltingForBlock(Canon(s.procedure.violations + Detections(run)), s.procedure.attempt))
    ensures forall i :: 0 <= i < |run| ==>
              run[i].commands == [InvalidateApprovals] || run[i].commands == [HaltRun(s.procedure.attempt)]
    decreases |run|
  {
    hide ShapeInv;
    hide Legal;
    hide Canon;
    var vs := s.procedure.violations;
    if run == [] {
      assert vs + [] == vs;
    } else {
      var init, last := run[..|run| - 1], run[|run| - 1];
      HaltCollects(s, init);
      RunPreserves(s, run);
      assert last.before == EndOf(s, init);
      StepHaltMove(last);
      if last.event.ViolationDetected? {
        CanonAbsorbs(vs + Detections(init), [last.event.violation]);
        assert vs + Detections(run) == vs + Detections(init) + [last.event.violation];
      } else {
        assert Detections(init) + [] == Detections(init);
      }
    }
  }

  /** A completion of the issued attempt is accepted in every halting state. */
  lemma HaltCompletes(s: MachineState) returns (t: Step)
    requires Inv(s) && s.procedure.HaltingForBlock?
    ensures Legal(t) && t.before == s && t.event == BlockHaltCompleted(s.procedure.attempt)
    ensures t.after == MachineState(Blocked, block := Some(RecordIntegrityBlock(s.procedure.violations)))
  {
    hide CanonicalSets;
    hide ContinuationRegistered;
    hide Legal;
    hide HaltMove;
    hide Nearer;
    t := NextStep(s, "");
    assert HaltMove(s, t.event, Next(t.after, t.commands)) by { StepHaltMove(t); }
    assert t.event == BlockHaltCompleted(s.procedure.attempt);
    HaltMoveCompletes(s, t.event, Next(t.after, t.commands));
  }

  lemma HaltMoveCompletes(s: MachineState, e: Event, a: Applied)
    requires s.procedure.HaltingForBlock? && HaltMove(s, e, a) && e.BlockHaltCompleted?
    ensures e.haltAttempt == s.procedure.attempt
    ensures a == Next(MachineState(Blocked, block := Some(RecordIntegrityBlock(s.procedure.violations))), [])
  {}

  lemma HaltStarts(t: Step)
    requires Legal(t) && Inv(t.before) && t.event.ViolationDetected?
    requires t.before.procedure.Normal? && Active(t.before.state) && t.before.state != Merging
    ensures t.after == t.before.(procedure := HaltingForBlock([t.event.violation], t.event.violation.binding),
                                 awaiting := None, pending := None, deferred := [])
    ensures t.commands == [InvalidateApprovals, HaltRun(t.event.violation.binding)]
  {
    hide Legal;
    hide ShapeInv;
    hide CanonicalSets;
    hide Enabled;
    hide Ready;
    hide Detects;
    var id := StepEffect(t);
    CandidateFor(id, t.before, t.event);
  }

  /** From the detection that halts a run to its completion: one attempt, and a block on exactly what was detected. */
  lemma HaltBlocksOnWhatWasDetected(s: MachineState, run: seq<Step>)
    requires Inv(s) && s.procedure.Normal? && Active(s.state) && s.state != Merging && RunFrom(s, run)
    requires |run| >= 2 && run[0].event.ViolationDetected? && run[|run| - 1].event.BlockHaltCompleted?
    requires forall i :: 0 <= i < |run| - 1 ==> !run[i].event.BlockHaltCompleted?
    ensures var attempt := run[0].event.violation.binding;
            run[0].commands == [InvalidateApprovals, HaltRun(attempt)] && run[|run| - 1].event.haltAttempt == attempt
    ensures EndOf(s, run) == MachineState(Blocked, block := Some(RecordIntegrityBlock(Canon(Detections(run)))))
  {
    hide Inv;
    hide Legal;
    hide Canon;
    hide HaltMove;
    hide Detections;
    var v, last := run[0].event.violation, run[|run| - 1];
    var middle := run[1..|run| - 1];
    RunPreserves(s, run);
    HaltStarts(run[0]);
    HaltCollects(run[0].after, middle);
    assert last.before == EndOf(run[0].after, middle);
    StepHaltMove(last);
    HaltMoveCompletes(last.before, last.event, Next(last.after, last.commands));
    DetectionsOfHalt(run);
  }

  lemma {:induction false} DetectionsPrepend(first: Step, rest: seq<Step>)
    requires first.event.ViolationDetected?
    ensures Detections([first] + rest) == [first.event.violation] + Detections(rest)
    decreases |rest|
  {
    var run := [first] + rest;
    if rest == [] {
      assert run[..0] == [];
    } else {
      DetectionsPrepend(first, rest[..|rest| - 1]);
      assert run[..|run| - 1] == [first] + rest[..|rest| - 1];
    }
  }

  lemma DetectionsOfHalt(run: seq<Step>)
    requires |run| >= 2 && run[0].event.ViolationDetected? && !run[|run| - 1].event.ViolationDetected?
    ensures Detections(run) == [run[0].event.violation] + Detections(run[1..|run| - 1])
  {
    var init := run[..|run| - 1];
    assert init == [run[0]] + run[1..|run| - 1];
    DetectionsPrepend(run[0], run[1..|run| - 1]);
    assert Detections(run) == Detections(init) + [];
  }

  // ---- resolution evidence ----

  lemma BlockedUnionStep(t: Step)
    requires Legal(t) && Inv(t.before) && t.event.ViolationDetected?
    requires NormalIn(t.before, Blocked) && IntegrityBlocked(t.before)
    ensures var vs := Canon(t.before.block.value.violations + [t.event.violation]);
            t.after == t.before.(block := Some(RecordIntegrityBlock(vs)))
    ensures t.commands == [InvalidateApprovals]
  {
    hide Legal;
    hide ShapeInv;
    hide CanonicalSets;
    hide Enabled;
    hide Ready;
    hide Detects;
    hide Canon;
    var id := StepEffect(t);
    CandidateFor(id, t.before, t.event);
  }

  /**
   * Evidence gathered for an integrity block survives a detection exactly when the binding was already in the block.
   */
  lemma EvidenceAfterDetection(t: Step, res: Resolution)
    requires Legal(t) && Inv(t.before) && t.event.ViolationDetected?
    requires NormalIn(t.before, Blocked) && IntegrityBlocked(t.before) && ResolutionMatches(t.before, res)
    ensures ResolutionMatches(t.after, res) <==> t.event.violation.binding in BlockBindings(t.before)
  {
    hide Legal;
    hide ShapeInv;
    hide Canon;
    hide Canonical;
    hide BindingSet;
    var vs := t.before.block.value.violations;
    BlockedUnionStep(t);
    CanonFixedPoint(vs);
    CanonAdd(vs, t.event.violation);
    UnionNonempty(vs, t.event.violation);
  }

  // ---- a detection that is lost ----

  lemma StepsJoin(s: MachineState, first: Step, second: Step, rest: seq<Step>)
    requires Legal(first) && first.before == s && Legal(second) && second.before == first.after
        && RunFrom(second.after, rest)
    ensures RunFrom(s, [first, second] + rest)
    ensures EndOf(s, [first, second] + rest) == EndOf(second.after, rest)
  {
    hide Legal;
  }

  /**
   * A whole run: a violation detected at the start is halted for, blocked on, and then cancelled away without any
   * record.
   */
  lemma DetectionLostToCancel(v: Violation, cancel: RecordEvidence) returns (run: seq<Step>)
    requires cancel.kind == UserCancel
    ensures RunFrom(Initialize(true).0, run) && EndOf(Initialize(true).0, run).state == Cancelled
    ensures |run| > 0 && run[0].event == ViolationDetected(v) && LostToCancel(run, v.binding)
    ensures forall i :: 0 <= i < |run| ==> Cleared(run[i].event) == {}
  {
    hide Inv;
    hide Legal;
    hide Cleared;
    hide RunFrom;
    hide Tracked;
    InitialInv(true);
    var detected := DetectionAccepted(Initialize(true).0, v);
    HaltStarts(detected);
    var halted := HaltCompletes(detected.after);
    StepPreserves(halted);
    var rest := CancelDropsBlockedViolations(halted.after, cancel);
    StepsJoin(Initialize(true).0, detected, halted, rest);
    DetectionClearsNothing(detected.event);
    HaltClearsNothing(halted.event);
    TrackedInIntegrityBlock(halted.after);
    SingleSet(v);
    run := [detected, halted] + rest;
  }

  lemma HaltClearsNothing(e: Event)
    requires e.BlockHaltCompleted?
    ensures Cleared(e) == {}
  {}
}
