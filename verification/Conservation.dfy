/** No detected violation is lost: it stays tracked until it is recorded or explicitly cleared. */
module Conservation {
  import opened Vocabulary
  import opened Violations
  import opened MachineStates
  import opened Events
  import opened Guards
  import opened Rules
  import opened Machine
  import opened Readiness
  import opened Invariant
  import opened Runs
  import opened Endings

  ghost function HaltBindings(s: MachineState): set<Binding> {
    if s.procedure.HaltingForBlock? then BindingSet(s.procedure.violations) else {}
  }

  ghost function BlockBindings(s: MachineState): set<Binding> {
    if IntegrityBlocked(s) then BindingSet(s.block.value.violations) else {}
  }

  /** The bindings of every violation the state still answers for. */
  ghost function Tracked(s: MachineState): set<Binding> {
    BindingSet(s.deferred) + HaltBindings(s) + BlockBindings(s)
  }

  ghost function Detected(e: Event): set<Binding> {
    if e.ViolationDetected? then {e.violation.binding} else {}
  }

  /** What an accepted event settles: bindings of a verified incident record, or of a named restoration or salvage. */
  ghost function Cleared(e: Event): set<Binding> {
    match e
    case Verified(IntegrityIncidentVerified, _, WithRecorded(recorded)) => set b | b in recorded
    case BlockResolved(IntegrityRestored, res) =>
      if res.violationBindings.Some? then set b | b in res.violationBindings.value else {}
    case BlockResolved(IntegritySalvaged, res) =>
      if res.violationBindings.Some? then set b | b in res.violationBindings.value else {}
    case _ => {}
  }

  /** The one way out without a record: a cancelled run that was blocked on record integrity. */
  ghost function Dropped(t: Step): set<Binding> {
    if t.after.state == Cancelled then BlockBindings(t.before) else {}
  }

  ghost predicate Tracks(t: Step) {
    && Tracked(t.after) <= Tracked(t.before) + Detected(t.event)
    && Tracked(t.before) + Detected(t.event) <= Tracked(t.after) + Cleared(t.event) + Dropped(t)
  }

  ghost predicate TracksAs(s: MachineState, e: Event, a: Applied) {
    a.Next? && Tracks(Step(s, e, a.state, a.commands))
  }

  lemma EmptySet()
    ensures BindingSet([]) == {}
  {}

  lemma SingleSet(v: Violation)
    ensures BindingSet([v]) == {v.binding}
  {
    BindingSetOfAppend([], v);
    assert [] + [v] == [v];
  }

  lemma FlowTracks(f: FlowEffect, s: MachineState, e: Event)
    requires ShapeInv(s) && FlowReady(f, s, e) && !e.ViolationDetected? && ApplyFlow(f, s, e).Next?
    ensures TracksAs(s, e, ApplyFlow(f, s, e))
  {
    hide BindingSet;
    hide Cleared;
    hide Registered;
  }

  lemma MergeTracks(m: MergeEffect, s: MachineState, e: Event)
    requires ShapeInv(s) && MergeReady(m, s, e) && !e.ViolationDetected? && ApplyMerge(m, s, e).Next?
    ensures TracksAs(s, e, ApplyMerge(m, s, e))
  {
    hide BindingSet;
    hide Registered;
    EmptySet();
    if m.FreshReview? && IntegrityBlocked(s) {
      BindingSetOfBindings(s.block.value.violations);
      assert BlockBindings(s) <= Cleared(e);
    }
  }

  lemma ResumeTracks(r: ResumeEffect, s: MachineState, e: Event)
    requires ShapeInv(s) && ResumeReady(r, s, e) && !e.ViolationDetected? && ApplyResume(r, s, e).Next?
    ensures TracksAs(s, e, ApplyResume(r, s, e))
  {
    hide BindingSet;
    hide Cleared;
    hide Registered;
  }

  lemma DetectUnionTracks(i: IntegrityEffect, s: MachineState, e: Event)
    requires i.DetectUnion? || i.DetectHaltUnion? || i.DetectBlockedUnion?
    requires Inv(s) && IntegrityReady(i, s, e) && ApplyIntegrity(i, s, e).Next?
    ensures TracksAs(s, e, ApplyIntegrity(i, s, e))
  {
    hide BindingSet;
    hide Canon;
    hide Canonical;
    hide Registered;
    var vs := if i.DetectUnion? then s.deferred else if i.DetectHaltUnion? then s.procedure.violations
        else s.block.value.violations;
    CanonFixedPoint(vs);
    CanonAdd(vs, e.violation);
  }

  lemma DetectStopTracks(i: IntegrityEffect, s: MachineState, e: Event)
    requires i.DetectBlock? || i.DetectHalt?
    requires ShapeInv(s) && IntegrityReady(i, s, e) && ApplyIntegrity(i, s, e).Next?
    ensures TracksAs(s, e, ApplyIntegrity(i, s, e))
  {
    hide BindingSet;
    hide Registered;
    EmptySet();
    SingleSet(e.violation);
  }

  lemma CompleteTracks(i: IntegrityEffect, s: MachineState, e: Event)
    requires i.IncidentComplete?
    requires ShapeInv(s) && IntegrityReady(i, s, e) && ApplyIntegrity(i, s, e).Next?
    ensures TracksAs(s, e, ApplyIntegrity(i, s, e))
  {
    hide Registered;
    EmptySet();
    assert BindingSet(s.deferred) <= Cleared(e);
    hide BindingSet;
    hide Covers;
  }

  lemma RemainderTracks(i: IntegrityEffect, s: MachineState, e: Event)
    requires i.IncidentRemainder?
    requires Inv(s) && IntegrityReady(i, s, e) && ApplyIntegrity(i, s, e).Next?
    ensures TracksAs(s, e, ApplyIntegrity(i, s, e))
  {
    hide BindingSet;
    hide Canon;
    hide Canonical;
    hide Registered;
    hide Covers;
    hide Unrecorded;
    CanonFixedPoint(s.deferred);
    UnrecordedCanonical(s.deferred, set b | b in e.detail.recorded);
    assert Cleared(e) == set b | b in e.detail.recorded;
  }

  lemma OutcomeTracks(i: IntegrityEffect, s: MachineState, e: Event)
    requires i.OutcomeToIncident? || i.OutcomeToBlock? || i.HaltComplete? || i.Replay?
    requires ShapeInv(s) && IntegrityReady(i, s, e) && !e.ViolationDetected? && ApplyIntegrity(i, s, e).Next?
    ensures TracksAs(s, e, ApplyIntegrity(i, s, e))
  {
    hide BindingSet;
    hide Cleared;
    hide Registered;
    EmptySet();
  }

  lemma IntegrityTracks(i: IntegrityEffect, s: MachineState, e: Event)
    requires Inv(s) && IntegrityReady(i, s, e) && ApplyIntegrity(i, s, e).Next?
    requires e.ViolationDetected? ==> Detects(Integrity(i))
    ensures TracksAs(s, e, ApplyIntegrity(i, s, e))
  {
    hide TracksAs;
    match i
    case DetectUnion(_) => DetectUnionTracks(i, s, e);
    case DetectHaltUnion => DetectUnionTracks(i, s, e);
    case DetectBlockedUnion => DetectUnionTracks(i, s, e);
    case DetectBlock => DetectStopTracks(i, s, e);
    case DetectHalt => DetectStopTracks(i, s, e);
    case IncidentComplete => CompleteTracks(i, s, e);
    case IncidentRemainder => RemainderTracks(i, s, e);
    case _ => OutcomeTracks(i, s, e);
  }

  lemma EffectTracks(x: Effect, s: MachineState, e: Event)
    requires Inv(s) && Ready(x, s, e) && Apply(x, s, e).Next?
    requires e.ViolationDetected? ==> Detects(x)
    ensures TracksAs(s, e, Apply(x, s, e))
  {
    hide TracksAs;
    match x
    case Flow(f) => FlowTracks(f, s, e);
    case Merge(m) => MergeTracks(m, s, e);
    case Resume(r) => ResumeTracks(r, s, e);
    case Integrity(i) => IntegrityTracks(i, s, e);
  }

  /**
   * Every accepted step accounts for each violation: kept, newly detected, settled by its event, or dropped by the
   * cancel.
   */
  lemma StepTracks(t: Step)
    requires Legal(t) && Inv(t.before)
    ensures Tracks(t)
  {
    hide Legal;
    hide Inv;
    hide Ready;
    hide Apply;
    hide RuleOf;
    hide Tracks;
    var id := StepEffect(t);
    EffectTracks(RuleOf(id).effect, t.before, t.event);
  }

  // ---- over whole runs ----

  /** Some step after the i-th settled the binding while it was still tracked. */
  ghost predicate SettledAfter(run: seq<Step>, i: int, b: Binding) {
    exists j :: 0 <= i < j < |run| && b in Cleared(run[j].event) && b in Tracked(run[j].before)
  }

  /** The run ended by cancelling while it was blocked on this violation. */
  ghost predicate LostToCancel(run: seq<Step>, b: Binding) {
    run != [] && run[|run| - 1].after.state == Cancelled && b in BlockBindings(run[|run| - 1].before)
  }

  ghost predicate Detection(run: seq<Step>, i: int) {
    0 <= i < |run| && run[i].event.ViolationDetected?
  }

  lemma SettledPrefix(run: seq<Step>, n: nat, i: int, b: Binding)
    requires n <= |run| && SettledAfter(run[..n], i, b)
    ensures SettledAfter(run, i, b)
  {
    var j :| 0 <= i < j < n && b in Cleared(run[..n][j].event) && b in Tracked(run[..n][j].before);
    assert run[..n][j] == run[j];
  }

  lemma TerminalEnds(t: Step)
    requires Legal(t)
    ensures !Terminal(t.before.state)
  {}

  lemma TerminalUntracked(s: MachineState)
    requires Inv(s) && Terminal(s.state)
    ensures Tracked(s) == {}
  {
    EmptySet();
  }

  /** A detected violation stays tracked until a later event settles it, or a cancel drops it and ends the run. */
  lemma {:induction false} DetectedIsKept(s: MachineState, run: seq<Step>, i: int)
    requires Inv(s) && RunFrom(s, run) && Detection(run, i)
    ensures var b := run[i].event.violation.binding;
            b in Tracked(EndOf(s, run)) || SettledAfter(run, i, b) || LostToCancel(run, b)
    decreases |run|
  {
    hide Inv;
    hide Legal;
    hide Tracked;
    hide Cleared;
    var init, last := run[..|run| - 1], run[|run| - 1];
    var b := run[i].event.violation.binding;
    RunPreserves(s, run);
    StepTracks(last);
    if i < |init| {
      DetectedIsKept(s, init, i);
      assert last.before == EndOf(s, init);
      TerminalEnds(last);
      assert !LostToCancel(init, b);
      if SettledAfter(init, i, b) {
        SettledPrefix(run, |init|, i, b);
      }
    } else {
      assert Cleared(last.event) == {} by { DetectionClearsNothing(last.event); }
    }
  }

  lemma DetectionClearsNothing(e: Event)
    requires e.ViolationDetected?
    ensures Cleared(e) == {}
  {}

  /** Conservation: a run that merged settled every violation it ever detected. */
  lemma MergedSettlesAll(s: MachineState, run: seq<Step>, i: int)
    requires Inv(s) && RunFrom(s, run) && Detection(run, i)
    requires EndOf(s, run).state == Merged
    ensures SettledAfter(run, i, run[i].event.violation.binding)
  {
    hide Inv;
    RunPreserves(s, run);
    DetectedIsKept(s, run, i);
    TerminalUntracked(EndOf(s, run));
  }

  /** A cancelled run settled them too, except those of the integrity block it was cancelled in. */
  lemma CancelledSettlesOrDrops(s: MachineState, run: seq<Step>, i: int)
    requires Inv(s) && RunFrom(s, run) && Detection(run, i)
    requires EndOf(s, run).state == Cancelled
    ensures var b := run[i].event.violation.binding; SettledAfter(run, i, b) || LostToCancel(run, b)
  {
    hide Inv;
    RunPreserves(s, run);
    DetectedIsKept(s, run, i);
    TerminalUntracked(EndOf(s, run));
  }

  /** Conversely, nothing is tracked that was not detected. */
  lemma {:induction false} TrackedWasDetected(s: MachineState, run: seq<Step>, b: Binding)
    requires Inv(s) && RunFrom(s, run) && b in Tracked(EndOf(s, run))
    ensures b in Tracked(s) || exists i :: Detection(run, i) && run[i].event.violation.binding == b
    decreases |run|
  {
    hide Inv;
    hide Legal;
    hide Tracked;
    if run != [] {
      var init, last := run[..|run| - 1], run[|run| - 1];
      RunPreserves(s, run);
      StepTracks(last);
      assert last.before == EndOf(s, init);
      if b in Tracked(last.before) {
        TrackedWasDetected(s, init, b);
        if b !in Tracked(s) {
          var i :| Detection(init, i) && init[i].event.violation.binding == b;
          assert Detection(run, i) && run[i] == init[i];
        }
      } else {
        assert Detection(run, |run| - 1);
      }
    }
  }

  lemma InitialUntracked(preflightOk: bool)
    ensures Tracked(Initialize(preflightOk).0) == {}
  {
    EmptySet();
  }

  /** So a run from its start answers for a violation only because it detected it. */
  lemma RunTracksItsDetections(preflightOk: bool, run: seq<Step>, b: Binding)
    requires RunFrom(Initialize(preflightOk).0, run) && b in Tracked(EndOf(Initialize(preflightOk).0, run))
    ensures exists i :: Detection(run, i) && run[i].event.violation.binding == b
  {
    hide Inv;
    hide RunFrom;
    hide Tracked;
    InitialInv(preflightOk);
    InitialUntracked(preflightOk);
    TrackedWasDetected(Initialize(preflightOk).0, run, b);
  }

  lemma TrackedInIntegrityBlock(s: MachineState)
    requires Inv(s) && NormalIn(s, Blocked) && IntegrityBlocked(s)
    ensures s.deferred == [] && Tracked(s) == BlockBindings(s) != {}
  {
    var v := s.block.value.violations[0];
    assert v.binding in BlockBindings(s);
    EmptySet();
  }

  lemma CancelClearsNothing(e: Event)
    requires e.CancellationCompleted? || (e.Verified? && e.name == UserCancelVerified)
    ensures Cleared(e) == {}
  {}

  /** The exception is real: a cancel while blocked on record integrity ends the run with nothing recorded. */
  lemma CancelDropsBlockedViolations(s: MachineState, cancel: RecordEvidence) returns (run: seq<Step>)
    requires Inv(s) && NormalIn(s, Blocked) && IntegrityBlocked(s) && cancel.kind == UserCancel
    ensures RunFrom(s, run) && EndOf(s, run).state == Cancelled
    ensures Tracked(s) != {} && forall b :: b in Tracked(s) ==> LostToCancel(run, b)
    ensures forall i :: 0 <= i < |run| ==> Cleared(run[i].event) == {}
  {
    hide Inv;
    hide Legal;
    hide Cleared;
    hide Tracked;
    hide BindingSet;
    TrackedInIntegrityBlock(s);
    var t := CancelStarts(s, cancel);
    var done := CancelCompletes(t.after);
    CancelClearsNothing(t.event);
    CancelClearsNothing(done.event);
    run := [t, done];
  }
}
