/**
 * Halts, requests and emergency stops in one history: whatever crashes, what must be stopped is asked for until nothing
 * runs.
 */
module StopHistory {
  import opened Vocabulary
  import opened MachineStates
  import opened Events
  import opened Machine
  import opened Readiness
  import opened Invariant
  import opened Runs
  import opened Endings
  import opened CheckpointCodec
  import opened Stopping
  import SubmitOnce
  import HappyPath

  datatype Move = DoHalt(weather: Weather) | DoRequest(evidence: Ref) | DoStop(weather: Weather)

  function Moved(p: Plant, m: Move): Plant {
    match m
    case DoHalt(weather) => Halted(p, weather).0
    case DoRequest(evidence) => Requested(p, evidence)
    case DoStop(weather) => EmergencyStopped(p, weather).0
  }

  function Play(p: Plant, moves: seq<Move>): Plant {
    if moves == [] then p else Moved(Play(p, moves[..|moves| - 1]), moves[|moves| - 1])
  }

  predicate Halts(m: MachineState) {
    m.procedure.Cancelling? || m.procedure.HaltingForBlock?
  }

  /** A requested stop, or the halt of a procedure, is still to be carried out. */
  predicate Owed(p: Plant) {
    p.request.Some? || Halts(p.machine)
  }

  ghost predicate Kept(p: Plant) {
    Inv(p.machine) && Storable(p.machine) && Covered(p)
  }

  // ---- one move ----

  lemma HaltNextInv(m: MachineState)
    requires Inv(m) && Halts(m)
    ensures Inv(HaltNext(m)) && !Halts(HaltNext(m))
  {
    hide ShapeInv;
    hide CanonicalSets;
    hide Transition;
    hide Nearer;
    hide Legal;
    HaltingIsLive(m);
    HaltNextStep(m);
    var t := NextStep(m, "");
    StepIsTransition(t);
    assert CompletionEvent(m.procedure) == Some(NextEvent(m, ""));
  }

  lemma CancelledInv()
    ensures Inv(MachineState(Cancelled))
  {
    CanonSmall(Violation("", "", ""));
  }

  /** What one move leaves of what was owed: all of it, or nothing that runs. */
  ghost predicate Honoured(p: Plant, q: Plant) {
    && q.live <= p.live
    && (p.request.Some? ==> q.request == p.request || q.live == {})
    && (Halts(p.machine) ==> q.machine == p.machine || q.live == {})
  }

  lemma HaltMove(p: Plant, weather: Weather)
    requires Kept(p)
    ensures var q := Halted(p, weather).0; Kept(q) && Honoured(p, q)
  {
    hide Inv;
    hide Storable;
    hide Transition;
    if Halts(p.machine) {
      HaltStep(p, weather);
      HaltNextStorable(p.machine);
      HaltNextInv(p.machine);
      StopTreesFacts(p.ledger, p.live, weather.replies);
    } else {
      NoProcedureNoHalt(p, weather);
    }
  }

  lemma StopMove(p: Plant, weather: Weather)
    requires Kept(p)
    ensures var q := EmergencyStopped(p, weather).0; Kept(q) && Honoured(p, q)
  {
    hide Inv;
    hide Storable;
    hide Transition;
    if p.request.Some? {
      EmergencyOnce(p, weather);
      EmergencyRefusedOnlyInMerging(p.machine, p.request.value);
      CancelledInv();
      CancelledStorable();
      StopTreesFacts(p.ledger, p.live, weather.replies);
      hide EmergencyNext;
    } else {
      NothingRequested(p, weather);
    }
  }

  lemma MoveKeeps(p: Plant, m: Move)
    requires Kept(p)
    ensures Kept(Moved(p, m)) && Honoured(p, Moved(p, m))
  {
    hide Inv;
    hide Storable;
    hide Halted;
    hide EmergencyStopped;
    match m
    case DoHalt(weather) => HaltMove(p, weather);
    case DoRequest(_) =>
    case DoStop(weather) => StopMove(p, weather);
  }

  // ---- any history ----

  /**
   * Over every history of halts, stop requests and emergency stops, each cut short anywhere: running trees stay in the
   * ledger, and a recorded request or a procedure's halt survives unchanged for as long as any tree runs.
   */
  lemma {:induction false} OwedUntilNothingRuns(p: Plant, moves: seq<Move>)
    requires Kept(p)
    ensures Kept(Play(p, moves)) && Honoured(p, Play(p, moves))
    decreases |moves|
  {
    hide Kept;
    hide Moved;
    if moves != [] {
      OwedUntilNothingRuns(p, moves[..|moves| - 1]);
      MoveKeeps(Play(p, moves[..|moves| - 1]), moves[|moves| - 1]);
    }
  }

  /** What is owed is what the next step of the run asks for, the request before the procedure. */
  lemma OwedIsDemanded(p: Plant, around: SubmitOnce.Surroundings)
    requires Inv(p.machine)
    ensures Demand(p, around) == Some(SubmitOnce.EmergencyStopRequired) <==> p.request.Some?
    ensures Demand(p, around) == Some(SubmitOnce.HaltRequired) <==> p.request.None? && Halts(p.machine)
  {
    hide Inv;
    if Halts(p.machine) { HaltingIsLive(p.machine); }
  }

  /** Whatever happened since: as long as a tree runs, the next step of the run is a stop. */
  lemma StopDemandedWhileRunning(p: Plant, moves: seq<Move>, around: SubmitOnce.Surroundings)
    requires Kept(p) && Owed(p)
    ensures var q := Play(p, moves);
            || q.live == {}
            || Demand(q, around) == Some(SubmitOnce.EmergencyStopRequired)
            || Demand(q, around) == Some(SubmitOnce.HaltRequired)
  {
    hide Inv;
    hide Storable;
    hide Demand;
    hide Play;
    OwedUntilNothingRuns(p, moves);
    OwedIsDemanded(Play(p, moves), around);
  }

  // ---- doing what is demanded ----

  function Answered(p: Plant, weather: Weather): Plant {
    if p.request.Some? then EmergencyStopped(p, weather).0 else if Halts(p.machine) then Halted(p, weather).0 else p
  }

  function Follow(p: Plant, calls: seq<Weather>): Plant {
    if calls == [] then p else Answered(Follow(p, calls[..|calls| - 1]), calls[|calls| - 1])
  }

  /** Where the stops lead undisturbed: the procedure's completion, or the emergency completion outside procedures. */
  function Final(p: Plant): Plant
    requires Owed(p)
  {
    if Halts(p.machine) then Plant(HaltNext(p.machine), [], None, {})
    else if Terminal(p.machine.state) || !p.machine.procedure.Normal? then Plant(p.machine, [], None, {})
    else Plant(MachineState(Cancelled), [], None, {})
  }

  /** On the way: nothing done yet, the request done and the halt still owed, or everything done. */
  ghost predicate OnTheWay(p: Plant, q: Plant)
    requires Owed(p)
  {
    || (Kept(q) && q.machine == p.machine && (q.request == p.request || (q.request.None? && Halts(p.machine))))
    || q == Final(p)
  }

  lemma FinalOwesNothing(p: Plant)
    requires Kept(p) && Owed(p)
    ensures !Owed(Final(p))
  {
    hide Inv;
    hide Storable;
    hide HaltNext;
    if Halts(p.machine) { HaltNextInv(p.machine); }
  }

  lemma AnswerStep(p: Plant, q: Plant, weather: Weather)
    requires Kept(p) && Owed(p) && OnTheWay(p, q)
    ensures OnTheWay(p, Answered(q, weather))
  {
    hide Inv;
    hide Storable;
    hide Transition;
    hide HaltNext;
    if q == Final(p) {
      FinalOwesNothing(p);
    } else if q.request.Some? {
      EmergencyOnce(q, weather);
      StopMove(q, weather);
      EmergencyRefusedOnlyInMerging(q.machine, q.request.value);
      hide EmergencyNext;
    } else {
      HaltStep(q, weather);
      HaltMove(q, weather);
    }
  }

  /**
   * Doing what the run asks for, through any crashes and failures: a stop is still owed, or the checkpoint is exactly
   * the one undisturbed stops would have left, with nothing running.
   */
  lemma {:induction false} FollowIsCrashSafe(p: Plant, calls: seq<Weather>)
    requires Kept(p) && Owed(p)
    ensures var q := Follow(p, calls); OnTheWay(p, q) && (Owed(q) || q == Final(p))
    decreases |calls|
  {
    hide Kept;
    hide Answered;
    hide Final;
    if calls != [] {
      FollowIsCrashSafe(p, calls[..|calls| - 1]);
      AnswerStep(p, Follow(p, calls[..|calls| - 1]), calls[|calls| - 1]);
    }
  }

  /** Two undisturbed calls settle everything, exactly unless the run is merging outside any procedure. */
  lemma TwoCallsSettle(p: Plant)
    requires Kept(p) && Owed(p)
    ensures Answered(Answered(p, Weather([], true)), Weather([], true)) == Final(p) <==> !NormalIn(p.machine, Merging)
  {
    hide Inv;
    hide Storable;
    var calm := Weather([], true);
    FinalOwesNothing(p);
    CalmAnswer(p);
    if p.request.Some? && !NormalIn(p.machine, Merging) && Halts(p.machine) {
      CalmAnswer(Answered(p, calm));
    }
    hide HaltNext;
    hide EmergencyStopped;
    hide Halted;
  }

  lemma CalmAnswer(p: Plant)
    requires Kept(p) && Owed(p)
    ensures var q := Answered(p, Weather([], true));
            && Kept(q)
            && (NormalIn(p.machine, Merging) ==> q == p)
            && (!NormalIn(p.machine, Merging) ==>
                  q == if p.request.Some? && Halts(p.machine) then Plant(p.machine, [], None, {}) else Final(p))
  {
    hide Inv;
    hide Storable;
    hide Transition;
    hide HaltNext;
    var calm := Weather([], true);
    CalmStops(p.ledger, p.live);
    StopTreesFacts(p.ledger, p.live, []);
    if p.request.Some? {
      EmergencyOnce(p, calm);
      StopMove(p, calm);
      EmergencyRefusedOnlyInMerging(p.machine, p.request.value);
      CancelledStorable();
      hide EmergencyNext;
      hide StopTrees;
    } else {
      CalmHaltCompletes(p);
      HaltMove(p, calm);
    }
  }

  // ---- the exception at a reachable state ----

  /**
   * A run on its way to a merge, with one tree running and a stop requested: no emergency stop ever reaches the tree.
   */
  lemma MergingTreeKeepsRunning(b: Binding, evidence: Ref, tree: Tree, calls: seq<Weather>)
      returns (run: seq<Runs.Step>)
    ensures RunFrom(Initialize(true).0, run) && EndOf(Initialize(true).0, run).state == Merging
    ensures var p := Plant(EndOf(Initialize(true).0, run), [tree], Some(evidence), {tree});
            StopWanted(p) && StopAgain(p, calls) == p
  {
    hide Inv;
    hide Legal;
    hide StopAgain;
    run := HappyPath.Path(6, b);
    EmergencyStuckWhileMerging(Plant(HappyPath.StateAt(6, b), [tree], Some(evidence), {tree}), calls);
  }
}
