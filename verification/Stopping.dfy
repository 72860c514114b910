/** Stopping process trees before saving that they are stopped: halts and emergency stops under crashes. */
module Stopping {
  import opened Vocabulary
  import opened Violations
  import opened MachineStates
  import opened Events
  import opened Guards
  import opened Rules
  import opened Machine
  import opened Readiness
  import opened Invariant
  import opened Runs
  import opened Endings
  import opened CheckpointCodec
  import opened Persistence
  import SubmitOnce

  /** A reference to a process tree. */
  type Tree = string

  /** What the checkpoint stores about stopping, and which trees really run. */
  datatype Plant = Plant(machine: MachineState, ledger: seq<Tree>, request: Option<Ref>, live: set<Tree>)

  /** Stopping a tree returns once it is dead, raises with its fate unknown, or is cut short by a crash. */
  datatype StopReply = Dead | Raised(died: bool) | Crash(died: bool)

  /** The replies in order, further trees dying at once; and whether the process survives to the save. */
  datatype Weather = Weather(replies: seq<StopReply>, survives: bool)

  datatype StopRun = AllStopped | FailedAt(remaining: seq<Tree>) | Crashed

  function After(live: set<Tree>, tree: Tree, reply: StopReply): set<Tree> {
    if reply.Dead? || reply.died then live - {tree} else live
  }

  /** The trees are stopped in order; the first that cannot be ends the attempt with it and all later ones remaining. */
  function StopTrees(refs: seq<Tree>, live: set<Tree>, replies: seq<StopReply>): (set<Tree>, StopRun) {
    if refs == [] then (live, AllStopped)
    else
      var reply := if replies == [] then Dead else replies[0];
      var left := After(live, refs[0], reply);
      match reply
      case Dead => StopTrees(refs[1..], left, if replies == [] then [] else replies[1..])
      case Raised(_) => (left, FailedAt(refs))
      case Crash(_) => (left, Crashed)
  }

  datatype Outcome = Completed | StopFailed | Interrupted | NoProcedure | IllegalEvent | NotPersistable | NoRequest

  // ---- the halt of a procedure ----

  function CompletionEvent(p: Procedure): Option<Event> {
    match p
    case Cancelling(attempt) => Some(CancellationCompleted(Some(attempt), None))
    case HaltingForBlock(_, attempt) => Some(BlockHaltCompleted(attempt))
    case _ => None
  }

  /** Saves the new state and ledger, if the process survives and the state can be stored. */
  function Save(p: Plant, live: set<Tree>, next: MachineState, refs: seq<Tree>, request: Option<Ref>, survives: bool,
      done: Outcome)
    : (Plant, Outcome)
  {
    if !Storable(next) then (p.(live := live), NotPersistable)
    else if !survives then (p.(live := live), Interrupted)
    else (Plant(next, refs, request, live), done)
  }

  function Halted(p: Plant, weather: Weather): (Plant, Outcome) {
    match CompletionEvent(p.machine.procedure)
    case None => (p, NoProcedure)
    case Some(event) =>
      match Transition(p.machine, event)
      case Accepted(next, _) =>
        var (live, run) := StopTrees(p.ledger, p.live, weather.replies);
        (match run
         case Crashed => (p.(live := live), Interrupted)
         case AllStopped => Save(p, live, next, [], p.request, weather.survives, Completed)
         case FailedAt(remaining) =>
           match Transition(p.machine, Signal(RunFailed))
           case Accepted(same, _) => Save(p, live, same, remaining, p.request, weather.survives, StopFailed)
           case _ => (p.(live := live), IllegalEvent))
      case _ => (p, IllegalEvent)
  }

  // ---- the emergency stop ----

  /** Recorded before anything is stopped, and never overwritten. */
  function Requested(p: Plant, evidence: Ref): Plant {
    if p.request.Some? then p else p.(request := Some(evidence))
  }

  /** The state after the emergency completion; outside the normal procedure and in terminal states none is entered. */
  function EmergencyNext(m: MachineState, evidence: Ref): Option<MachineState> {
    if Terminal(m.state) || !m.procedure.Normal? then Some(m)
    else match Transition(m, CancellationCompleted(None, Some(evidence)))
         case Accepted(next, _) => Some(next)
         case _ => None
  }

  function EmergencyStopped(p: Plant, weather: Weather): (Plant, Outcome) {
    if p.request.None? then (p, NoRequest)
    else match EmergencyNext(p.machine, p.request.value)
         case None => (p, IllegalEvent)
         case Some(next) =>
           var (live, run) := StopTrees(p.ledger, p.live, weather.replies);
           match run
           case Crashed => (p.(live := live), Interrupted)
           case FailedAt(_) => (p.(live := live), StopFailed)
           case AllStopped => Save(p, live, next, [], None, weather.survives, Completed)
  }

  // ---- stopping the trees of a ledger ----

  lemma {:induction false} StopTreesFacts(refs: seq<Tree>, live: set<Tree>, replies: seq<StopReply>)
    ensures var (left, run) := StopTrees(refs, live, replies);
            && left <= live
            && (forall t :: t in live && t !in refs ==> t in left)
            && (run.AllStopped? ==> forall t :: t in refs ==> t !in left)
            && (run.FailedAt? ==> forall t :: t in refs && t in left ==> t in run.remaining)
            && (run.FailedAt? ==> run.remaining != [] && forall t :: t in run.remaining ==> t in refs)
  {
    if refs != [] {
      var reply := if replies == [] then Dead else replies[0];
      assert refs == [refs[0]] + refs[1..];
      StopTreesFacts(refs[1..], After(live, refs[0], reply), if replies == [] then [] else replies[1..]);
    }
  }

  /** Every running tree is in the ledger, so that a later attempt can reach it. */
  ghost predicate Covered(p: Plant) {
    forall t :: t in p.live ==> t in p.ledger
  }

  // ---- the machine during a stop ----

  /** While a run halts, its completion is accepted and a failure changes nothing but reissues the halt. */
  lemma HaltTransitions(m: MachineState)
    requires Inv(m) && (m.procedure.Cancelling? || m.procedure.HaltingForBlock?)
    ensures CompletionEvent(m.procedure).Some? && Transition(m, CompletionEvent(m.procedure).value).Accepted?
    ensures Transition(m, Signal(RunFailed)) == Accepted(m, [HaltRun(m.procedure.attempt)])
  {
    HaltCompletionAccepted(m);
    HaltFailureReissues(m);
  }

  lemma HaltCompletionAccepted(m: MachineState)
    requires Inv(m) && (m.procedure.Cancelling? || m.procedure.HaltingForBlock?)
    ensures CompletionEvent(m.procedure).Some? && Transition(m, CompletionEvent(m.procedure).value).Accepted?
  {
    hide CanonicalSets;
    hide ContinuationRegistered;
    hide Transition;
    hide Nearer;
    var t := NextStep(m, "");
    assert CompletionEvent(m.procedure) == Some(NextEvent(m, ""));
  }

  lemma FailureReissueEnabled(m: MachineState)
    requires ShapeInv(m) && (m.procedure.Cancelling? || m.procedure.HaltingForBlock?)
    ensures !Terminal(m.state)
    ensures Enabled(ProcedureRule(if m.procedure.Cancelling? then XC else XH, OnRunFailed), m, Signal(RunFailed))
  {
    hide Registered;
    hide Canon;
  }

  lemma HaltFailureReissues(m: MachineState)
    requires Inv(m) && (m.procedure.Cancelling? || m.procedure.HaltingForBlock?)
    ensures Transition(m, Signal(RunFailed)) == Accepted(m, [HaltRun(m.procedure.attempt)])
  {
    hide ShapeInv;
    hide CanonicalSets;
    hide Enabled;
    hide Transition;
    FailureReissueEnabled(m);
    var t := AcceptedBy(ProcedureRule(if m.procedure.Cancelling? then XC else XH, OnRunFailed), m, Signal(RunFailed));
  }

  /** The emergency completion is refused exactly while a run is merging outside any procedure. */
  lemma EmergencyRefusedOnlyInMerging(m: MachineState, evidence: Ref)
    requires Inv(m)
    ensures EmergencyNext(m, evidence).None? <==> m.procedure.Normal? && m.state == Merging
    ensures EmergencyNext(m, evidence).Some? ==>
              EmergencyNext(m, evidence).value ==
              if Terminal(m.state) || !m.procedure.Normal? then m else MachineState(Cancelled)
  {
    hide CanonicalSets;
    hide ContinuationRegistered;
    hide Transition;
    hide Nearer;
    if m.procedure.Normal? && m.state == Merging {
      MergingRefusesEmergency(m, evidence);
    } else if m.procedure.Normal? && !Terminal(m.state) {
      var t := EmergencyStep(m, evidence);
    }
  }

  lemma MergingRefusesEmergency(m: MachineState, evidence: Ref)
    requires m.procedure.Normal? && m.state == Merging
    ensures Transition(m, CancellationCompleted(None, Some(evidence))).TransitionRejected?
  {
    hide Canon;
  }

  lemma EmergencyStep(m: MachineState, evidence: Ref) returns (t: Runs.Step)
    requires Inv(m) && m.procedure.Normal? && m.state != Merging && !Terminal(m.state)
    ensures Legal(t) && t.before == m && t.event == CancellationCompleted(None, Some(evidence))
    ensures t.after == MachineState(Cancelled)
  {
    hide ShapeInv;
    hide CanonicalSets;
    hide Legal;
    hide Enabled;
    EmergencyNextEnabled(m, evidence);
    t := AcceptedBy(CancelRule(C05), m, CancellationCompleted(None, Some(evidence)));
  }

  // ---- crash-safe halts ----

  ghost predicate Halting(p: Plant) {
    && Inv(p.machine) && Storable(p.machine) && Covered(p)
    && (p.machine.procedure.Cancelling? || p.machine.procedure.HaltingForBlock?)
  }

  /** The state in which the completed procedure leaves the machine. */
  function HaltNext(m: MachineState): MachineState {
    match CompletionEvent(m.procedure)
    case Some(event) => (match Transition(m, event) case Accepted(next, _) => next case _ => m)
    case None => m
  }

  lemma HaltNextStorable(m: MachineState)
    requires Inv(m) && Storable(m) && (m.procedure.Cancelling? || m.procedure.HaltingForBlock?)
    ensures Storable(HaltNext(m))
  {
    hide CanonicalSets;
    hide ContinuationRegistered;
    hide Transition;
    hide Storable;
    hide Nearer;
    var t := NextStep(m, "");
    assert CompletionEvent(m.procedure) == Some(NextEvent(m, ""));
    StepStores(t);
  }

  /** One halt, cut short anywhere: what runs stays reachable, and only a completed halt changes the state. */
  lemma HaltStep(p: Plant, weather: Weather)
    requires Halting(p)
    ensures var (q, out) := Halted(p, weather);
            && Covered(q) && q.request == p.request
            && (out == Completed || out == StopFailed || out == Interrupted)
            && (if out == Completed then q == Plant(HaltNext(p.machine), [], p.request, {}) else q.machine == p.machine)
  {
    hide Inv;
    hide Transition;
    hide Storable;
    HaltTransitions(p.machine);
    HaltNextStorable(p.machine);
    StopTreesFacts(p.ledger, p.live, weather.replies);
    hide StopTrees;
    var (live, run) := StopTrees(p.ledger, p.live, weather.replies);
    if run.AllStopped? { assert live == {}; }
  }

  function HaltAgain(p: Plant, calls: seq<Weather>): Plant {
    if calls == [] then p else Halted(HaltAgain(p, calls[..|calls| - 1]), calls[|calls| - 1]).0
  }

  /** What a completed halt leaves behind, however it came about. */
  ghost predicate HaltDone(p: Plant, q: Plant) {
    q == Plant(HaltNext(p.machine), [], p.request, {})
  }

  lemma HaltNextNormal(m: MachineState)
    requires Inv(m) && (m.procedure.Cancelling? || m.procedure.HaltingForBlock?)
    ensures CompletionEvent(HaltNext(m).procedure).None?
  {
    hide ShapeInv;
    hide CanonicalSets;
    hide Transition;
    hide Legal;
    HaltNextStep(m);
  }

  /** The completion of a cancel ends or records an incident, that of a halt blocks. */
  lemma HaltNextStep(m: MachineState)
    requires Inv(m) && (m.procedure.Cancelling? || m.procedure.HaltingForBlock?)
    ensures HaltNext(m).procedure.Normal? || HaltNext(m).procedure.RecordingIncident?
  {
    hide ShapeInv;
    hide CanonicalSets;
    hide Transition;
    hide Legal;
    hide Enabled;
    HaltingIsLive(m);
    StopNextEnabled(m, "");
    assert CompletionEvent(m.procedure) == Some(NextEvent(m, ""));
    var t := AcceptedBy(NextRule(m), m, NextEvent(m, ""));
    StepIsTransition(t);
  }

  lemma StepIsTransition(t: Runs.Step)
    requires Legal(t)
    ensures Transition(t.before, t.event) == Accepted(t.after, t.commands)
  {}

  /**
   * Halting again and again through any crashes: running trees are always still in the ledger, and the run is either
   * exactly where it was or exactly where one undisturbed halt would have brought it, with nothing running.
   */
  lemma {:induction false} HaltIsCrashSafe(p: Plant, calls: seq<Weather>)
    requires Halting(p)
    ensures var q := HaltAgain(p, calls);
            Covered(q) && ((q.machine == p.machine && q.request == p.request) || HaltDone(p, q))
    decreases |calls|
  {
    hide Inv;
    hide Transition;
    hide Storable;
    hide Halted;
    if calls != [] {
      var init, last := calls[..|calls| - 1], calls[|calls| - 1];
      HaltIsCrashSafe(p, init);
      var q := HaltAgain(p, init);
      if q.machine == p.machine {
        HaltStep(q, last);
      } else {
        HaltNextNormal(p.machine);
        NoProcedureNoHalt(q, last);
      }
    }
  }

  lemma NoProcedureNoHalt(p: Plant, weather: Weather)
    requires CompletionEvent(p.machine.procedure).None?
    ensures Halted(p, weather).0 == p
  {
    hide Transition;
  }

  /** An undisturbed halt completes. */
  lemma CalmHaltCompletes(p: Plant)
    requires Halting(p)
    ensures Halted(p, Weather([], true)).1 == Completed && HaltDone(p, Halted(p, Weather([], true)).0)
  {
    hide Inv;
    hide Transition;
    hide Storable;
    HaltStep(p, Weather([], true));
    HaltTransitions(p.machine);
    HaltNextStorable(p.machine);
    CalmStops(p.ledger, p.live);
    hide StopTrees;
  }

  lemma {:induction false} CalmStops(refs: seq<Tree>, live: set<Tree>)
    ensures StopTrees(refs, live, []).1.AllStopped?
  {
    if refs != [] { CalmStops(refs[1..], After(live, refs[0], Dead)); }
  }

  // ---- crash-safe emergency stops ----

  function StopAgain(p: Plant, calls: seq<Weather>): Plant {
    if calls == [] then p else EmergencyStopped(StopAgain(p, calls[..|calls| - 1]), calls[|calls| - 1]).0
  }

  ghost predicate StopWanted(p: Plant) {
    Inv(p.machine) && Storable(p.machine) && Covered(p) && p.request.Some?
  }

  ghost predicate StopDone(p: Plant, q: Plant) {
    && p.request.Some? && EmergencyNext(p.machine, p.request.value).Some?
    && q == Plant(EmergencyNext(p.machine, p.request.value).value, [], None, {})
  }

  lemma CancelledStorable()
    ensures Storable(MachineState(Cancelled))
  {}

  lemma EmergencyOnce(p: Plant, weather: Weather)
    requires StopWanted(p)
    ensures var (q, out) := EmergencyStopped(p, weather);
            && Covered(q)
            && (if out == Completed then StopDone(p, q)
                else q.machine == p.machine && q.request == p.request && q.ledger == p.ledger)
            && (out == IllegalEvent <==> NormalIn(p.machine, Merging))
            && (out == IllegalEvent ==> q == p)
  {
    hide Inv;
    hide Transition;
    hide Storable;
    EmergencyRefusedOnlyInMerging(p.machine, p.request.value);
    hide EmergencyNext;
    CancelledStorable();
    StopTreesFacts(p.ledger, p.live, weather.replies);
    hide StopTrees;
    var (live, run) := StopTrees(p.ledger, p.live, weather.replies);
    if run.AllStopped? { assert live == {}; }
  }

  /** The same guarantee for an emergency stop; the request stays until nothing runs. */
  lemma {:induction false} EmergencyIsCrashSafe(p: Plant, calls: seq<Weather>)
    requires StopWanted(p)
    ensures var q := StopAgain(p, calls);
            Covered(q) && ((q.machine == p.machine && q.request == p.request && q.ledger == p.ledger) || StopDone(p, q))
    decreases |calls|
  {
    hide Inv;
    hide Storable;
    hide EmergencyStopped;
    hide EmergencyNext;
    if calls != [] {
      var init, last := calls[..|calls| - 1], calls[|calls| - 1];
      EmergencyIsCrashSafe(p, init);
      var q := StopAgain(p, init);
      if q.request.Some? {
        EmergencyOnce(q, last);
      } else {
        NothingRequested(q, last);
      }
    }
  }

  lemma NothingRequested(p: Plant, weather: Weather)
    requires p.request.None?
    ensures EmergencyStopped(p, weather).0 == p
  {}

  /** While a run merges outside any procedure no emergency stop ever touches a tree: the request just stays. */
  lemma {:induction false} EmergencyStuckWhileMerging(p: Plant, calls: seq<Weather>)
    requires StopWanted(p) && NormalIn(p.machine, Merging)
    ensures StopAgain(p, calls) == p
    decreases |calls|
  {
    hide Inv;
    hide Storable;
    hide EmergencyStopped;
    if calls != [] {
      EmergencyStuckWhileMerging(p, calls[..|calls| - 1]);
      EmergencyOnce(p, calls[|calls| - 1]);
    }
  }

  // ---- advance keeps asking for the stop ----

  function Demand(p: Plant, around: SubmitOnce.Surroundings): Option<SubmitOnce.AdvanceOutcome> {
    SubmitOnce.Elsewhere(SubmitOnce.Checkpoint(p.machine, None, [], p.request.Some?), around)
  }

  /** In whatever state crashes have left it, a stop is saved as done or the next step of the run is still that stop. */
  lemma StopStaysDemanded(p: Plant, calls: seq<Weather>, around: SubmitOnce.Surroundings)
    ensures StopWanted(p) ==>
              var q := StopAgain(p, calls);
              StopDone(p, q) || Demand(q, around) == Some(SubmitOnce.EmergencyStopRequired)
    ensures Halting(p) && p.request.None? ==>
              var q := HaltAgain(p, calls); HaltDone(p, q) || Demand(q, around) == Some(SubmitOnce.HaltRequired)
  {
    hide Inv;
    hide Storable;
    hide StopAgain;
    hide HaltAgain;
    hide StopDone;
    hide HaltDone;
    if StopWanted(p) { EmergencyIsCrashSafe(p, calls); }
    if Halting(p) {
      HaltIsCrashSafe(p, calls);
      HaltingIsLive(p.machine);
    }
  }

  lemma HaltingIsLive(m: MachineState)
    requires Inv(m) && (m.procedure.Cancelling? || m.procedure.HaltingForBlock?)
    ensures !Terminal(m.state)
  {}

  // ---- the calls as they run ----

  class Site {
    var machine: MachineState
    var ledger: seq<Tree>
    var request: Option<Ref>
    // The trees that really run; no code reads it, stopping changes it.
    var live: set<Tree>

    function Value(): Plant
      reads this
    {
      Plant(machine, ledger, request, live)
    }

    constructor (machine: MachineState, ledger: seq<Tree>, live: set<Tree>)
      ensures Value() == Plant(machine, ledger, None, live)
    {
      this.machine, this.ledger, this.request, this.live := machine, ledger, None, live;
    }

    /** Stops the trees one after the other; the attempt ends at the first failure. */
    method StopAll(replies: seq<StopReply>) returns (run: StopRun)
      modifies this`live
      ensures (live, run) == StopTrees(ledger, old(live), replies)
    {
      var left := replies;
      for index := 0 to |ledger|
        invariant StopTrees(ledger, old(live), replies) == StopTrees(ledger[index..], live, left)
      {
        assert ledger[index..][1..] == ledger[index + 1..];
        var reply := if left == [] then Dead else left[0];
        left := if left == [] then [] else left[1..];
        live := After(live, ledger[index], reply);
        if reply.Raised? {
          return FailedAt(ledger[index..]);
        }
        if reply.Crash? {
          return Crashed;
        }
      }
      return AllStopped;
    }

    method SaveStopped(next: MachineState, refs: seq<Tree>, request: Option<Ref>, survives: bool, done: Outcome)
        returns (out: Outcome)
      modifies this
      ensures (Value(), out) == Save(old(Value()), old(live), next, refs, request, survives, done)
    {
      hide Storable;
      if !Storable(next) {
        return NotPersistable;
      }
      if !survives {
        return Interrupted;
      }
      this.machine, this.ledger, this.request := next, refs, request;
      return done;
    }

    /** Asks the machine first, then stops, then saves. */
    method Halt(weather: Weather) returns (out: Outcome)
      modifies this
      ensures (Value(), out) == Halted(old(Value()), weather)
    {
      hide Transition;
      hide StopTrees;
      hide Save;
      var event := CompletionEvent(machine.procedure);
      if event.None? {
        return NoProcedure;
      }
      var completion := Transition(machine, event.value);
      if !completion.Accepted? {
        return IllegalEvent;
      }
      ghost var before := Value();
      var run := StopAll(weather.replies);
      SaveIgnoresLive(Value(), before);
      if run.Crashed? {
        return Interrupted;
      }
      if run.FailedAt? {
        var failed := Transition(machine, Signal(RunFailed));
        if !failed.Accepted? {
          return IllegalEvent;
        }
        out := SaveStopped(failed.next, run.remaining, request, weather.survives, StopFailed);
        return;
      }
      out := SaveStopped(completion.next, [], request, weather.survives, Completed);
    }

    method RequestStop(evidence: Ref)
      modifies this
      ensures Value() == Requested(old(Value()), evidence)
    {
      if request.None? {
        request := Some(evidence);
      }
    }

    /** The recorded request is carried out; it is cleared only together with the stopped trees. */
    method EmergencyStop(weather: Weather) returns (out: Outcome)
      modifies this
      ensures (Value(), out) == EmergencyStopped(old(Value()), weather)
    {
      hide EmergencyNext;
      hide StopTrees;
      hide Save;
      if request.None? {
        return NoRequest;
      }
      var next := EmergencyNext(machine, request.value);
      if next.None? {
        return IllegalEvent;
      }
      ghost var before := Value();
      var run := StopAll(weather.replies);
      SaveIgnoresLive(Value(), before);
      if run.Crashed? {
        return Interrupted;
      }
      if run.FailedAt? {
        return StopFailed;
      }
      out := SaveStopped(next.value, [], None, weather.survives, Completed);
    }
  }

  lemma SaveIgnoresLive(p: Plant, q: Plant)
    requires p.(live := q.live) == q
    ensures forall live, next, refs, request, survives, done ::
              Save(p, live, next, refs, request, survives, done) == Save(q, live, next, refs, request, survives, done)
  {
    hide Storable;
  }
}
