/** Crashing and resuming is stuttering: it repeats the interrupted work and changes nothing else. */
module Recovery {
  import opened Vocabulary
  import opened Violations
  import opened MachineStates
  import opened Events
  import opened Guards
  import opened Rules
  import opened Machine
  import opened Readiness
  import opened Invariant
  import opened Runs

  predicate Crashable(s: MachineState) {
    s.procedure.Normal? && Active(s.state) && s.state != Merging
  }

  /** The failed state a crash leaves, with the work kept for the resume. */
  function Failure(s: MachineState): MachineState {
    s.(state := Failed, recoveryTo := Some(s.state))
  }

  predicate CrashOrResume(e: Event) {
    e == Signal(RunFailed) || e == Signal(ResumeValidated)
  }

  /** What a resume asks for again: the publication of the pending record, or the awaited response. */
  function Redo(s: MachineState): seq<Command> {
    if s.pending.Some? then [PersistRecord(s.pending.value.kind, s.pending.value.binding)]
    else if s.awaiting.Some? then AwaitingCommands(s.awaiting.value) else []
  }

  function RecoveryRule(s: MachineState, failed: bool, e: Event): RuleId {
    if e == Signal(RunFailed) then CancelRule(if failed then F02 else F01)
    else ResumeRule(if s.pending.Some? then RP else if failed then RA1 else RA2)
  }

  predicate RecoveryMove(s: MachineState, e: Event, a: Applied) {
    a == if e == Signal(RunFailed) then Next(Failure(s), []) else Next(s, Redo(s))
  }

  lemma LiveFailEnabled(s: MachineState)
    requires ShapeInv(s) && Crashable(s)
    ensures Enabled(RecoveryRule(s, false, Signal(RunFailed)), s, Signal(RunFailed))
  {
    hide Registered;
    hide Canon;
  }

  lemma LiveResumeEnabled(s: MachineState)
    requires ShapeInv(s) && Crashable(s)
    ensures Enabled(RecoveryRule(s, false, Signal(ResumeValidated)), s, Signal(ResumeValidated))
  {
    hide Registered;
    hide Canon;
  }

  lemma FailedFailEnabled(s: MachineState)
    requires ShapeInv(s) && Crashable(s)
    ensures Enabled(RecoveryRule(s, true, Signal(RunFailed)), Failure(s), Signal(RunFailed))
  {
    hide Registered;
    hide Canon;
  }

  lemma FailedResumeEnabled(s: MachineState)
    requires ShapeInv(s) && Crashable(s)
    ensures Enabled(RecoveryRule(s, true, Signal(ResumeValidated)), Failure(s), Signal(ResumeValidated))
  {
    hide Registered;
    hide Canon;
  }

  lemma LiveMove(s: MachineState, e: Event)
    requires ShapeInv(s) && Crashable(s) && CrashOrResume(e)
    ensures RecoveryMove(s, e, Apply(RuleOf(RecoveryRule(s, false, e)).effect, s, e))
  {
    hide Registered;
    hide Canon;
    hide AwaitingCommands;
  }

  lemma FailedMove(s: MachineState, e: Event)
    requires ShapeInv(s) && Crashable(s) && CrashOrResume(e)
    ensures RecoveryMove(s, e, Apply(RuleOf(RecoveryRule(s, true, e)).effect, Failure(s), e))
  {
    hide Registered;
    hide Canon;
    hide AwaitingCommands;
  }

  lemma FailureInv(s: MachineState)
    requires Inv(s) && Crashable(s)
    ensures Inv(Failure(s))
  {
    hide Registered;
  }

  function Place(s: MachineState, failed: bool): MachineState {
    if failed then Failure(s) else s
  }

  /** One crash or resume, from the live state or from its failed image. */
  lemma RecoveryStep(s: MachineState, failed: bool, e: Event) returns (t: Step)
    requires Inv(s) && Crashable(s) && CrashOrResume(e)
    ensures Legal(t) && t.before == Place(s, failed) && t.event == e
    ensures t.after == Place(s, e == Signal(RunFailed))
    ensures t.commands == if e == Signal(RunFailed) then [] else Redo(s)
  {
    hide ShapeInv;
    hide CanonicalSets;
    hide Legal;
    hide Enabled;
    hide RecoveryRule;
    hide Redo;
    FailureInv(s);
    if failed {
      FailedFailEnabled(s);
      FailedResumeEnabled(s);
      FailedMove(s, e);
    } else {
      LiveFailEnabled(s);
      LiveResumeEnabled(s);
      LiveMove(s, e);
    }
    t := AcceptedBy(RecoveryRule(s, failed, e), Place(s, failed), e);
  }

  lemma StepDetermined(t: Step, u: Step)
    requires Legal(t) && Legal(u) && t.before == u.before && t.event == u.event
    ensures t == u
  {
    hide Transition;
  }

  /**
   * Any sequence of crashes and resumes visits only the interrupted state and its failed image, ends where its last
   * event says, and asks only for the work that was interrupted.
   */
  lemma {:induction false} CrashAndResumeStutter(s: MachineState, run: seq<Step>)
    requires Inv(s) && Crashable(s) && RunFrom(s, run)
    requires forall i :: 0 <= i < |run| ==> CrashOrResume(run[i].event)
    ensures forall i :: 0 <= i < |run| ==> run[i].after == Place(s, run[i].event == Signal(RunFailed))
    ensures forall i :: 0 <= i < |run| ==> run[i].commands == if run[i].event == Signal(RunFailed) then [] else Redo(s)
    decreases |run|
  {
    hide Inv;
    hide Legal;
    hide Redo;
    hide CrashOrResume;
    if run != [] {
      var init, last := run[..|run| - 1], run[|run| - 1];
      CrashAndResumeStutter(s, init);
      var failed := init != [] && init[|init| - 1].event == Signal(RunFailed);
      assert last.before == Place(s, failed);
      var t := RecoveryStep(s, failed, last.event);
      StepDetermined(last, t);
    }
  }

  /** And every such sequence is accepted. */
  lemma {:induction false} CrashAndResumeAccepted(s: MachineState, word: seq<Event>) returns (run: seq<Step>)
    requires Inv(s) && Crashable(s)
    requires forall i :: 0 <= i < |word| ==> CrashOrResume(word[i])
    ensures RunFrom(s, run) && |run| == |word| && forall i :: 0 <= i < |word| ==> run[i].event == word[i]
    decreases |word|
  {
    hide Inv;
    hide Legal;
    hide CrashOrResume;
    run := [];
    if word != [] {
      var n := |word| - 1;
      run := CrashAndResumeAccepted(s, word[..n]);
      CrashAndResumeStutter(s, run);
      var failed := run != [] && run[n - 1].event == Signal(RunFailed);
      var t := RecoveryStep(s, failed, word[n]);
      run := run + [t];
    }
  }
}
