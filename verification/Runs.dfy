/** Runs of the machine: the events it accepted, with the states and commands around them. */
module Runs {
  import opened Vocabulary
  import opened Violations
  import opened MachineStates
  import opened Events
  import opened Guards
  import opened Rules
  import opened Machine
  import opened Readiness
  import opened Invariant

  datatype Step = Step(before: MachineState, event: Event, after: MachineState, commands: seq<Command>)

  ghost predicate Legal(t: Step) {
    Events.Constructible(t.event) && Transition(t.before, t.event) == Accepted(t.after, t.commands)
  }

  ghost predicate Linked(run: seq<Step>) {
    && (forall i :: 0 <= i < |run| ==> Legal(run[i]))
    && (forall i :: 0 < i < |run| ==> run[i - 1].after == run[i].before)
  }

  /** A run from a state, of any length. */
  ghost predicate RunFrom(s: MachineState, run: seq<Step>) {
    Linked(run) && (run != [] ==> run[0].before == s)
  }

  function EndOf(s: MachineState, run: seq<Step>): MachineState {
    if run == [] then s else run[|run| - 1].after
  }

  ghost predicate Reachable(s: MachineState) {
    exists ok, run :: RunFrom(Initialize(ok).0, run) && EndOf(Initialize(ok).0, run) == s
  }

  lemma StepPreserves(t: Step)
    requires Legal(t) && Inv(t.before)
    ensures Inv(t.after)
  {
    TransitionPreserves(t.before, t.event);
  }

  lemma {:induction false} RunPreserves(s: MachineState, run: seq<Step>)
    requires Inv(s) && RunFrom(s, run)
    ensures forall i :: 0 <= i < |run| ==> Inv(run[i].before) && Inv(run[i].after)
    ensures Inv(EndOf(s, run))
  {
    hide Inv;
    hide Legal;
    if run != [] {
      var init, last := run[..|run| - 1], run[|run| - 1];
      RunPreserves(s, init);
      assert last.before == EndOf(s, init);
      StepPreserves(last);
    }
  }

  /** Every state of every run satisfies the invariant, hence every construction check. */
  lemma ReachableInv(s: MachineState)
    requires Reachable(s)
    ensures Inv(s) && MachineStates.Constructible(s)
  {
    var ok, run :| RunFrom(Initialize(ok).0, run) && EndOf(Initialize(ok).0, run) == s;
    InitialInv(ok);
    RunPreserves(Initialize(ok).0, run);
    InvConstructible(s);
  }

  /** What is known of an accepted step: the effect of a ready rule. */
  lemma StepEffect(t: Step) returns (id: RuleId)
    requires Legal(t)
    ensures !Terminal(t.before.state)
    ensures Enabled(id, t.before, t.event)
    ensures Ready(RuleOf(id).effect, t.before, t.event)
    ensures Apply(RuleOf(id).effect, t.before, t.event) == Next(t.after, t.commands)
    ensures t.event.ViolationDetected? <==> Detects(RuleOf(id).effect)
  {
    hide Enabled;
    hide Ready;
    hide RuleOf;
    hide Detects;
    id := RuleBehind(t.before, t.event);
    EnabledReady(id, t.before, t.event);
    EnabledDetects(id, t.before, t.event);
  }

  /** An enabled rule is taken: the step exists and keeps the invariant. */
  lemma AcceptedBy(id: RuleId, s: MachineState, e: Event) returns (t: Step)
    requires Inv(s) && Events.Constructible(e) && !Terminal(s.state) && Enabled(id, s, e)
    ensures Legal(t) && t.before == s && t.event == e && Inv(t.after)
    ensures Apply(RuleOf(id).effect, s, e) == Next(t.after, t.commands)
  {
    hide Inv;
    hide Enabled;
    hide RuleOf;
    TransitionBy(id, s, e);
    RulePreserves(id, s, e);
    var a := Apply(RuleOf(id).effect, s, e);
    InvConstructible(a.state);
    t := Step(s, e, a.state, a.commands);
  }
}
