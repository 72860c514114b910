/** Every state of every run can be saved, provided the events carried nonempty values. */
module Persistence {
  import opened Vocabulary
  import opened Violations
  import opened MachineStates
  import opened Events
  import opened Guards
  import opened Rules
  import opened Machine
  import opened Readiness
  import opened Invariant
  import opened Runs
  import opened CheckpointCodec

  predicate FullEvidence(e: RecordEvidence) {
    e.binding != "" && e.ref != ""
  }

  predicate FullDetail(d: Detail) {
    match d
    case WithReport(report) => report.head != "" && report.snapshot != "" && report.fingerprint != ""
    case WithHead(head) => head != ""
    case _ => true
  }

  /** No opaque value an event hands to the state is empty. */
  predicate Full(e: Event) {
    match e
    case RecordProduced(_, binding) => binding != ""
    case Verified(_, evidence, detail) => FullEvidence(evidence) && FullDetail(detail)
    case ViolationDetected(violation) => StorableViolation(violation)
    case _ => true
  }

  predicate StorableNext(a: Applied) {
    a.Next? ==> Storable(a.state)
  }

  lemma CanonStorable(vs: seq<Violation>, v: Violation)
    requires StorableViolations(vs) && StorableViolation(v)
    ensures StorableViolations(Canon(vs + [v]))
  {
    hide Canon;
    forall w | w in Canon(vs + [v]) ensures StorableViolation(w) {
      CanonMembers(vs + [v], w);
      FirstFacts(vs + [v]);
    }
  }

  lemma FlowStores(f: FlowEffect, s: MachineState, e: Event)
    requires Storable(s) && Full(e) && FlowReady(f, s, e)
    ensures StorableNext(ApplyFlow(f, s, e))
  {
    hide StorableViolations;
  }

  lemma MergeStores(m: MergeEffect, s: MachineState, e: Event)
    requires Storable(s) && Full(e) && MergeReady(m, s, e)
    ensures StorableNext(ApplyMerge(m, s, e))
  {
    hide Registered;
  }

  lemma ResumeStores(r: ResumeEffect, s: MachineState, e: Event)
    requires Storable(s) && Full(e) && ResumeReady(r, s, e)
    ensures StorableNext(ApplyResume(r, s, e))
  {
    hide StorableViolations;
    hide Registered;
  }

  lemma IntegrityStores(i: IntegrityEffect, s: MachineState, e: Event)
    requires Storable(s) && Full(e) && IntegrityReady(i, s, e)
    ensures StorableNext(ApplyIntegrity(i, s, e))
  {
    hide Canon;
    hide Registered;
    if e.ViolationDetected? {
      CanonStorable(s.deferred, e.violation);
      if s.procedure.HaltingForBlock? { CanonStorable(s.procedure.violations, e.violation); }
      if IntegrityBlocked(s) { CanonStorable(s.block.value.violations, e.violation); }
    }
  }

  lemma StepStores(t: Step)
    requires Legal(t) && Storable(t.before) && Full(t.event)
    ensures Storable(t.after)
  {
    hide Legal;
    hide Storable;
    hide Full;
    hide Enabled;
    hide RuleOf;
    var id := StepEffect(t);
    match RuleOf(id).effect
    case Flow(f) => FlowStores(f, t.before, t.event);
    case Merge(m) => MergeStores(m, t.before, t.event);
    case Resume(r) => ResumeStores(r, t.before, t.event);
    case Integrity(i) => IntegrityStores(i, t.before, t.event);
  }

  lemma {:induction false} RunStores(s: MachineState, run: seq<Step>)
    requires Storable(s) && RunFrom(s, run) && forall i :: 0 <= i < |run| ==> Full(run[i].event)
    ensures Storable(EndOf(s, run))
    decreases |run|
  {
    hide Legal;
    hide Storable;
    hide Full;
    if run != [] {
      var init, last := run[..|run| - 1], run[|run| - 1];
      RunStores(s, init);
      assert last.before == EndOf(s, init);
      StepStores(last);
    }
  }

  /** Wherever a run with nonempty values has got to, its checkpoint restores exactly that state. */
  lemma ReachedStateIsPersistable(preflightOk: bool, run: seq<Step>, payload: Object)
    requires RunFrom(Initialize(preflightOk).0, run) && forall i :: 0 <= i < |run| ==> Full(run[i].event)
    ensures Read(Write(payload, EndOf(Initialize(preflightOk).0, run))) == Value(EndOf(Initialize(preflightOk).0, run))
  {
    hide Legal;
    hide Inv;
    hide Full;
    hide Read;
    hide Write;
    hide MachineStates.Constructible;
    var s := Initialize(preflightOk).0;
    InitialInv(preflightOk);
    RunPreserves(s, run);
    InvConstructible(EndOf(s, run));
    RunStores(s, run);
    RoundTrip(payload, EndOf(s, run));
  }
}
