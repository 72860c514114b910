/** Between its production and its verification, a record stays the one pending record of the run. */
module Publication {
  import opened Vocabulary
  import opened Violations
  import opened MachineStates
  import opened Events
  import opened Guards
  import opened Rules
  import opened Machine
  import opened Readiness
  import opened Invariant
  import opened Runs
  import opened Driving
  import opened TaskRuns

  /** The user comments these records directly, so that the run may meet them unproduced. */
  predicate MadeByUser(kind: RecordKind) {
    kind.UserDecision? || kind.GateQuestion? || kind.GateChanges? || kind.MergeApproval? || kind.UserCancel?
  }

  predicate PublishedRow(rule: Rule) {
    rule.guard.event.VerifiedType? && !MadeByUser(ExpectedKind(rule.guard.event.name)) ==>
      rule.guard.pending == WhenMatched
  }

  lemma WorkPublished(w: WorkflowId, d: DecisionId)
    ensures PublishedRow(WorkflowTable(w)) && PublishedRow(DecisionTable(d))
  {}

  lemma GatePublished(ci: CiId, g: GateId, m: MergeId)
    ensures PublishedRow(CiTable(ci)) && PublishedRow(GateTable(g)) && PublishedRow(MergeTable(m))
  {}

  lemma OtherPublished(id: RuleId)
    requires !id.WorkflowRule? && !id.DecisionRule? && !id.CiRule? && !id.GateRule? && !id.MergeRule?
    ensures PublishedRow(RuleOf(id))
  {}

  lemma RowsPublished(id: RuleId)
    ensures PublishedRow(RuleOf(id))
  {
    hide PublishedRow;
    match id
    case WorkflowRule(w) => WorkPublished(w, T14);
    case DecisionRule(d) => WorkPublished(T03, d);
    case CiRule(ci) => GatePublished(ci, T33, M34);
    case GateRule(g) => GatePublished(T22, g, M34);
    case MergeRule(m) => GatePublished(T22, T33, m);
    case _ => OtherPublished(id);
  }

  lemma VerifiedIsPending(t: Step)
    requires Legal(t) && t.event.Verified? && !MadeByUser(ExpectedKind(t.event.name))
    ensures t.before.pending.Some?
    ensures t.before.pending.value.kind == ExpectedKind(t.event.name)
    ensures t.before.pending.value.binding == t.event.evidence.binding
  {
    hide Transition;
    hide Enabled;
    hide RuleOf;
    hide Ready;
    hide Apply;
    hide Detects;
    hide StateAllowed;
    hide AwaitingAllowed;
    hide ExpectedKind;
    hide DetailFits;
    var id := StepEffect(t);
    EnabledGuard(id, t.before, t.event);
    RowsPublished(id);
  }

  /** The pending record of a run was produced by it, in the state it names, and has been pending ever since. */
  lemma {:induction false} PendingWasProduced(preflightOk: bool, run: seq<Step>) returns (k: nat)
    requires RunFrom(Initialize(preflightOk).0, run) && EndOf(Initialize(preflightOk).0, run).pending.Some?
    ensures var p := EndOf(Initialize(preflightOk).0, run).pending.value;
            && k < |run| && run[k].event == RecordProduced(p.kind, p.binding) && run[k].before.state == p.sourceState
            && forall j: nat :: k <= j < |run| ==> run[j].after.pending == Some(p)
  {
    hide Inv;
    hide Legal;
    InitialInv(preflightOk);
    RunPreserves(Initialize(preflightOk).0, run);
    var last := run[|run| - 1];
    var p := last.after.pending.value;
    StepDrives(last);
    if last.after.pending != last.before.pending {
      k := |run| - 1;
    } else {
      var init := run[..|run| - 1];
      assert last.before == EndOf(Initialize(preflightOk).0, init);
      k := PendingWasProduced(preflightOk, init);
      assert init[k] == run[k];
      forall j: nat | k <= j < |run| ensures run[j].after.pending == Some(p) {
        if j < |run| - 1 { assert init[j] == run[j]; }
      }
    }
  }

  /** A record not made by the user is verified only if the run produced it, and while it is the pending one. */
  lemma VerifiedWasProduced(preflightOk: bool, run: seq<Step>, n: nat) returns (k: nat)
    requires RunFrom(Initialize(preflightOk).0, run) && n < |run|
    requires run[n].event.Verified? && !MadeByUser(ExpectedKind(run[n].event.name))
    ensures k < n && run[k].event == RecordProduced(ExpectedKind(run[n].event.name), run[n].event.evidence.binding)
    ensures forall j: nat :: k < j <= n ==> run[j].before.pending == run[n].before.pending
  {
    hide Legal;
    VerifiedIsPending(run[n]);
    assert EndOf(Initialize(preflightOk).0, run[..n]) == run[n].before;
    k := PendingWasProduced(preflightOk, run[..n]);
    assert run[..n][k] == run[k];
    forall j: nat | k < j <= n ensures run[j].before.pending == run[n].before.pending {
      assert run[..n][j - 1] == run[j - 1];
    }
  }
}
