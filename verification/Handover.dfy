/** What a consumed result leaves behind: the record it hands over, the next attempt, or the failed run. */
module Handover {
  import opened Vocabulary
  import opened Violations
  import opened MachineStates
  import opened Events
  import opened Guards
  import opened Rules
  import opened Machine
  import opened Readiness
  import opened Invariant
  import opened Runs
  import opened Tasks
  import opened TaskRuns
  import opened Outcomes
  import opened Responsive
  import Recovery
  import SubmitOnce

  // ---- the machine side ----

  predicate ProducingRow(rule: Rule) {
    && rule.guard.recordKind.Some?
    && (Aside(rule.guard.recordKind.value)
        || (&& rule.effect == Flow(Produce(false)) && rule.guard.procedure == NormalKind
            && rule.guard.pending == WhenAbsent && rule.guard.states.Only? && Plain(rule.guard.states.only)))
  }

  lemma ProducedRows(p: ProducedId)
    ensures ProducingRow(ProducedTable(p))
  {}

  lemma InputRows(u: InputId)
    ensures ProducingRow(InputTable(u))
  {}

  lemma Producer(s: MachineState, kind: RecordKind)
    requires kind != IntegrityIncident
    ensures ProducingRow(RuleOf(ProducedCandidate(s, kind)))
  {
    hide ProducingRow;
    hide ProducedTable;
    hide InputTable;
    var id := ProducedCandidate(s, kind);
    match id
    case ProducedRule(p) => ProducedRows(p);
    case InputRule(u) => InputRows(u);
  }

  /** A produced record is pending with the state it came from, and nothing else of the state changes. */
  lemma ProductionLeads(t: Step)
    requires Legal(t) && t.event.RecordProduced? && !Aside(t.event.kind) && t.event.kind != IntegrityIncident
    ensures t.before.procedure.Normal? && t.before.pending.None? && Plain(t.before.state)
    ensures t.after == t.before.(awaiting := None,
                pending := Some(PendingRecord(t.event.kind, t.event.binding, t.before.state)))
    ensures t.commands == [PersistRecord(t.event.kind, t.event.binding)]
  {
    hide Transition;
    hide Enabled;
    hide RuleOf;
    hide ProducedCandidate;
    hide Aside;
    hide Plain;
    hide AwaitingAllowed;
    CandidateActs(t);
    EnabledGuard(Candidate(t.before, t.event), t.before, t.event);
    Producer(t.before, t.event.kind);
  }

  /** A failure interrupts active work, asks for the outcome of a merge, and changes nothing else. */
  function Failing(s: MachineState): MachineState {
    if !s.procedure.Normal? then s
    else if s.state == Merging then s.(awaiting := Some(MergeOutcomeFailure))
    else if Active(s.state) then Recovery.Failure(s)
    else s
  }

  lemma FailureLeads(t: Step)
    requires Legal(t) && t.event == Signal(RunFailed)
    ensures t.after == Failing(t.before)
  {
    hide Transition;
    hide BindingKey;
    hide CoverageKey;
    hide ProgressKey;
    hide BlockKindKey;
    hide BlockReasonKey;
    hide VerifiedCandidate;
    hide ProducedCandidate;
    hide DetectionCandidate;
    hide PendingKey;
    CandidateActs(t);
  }

  lemma FailureEnabled(s: MachineState)
    requires ShapeInv(s) && !Terminal(s.state)
    ensures Enabled(Candidate(s, Signal(RunFailed)), s, Signal(RunFailed))
  {
    hide BindingKey;
    hide CoverageKey;
    hide ProgressKey;
    hide BlockKindKey;
    hide BlockReasonKey;
    hide VerifiedCandidate;
    hide ProducedCandidate;
    hide DetectionCandidate;
    hide Canon;
    hide Registered;
    hide PendingHome;
    hide AwaitingAtHome;
  }

  /** A failure is always accepted before the end. */
  lemma FailureIsTaken(s: MachineState)
    requires Inv(s) && !Terminal(s.state)
    ensures Transition(s, Signal(RunFailed)).Accepted? && Transition(s, Signal(RunFailed)).next == Failing(s)
  {
    hide Enabled;
    hide RuleOf;
    hide Candidate;
    hide CanonicalSets;
    hide ShapeInv;
    hide Failing;
    FailureEnabled(s);
    var t := AcceptedBy(Candidate(s, Signal(RunFailed)), s, Signal(RunFailed));
    FailureLeads(t);
  }

  /** During live work, a record that is no aside is produced exactly if it answers the task. */
  lemma ProducedExactly(s: MachineState, task: Task, kind: RecordKind, b: Binding)
    requires Inv(s) && Live(s, task) && !Aside(kind)
    ensures Transition(s, RecordProduced(kind, b)).Accepted? <==> Answers(kind, task)
  {
    hide Inv;
    hide Live;
    hide Answers;
    hide Transition;
    var e := RecordProduced(kind, b);
    if Answers(kind, task) {
      var t := ProductionIsTaken(s, task, kind, b);
    } else if Transition(s, e).Accepted? {
      var t := Step(s, e, Transition(s, e).next, Transition(s, e).commands);
      LiveMeans(s, task);
      StepAnswers(t, task);
    }
  }

  lemma LiveMeans(s: MachineState, task: Task)
    requires Live(s, task)
    ensures Doing(s, task) && s.procedure.Normal?
  {}

  // ---- the checkpoint side ----

  /** The envelope speaks of the pending attempt for the first time, and all that it rests on is intact. */
  predicate Binds(c: SubmitOnce.Checkpoint, e: SubmitOnce.Envelope, around: SubmitOnce.Surroundings) {
    && c.pending.Some?
    && var a := c.pending.value;
    && e.id == a.id && e.nonce == a.nonce && e.kind == a.kind && e.head == a.head
    && (forall r :: r in c.receipts ==> !(r.id == e.id && r.nonce == e.nonce))
    && around.envelopeIntact && around.chainIntact && around.resultFits
  }

  lemma UnheldReceipt(rs: seq<SubmitOnce.Receipt>, id: string, nonce: string)
    ensures SubmitOnce.FindReceipt(rs, id, nonce).None? <==> forall r :: r in rs ==> !(r.id == id && r.nonce == nonce)
  {
    hide SubmitOnce.FindReceipt;
    var found := SubmitOnce.FindReceipt(rs, id, nonce);
    if found.Some? {
      assert found.value in rs;
    }
  }

  /** The work for which an action was issued. */
  predicate ActsOn(c: SubmitOnce.Checkpoint, task: Task) {
    && Live(c.machine, task) && c.pending.Some? && AwaitedIn(task).Some?
    && SubmitOnce.ActionFor(AwaitedIn(task).value) == Some(c.pending.value.kind)
  }

  lemma AnswersAreResults(task: Task, kind: RecordKind, action: HostAction)
    requires AwaitedIn(task).Some? && SubmitOnce.ActionFor(AwaitedIn(task).value) == Some(action)
    ensures Answers(kind, task) ==> kind in SubmitOnce.ResultKinds(action)
  {}

  lemma ResultsAreNoAsides(kind: RecordKind, action: HostAction)
    requires kind in SubmitOnce.ResultKinds(action)
    ensures !Aside(kind) && kind != IntegrityIncident
  {}

  /** A completed result is consumed exactly if it binds the pending attempt and answers the work it was issued for. */
  lemma CompletedExactly(c: SubmitOnce.Checkpoint, g: SubmitOnce.Settings, e: SubmitOnce.Envelope,
                         around: SubmitOnce.Surroundings, task: Task)
    requires Inv(c.machine) && ActsOn(c, task) && e.report.Completed?
    ensures SubmitOnce.Submitted(c, g, e, around).1.Accepted? <==> Binds(c, e, around) && Answers(e.report.kind, task)
  {
    hide Inv;
    hide Live;
    hide Answers;
    hide AwaitedIn;
    hide Transition;
    hide SubmitOnce.FindReceipt;
    hide SubmitOnce.ResultKinds;
    hide SubmitOnce.ActionFor;
    UnheldReceipt(c.receipts, e.id, e.nonce);
    if Binds(c, e, around) {
      AnswersAreResults(task, e.report.kind, e.kind);
      if e.report.kind in SubmitOnce.ResultKinds(e.kind) {
        ResultsAreNoAsides(e.report.kind, e.kind);
        ProducedExactly(c.machine, task, e.report.kind, around.binding);
      }
    }
  }

  /** A consumed result is handed over: its record is pending, its attempt is over, and publishing it comes next. */
  lemma CompletedHandsOver(c: SubmitOnce.Checkpoint, g: SubmitOnce.Settings, e: SubmitOnce.Envelope,
                           around: SubmitOnce.Surroundings, ids: SubmitOnce.Ids, later: SubmitOnce.Surroundings)
    requires SubmitOnce.Submitted(c, g, e, around).1.Accepted? && e.report.Completed?
    ensures var (after, out) := SubmitOnce.Submitted(c, g, e, around);
            && after.machine == c.machine.(awaiting := None,
                  pending := Some(PendingRecord(e.report.kind, around.binding, c.machine.state)))
            && after.pending.None? && after.receipts == c.receipts + [out.receipt] && !out.retryAvailable
            && after.stopRequested == c.stopRequested
            && SubmitOnce.Advanced(after, ids, later) ==
               (after, if c.stopRequested then SubmitOnce.EmergencyStopRequired else SubmitOnce.PersistRequired)
  {
    hide Transition;
    hide SubmitOnce.FindReceipt;
    hide SubmitOnce.ResultKinds;
    var produced := RecordProduced(e.report.kind, around.binding);
    ResultsAreNoAsides(e.report.kind, c.pending.value.kind);
    var moved := Transition(c.machine, produced);
    ProductionLeads(Step(c.machine, produced, moved.next, moved.commands));
  }

  /** A failure may be tried again below the budget and while the ledger has room for the next receipt. */
  predicate Retries(c: SubmitOnce.Checkpoint, g: SubmitOnce.Settings, e: SubmitOnce.Envelope) {
    && e.report.Failure? && e.report.transient && c.pending.Some?
    && c.pending.value.attempt < g.budget && |c.receipts| < 31
  }

  /** Nothing is demanded before the host action: no stop, no procedure, no record to publish and no block. */
  predicate Quiet(c: SubmitOnce.Checkpoint) {
    && !c.stopRequested && !Terminal(c.machine.state) && c.machine.procedure.Normal?
    && c.machine.pending.None? && c.machine.block.None?
  }

  /** A failure is consumed exactly if it binds the pending attempt. */
  lemma FailureExactly(c: SubmitOnce.Checkpoint, g: SubmitOnce.Settings, e: SubmitOnce.Envelope,
                       around: SubmitOnce.Surroundings)
    requires Inv(c.machine) && !Terminal(c.machine.state) && e.report.Failure?
    ensures SubmitOnce.Submitted(c, g, e, around).1.Accepted? <==> Binds(c, e, around)
  {
    hide Inv;
    hide Transition;
    hide SubmitOnce.FindReceipt;
    UnheldReceipt(c.receipts, e.id, e.nonce);
    FailureIsTaken(c.machine);
  }

  /** A failure that may be tried again keeps machine and action, and the next attempt continues them. */
  lemma RetryGoesOn(c: SubmitOnce.Checkpoint, g: SubmitOnce.Settings, e: SubmitOnce.Envelope,
                    around: SubmitOnce.Surroundings, ids: SubmitOnce.Ids, later: SubmitOnce.Surroundings)
    requires SubmitOnce.Submitted(c, g, e, around).1.Accepted? && Retries(c, g, e)
    ensures var (after, out) := SubmitOnce.Submitted(c, g, e, around);
            && out.retryAvailable && after == c.(receipts := c.receipts + [out.receipt])
            && (Quiet(c) && later.chainIntact && later.issuable ==>
                  var a := c.pending.value;
                  var next := SubmitOnce.Action(ids.action, ids.nonce, a.kind, a.head, a.correlation, a.attempt + 1);
                  SubmitOnce.Advanced(after, ids, later) ==
                  (after.(pending := Some(next)), SubmitOnce.Issued(next, false)))
  {
    hide Transition;
    SubmitOnce.AcceptedIsRecorded(c, g, e, around);
    hide SubmitOnce.FindReceipt;
  }

  /** Any other failure ends the action and fails the run. */
  lemma FailureEndsAction(c: SubmitOnce.Checkpoint, g: SubmitOnce.Settings, e: SubmitOnce.Envelope,
                          around: SubmitOnce.Surroundings)
    requires SubmitOnce.Submitted(c, g, e, around).1.Accepted? && e.report.Failure? && !Retries(c, g, e)
    ensures var (after, out) := SubmitOnce.Submitted(c, g, e, around);
            && !out.retryAvailable
            && after == SubmitOnce.Checkpoint(Failing(c.machine), None, c.receipts + [out.receipt], c.stopRequested)
  {
    hide Transition;
    hide Failing;
    hide SubmitOnce.FindReceipt;
    var moved := Transition(c.machine, Signal(RunFailed));
    FailureLeads(Step(c.machine, Signal(RunFailed), moved.next, moved.commands));
  }
}
