/** The next call to advance demands exactly what the commands of the last transition ask for. */
module Demands {
  import opened Vocabulary
  import opened Violations
  import opened MachineStates
  import opened Events
  import opened Guards
  import opened Rules
  import opened Machine
  import opened Readiness
  import opened Invariant
  import opened Runs
  import opened Driving
  import opened Tasks
  import opened TaskRuns
  import opened Outcomes
  import opened Responsive
  import opened Handover
  import Recovery
  import SubmitOnce

  /** A command leaves a state in which exactly that is to be done. */
  predicate Calls(cmd: Command, n: MachineState) {
    match cmd
    case PersistRecord(kind, b) =>
      && (n.procedure.Normal? || n.procedure.RecordingIncident?) && !Terminal(n.state)
      && n.pending.Some? && n.pending.value.kind == kind && n.pending.value.binding == b
    case HaltRun(b) =>
      && !Terminal(n.state) && (n.procedure.Cancelling? || n.procedure.HaltingForBlock?) && n.procedure.attempt == b
    case RecordIntegrityIncident(bindings, audit) =>
      && !Terminal(n.state) && n.procedure.RecordingIncident? && n.pending.None?
      && bindings == Bindings(n.deferred) && audit == n.procedure.audit
    case InvalidateApprovals => true
    case ExecuteMerge => n.procedure.Normal? && n.awaiting == Some(MergeOutcomeExecute)
    case QueryMergeOutcome => n.procedure.Normal? && n.awaiting.Some? && MergeOutcome(n.awaiting.value)
    case _ =>
      && n.procedure.Normal? && n.pending.None? && n.block.None? && n.awaiting.Some?
      && AwaitingCommands(n.awaiting.value) == [cmd]
  }

  predicate AllCall(a: Applied) {
    a.Next? && forall cmd :: cmd in a.commands ==> Calls(cmd, a.state)
  }

  /** The commands of a row call for the response it awaits; a stop only revokes; a reissue needs a free slot. */
  predicate CallingRow(rule: Rule) {
    match rule.effect
    case Flow(Advance(_, awaitingAfter, commands)) =>
      forall cmd :: cmd in commands ==>
        cmd == InvalidateApprovals || (awaitingAfter.Some? && AwaitingCommands(awaitingAfter.value) == [cmd])
    case Flow(ProgressStop(_, _, entry)) => entry == [] || entry == [InvalidateApprovals]
    case Resume(ReissueIncident) => rule.guard.pending == WhenAbsent
    case Resume(ResumeAwaitingLive) => rule.guard.pending == WhenAbsent
    case Merge(MergeStep(Some(_), _, commands)) => commands == []
    case Merge(Stay(commands)) => commands == [] || rule.guard.awaiting == AnyOutcome
    case _ => true
  }

  lemma WorkCalls(w: WorkflowId)
    ensures CallingRow(WorkflowTable(w))
  {}

  lemma DecisionCalls(d: DecisionId)
    ensures CallingRow(DecisionTable(d))
  {}

  lemma CheckCalls(ci: CiId)
    ensures CallingRow(CiTable(ci))
  {}

  lemma GateCalls(g: GateId)
    ensures CallingRow(GateTable(g))
  {}

  lemma OtherCalls(id: RuleId)
    requires !id.WorkflowRule? && !id.DecisionRule? && !id.CiRule? && !id.GateRule?
    ensures CallingRow(RuleOf(id))
  {}

  lemma RowsCall(id: RuleId)
    ensures CallingRow(RuleOf(id))
  {
    hide CallingRow;
    match id
    case WorkflowRule(w) => WorkCalls(w);
    case DecisionRule(d) => DecisionCalls(d);
    case CiRule(ci) => CheckCalls(ci);
    case GateRule(g) => GateCalls(g);
    case _ => OtherCalls(id);
  }

  /** What a state awaits, once nothing else is to be done in it, is what its commands call for. */
  lemma AwaitingCalls(a: Awaiting, n: MachineState)
    requires n.procedure.Normal? && n.pending.None? && n.block.None? && n.awaiting == Some(a)
    ensures forall cmd :: cmd in AwaitingCommands(a) ==> Calls(cmd, n)
  {}

  lemma ContinuationCalls(id: ContinuationId)
    ensures var c := ContinuationOf(id);
            c.awaiting.Some? && forall cmd :: cmd in c.commands ==>
              cmd == InvalidateApprovals || cmd in AwaitingCommands(c.awaiting.value)
  {}

  lemma FlowCalls(f: FlowEffect, s: MachineState, e: Event)
    requires ShapeInv(s) && FlowReady(f, s, e)
    requires f.Advance? ==> forall cmd :: cmd in f.commands ==>
               cmd == InvalidateApprovals || (f.awaitingAfter.Some? && AwaitingCommands(f.awaitingAfter.value) == [cmd])
    requires f.ProgressStop? ==> f.entry == [] || f.entry == [InvalidateApprovals]
    ensures AllCall(ApplyFlow(f, s, e))
  {
    hide Canon;
    hide Registered;
    if f.Advance? && f.awaitingAfter.Some? { AwaitingCalls(f.awaitingAfter.value, ApplyFlow(f, s, e).state); }
    if f.PermissionResume? { AwaitingCalls(DriveTable(s.returnTo.value).value.1, ApplyFlow(f, s, e).state); }
  }

  lemma AskingCalls(m: MergeEffect, s: MachineState, e: Event)
    requires m.ToMerging? || m.FreshReview? || m.CancelQuery? || m.ReturnToGate?
    requires ShapeInv(s) && MergeReady(m, s, e)
    ensures AllCall(ApplyMerge(m, s, e))
  {
    hide Canon;
    hide Registered;
  }

  lemma MergeCalls(m: MergeEffect, s: MachineState, e: Event)
    requires !m.ToMerging? && !m.FreshReview? && !m.CancelQuery? && !m.ReturnToGate?
    requires ShapeInv(s) && MergeReady(m, s, e)
    requires m.MergeStep? && m.to.Some? ==> m.commands == []
    requires m.Stay? && m.commands != [] ==> s.awaiting.Some? && MergeOutcome(s.awaiting.value)
    ensures AllCall(ApplyMerge(m, s, e))
  {
    hide Canon;
    hide Registered;
    hide AwaitingCommands;
  }

  lemma ReissueCalls(r: ResumeEffect, s: MachineState, e: Event)
    requires r.ReissueHalt? || r.ReissueIncident? || r.ReissuePersist? || r.ResumePending?
    requires ShapeInv(s) && ResumeReady(r, s, e)
    requires r.ReissueIncident? ==> s.pending.None?
    ensures AllCall(ApplyResume(r, s, e))
  {
    hide Canon;
    hide Registered;
    hide AwaitingCommands;
  }

  lemma ResumeCalls(r: ResumeEffect, s: MachineState, e: Event)
    requires r.ResumeAwaitingFailed? || r.ResumeAwaitingLive? || r.ResumeDrive? || r.RetryAwaiting?
    requires ShapeInv(s) && ResumeReady(r, s, e)
    requires r.ResumeAwaitingLive? ==> s.pending.None?
    ensures AllCall(ApplyResume(r, s, e))
  {
    hide Canon;
    hide Registered;
    if !r.ResumeDrive? {
      AwaitingCalls(ApplyResume(r, s, e).state.awaiting.value, ApplyResume(r, s, e).state);
    }
    hide Calls;
  }

  lemma ReplayCalls(s: MachineState, e: Event)
    requires ShapeInv(s) && IntegrityReady(Replay, s, e)
    ensures AllCall(ApplyIntegrity(Replay, s, e))
  {
    hide Canon;
    var c := s.block.value.continuation;
    var id :| c == ContinuationOf(id);
    ContinuationCalls(id);
    AwaitingCalls(c.awaiting.value, ApplyIntegrity(Replay, s, e).state);
    hide Calls;
  }

  lemma IntegrityCalls(i: IntegrityEffect, s: MachineState, e: Event)
    requires !i.Replay? && ShapeInv(s) && IntegrityReady(i, s, e)
    ensures AllCall(ApplyIntegrity(i, s, e))
  {
    hide Canon;
    hide Registered;
  }

  /** Every command of an accepted step leaves a state that calls for it. */
  lemma StepCalls(t: Step)
    requires Legal(t) && Inv(t.before)
    ensures AllCall(Next(t.after, t.commands))
  {
    hide Transition;
    hide ShapeInv;
    hide CanonicalSets;
    hide Enabled;
    hide RuleOf;
    hide AllCall;
    hide FlowReady;
    hide MergeReady;
    hide ResumeReady;
    hide IntegrityReady;
    hide Detects;
    var id := StepEffect(t);
    EnabledGuard(id, t.before, t.event);
    RowsCall(id);
    match RuleOf(id).effect
    case Flow(f) => FlowCalls(f, t.before, t.event);
    case Merge(m) =>
      if m.ToMerging? || m.FreshReview? || m.CancelQuery? || m.ReturnToGate? { AskingCalls(m, t.before, t.event); }
      else { MergeCalls(m, t.before, t.event); }
    case Resume(r) =>
      if r.ReissueHalt? || r.ReissueIncident? || r.ReissuePersist? || r.ResumePending? {
        ReissueCalls(r, t.before, t.event);
      } else {
        ResumeCalls(r, t.before, t.event);
      }
    case Integrity(i) =>
      if i.Replay? { ReplayCalls(t.before, t.event); } else { IntegrityCalls(i, t.before, t.event); }
  }

  // ---- resumes ----

  /** What is to be asked again after an interruption: the step of the procedure, the publication or the response. */
  function Reask(s: MachineState): seq<Command> {
    match s.procedure
    case Cancelling(attempt) => [HaltRun(attempt)]
    case HaltingForBlock(_, attempt) => [HaltRun(attempt)]
    case RecordingIncident(_, audit) =>
      if s.pending.None? then [RecordIntegrityIncident(Bindings(s.deferred), audit)]
      else [PersistRecord(s.pending.value.kind, s.pending.value.binding)]
    case Normal => Recovery.Redo(s)
  }

  /** A failed run goes back to where it was interrupted; nothing else changes. */
  function Resumed(s: MachineState): MachineState {
    if s.procedure.Normal? && s.recoveryTo.Some? && (s.pending.None? || s.pending.value.sourceState != Failed)
    then s.(state := s.recoveryTo.value, recoveryTo := None)
    else s
  }

  lemma ProcedureEffect(stage: Stage, trigger: Trigger, s: MachineState, e: Event)
    requires Enabled(ProcedureRule(stage, trigger), s, e)
    ensures Apply(RuleOf(ProcedureRule(stage, trigger)).effect, s, e) == Next(s, Reask(s))
  {
    hide BindingKey;
    hide CoverageKey;
    hide ProgressKey;
    hide AwaitingCommands;
  }

  /** While a procedure runs, every signal it accepts changes nothing and asks for its step again. */
  lemma ProcedureReasks(t: Step)
    requires Legal(t) && t.event.Signal? && !t.before.procedure.Normal?
    ensures t.after == t.before && t.commands == Reask(t.before)
  {
    hide Transition;
    hide Enabled;
    hide RuleOf;
    hide Apply;
    hide Reask;
    CandidateActs(t);
    var id := Candidate(t.before, t.event);
    EnabledGuard(id, t.before, t.event);
    ProcedureOnly(id);
    ProcedureEffect(id.stage, id.trigger, t.before, t.event);
  }

  lemma ProcedureOnly(id: RuleId)
    requires RuleOf(id).guard.event.SignalType? && RuleOf(id).guard.procedure != NormalKind
    ensures id.ProcedureRule?
  {}

  lemma PendingResumed(s: MachineState, e: Event)
    requires ShapeInv(s) && s.procedure.Normal? && e == Signal(ResumeValidated) && Enabled(ResumeRule(RP), s, e)
    ensures Apply(RuleOf(ResumeRule(RP)).effect, s, e) == Next(Resumed(s), Reask(s))
  {
    hide BindingKey;
    hide CoverageKey;
    hide ProgressKey;
    hide AwaitingCommands;
    hide Canon;
    hide Registered;
  }

  lemma AwaitingResumed(r: ResumeId, s: MachineState, e: Event)
    requires !r.RP? && s.procedure.Normal? && e == Signal(ResumeValidated) && Enabled(ResumeRule(r), s, e)
    requires ShapeInv(s)
    ensures Apply(RuleOf(ResumeRule(r)).effect, s, e) == Next(Resumed(s), Reask(s))
  {
    hide Enabled;
    hide AwaitingCommands;
    hide Canon;
    hide Registered;
    hide AtHome;
    hide FlowReady;
    hide MergeReady;
    hide IntegrityReady;
    EnabledGuard(ResumeRule(r), s, e);
    EnabledReady(ResumeRule(r), s, e);
  }

  /** A resume goes back to the interrupted work and asks again for exactly what was to be done. */
  lemma ResumeReasks(t: Step)
    requires Legal(t) && Inv(t.before) && t.event == Signal(ResumeValidated)
    ensures t.after == Resumed(t.before) && t.commands == Reask(t.before)
  {
    hide Transition;
    hide CanonicalSets;
    hide ShapeInv;
    hide Enabled;
    hide RuleOf;
    hide Apply;
    hide Reask;
    if t.before.procedure.Normal? {
      CandidateActs(t);
      var r := Candidate(t.before, t.event).r;
      if r.RP? { PendingResumed(t.before, t.event); } else { AwaitingResumed(r, t.before, t.event); }
    } else {
      ProcedureReasks(t);
    }
  }

  // ---- advance ----

  /** The demand that answers a command, when no emergency stop is requested. */
  predicate Answered(cmd: Command, c: SubmitOnce.Checkpoint, ids: SubmitOnce.Ids, around: SubmitOnce.Surroundings) {
    var out := SubmitOnce.Advanced(c, ids, around).1;
    match cmd
    case PersistRecord(_, _) => out == SubmitOnce.PersistRequired
    case HaltRun(_) => out == SubmitOnce.HaltRequired
    case RecordIntegrityIncident(_, _) => out == SubmitOnce.IncidentRequired
    case RequestHostAction(action) =>
      c.pending.None? && around.chainIntact && around.issuable ==>
        out == SubmitOnce.Issued(
                 SubmitOnce.Action(ids.action, ids.nonce, action, around.head, ids.correlation, 1), false)
    case _ => true
  }

  lemma CalledIsAnswered(cmd: Command, c: SubmitOnce.Checkpoint, ids: SubmitOnce.Ids, around: SubmitOnce.Surroundings)
    requires Calls(cmd, c.machine) && !c.stopRequested && TerminalBare(c.machine)
    ensures Answered(cmd, c, ids, around)
  {
    hide SubmitOnce.FindReceipt;
  }

  /** After every accepted step, the next advance demands what each of its commands asked for. */
  lemma CommandsAreDemanded(t: Step, cmd: Command, c: SubmitOnce.Checkpoint, ids: SubmitOnce.Ids,
                            around: SubmitOnce.Surroundings)
    requires Legal(t) && Inv(t.before) && cmd in t.commands && c.machine == t.after && !c.stopRequested
    ensures Answered(cmd, c, ids, around)
  {
    hide Transition;
    hide Calls;
    hide Answered;
    StepPreserves(t);
    StepCalls(t);
    hide CanonicalSets;
    CalledIsAnswered(cmd, c, ids, around);
  }

  /** Which demand comes first: the stop, then the halt, the incident or the publication, then the block. */
  lemma DemandedExactly(c: SubmitOnce.Checkpoint, ids: SubmitOnce.Ids, around: SubmitOnce.Surroundings)
    requires ShapeInv(c.machine)
    ensures var out := SubmitOnce.Advanced(c, ids, around).1;
            var m := c.machine;
            && (out == SubmitOnce.EmergencyStopRequired <==> c.stopRequested)
            && (out == SubmitOnce.TerminalRun <==> !c.stopRequested && (m.state == Merged || m.state == Cancelled))
            && (out == SubmitOnce.HaltRequired <==>
                  !c.stopRequested && (m.procedure.Cancelling? || m.procedure.HaltingForBlock?))
            && (out == SubmitOnce.IncidentRequired <==>
                  !c.stopRequested && m.procedure.RecordingIncident? && m.pending.None?)
            && (out == SubmitOnce.PersistRequired <==>
                  !c.stopRequested && m.pending.Some? && (m.procedure.Normal? || m.procedure.RecordingIncident?))
            && (out == SubmitOnce.BlockedRun <==>
                  !c.stopRequested && m.procedure.Normal? && m.pending.None? && m.state == Blocked)
  {
    hide SubmitOnce.FindReceipt;
    hide Canon;
    hide Registered;
  }

  // ---- the work that advance serves ----

  /** What a host is asked to do for a task. */
  function HostWork(task: Task): Option<HostAction> {
    match task
    case StudyFindings => Some(ApplyFindings)
    case ApplyTheFixes => Some(ApplyFindings)
    case DraftTheRequest => Some(HostAction.DraftDecisionRequest)
    case ReviseTheRequest => Some(HostAction.ReviseDecisionRequest)
    case DraftTheBrief => Some(HostAction.DraftDecisionBrief)
    case WriteTheDecision => Some(HostAction.RecordDecision)
    case AnswerAtGate => Some(AnswerGateQuestion)
    case _ => None
  }

  lemma WorkAwaits(task: Task)
    ensures AwaitedIn(task).None? ==> HostWork(task).None?
    ensures AwaitedIn(task).Some? ==> SubmitOnce.ActionFor(AwaitedIn(task).value) == HostWork(task)
    ensures AwaitedIn(task) != Some(UserInputPermission)
    ensures AwaitedIn(task) == Some(UserInputDecision) || AwaitedIn(task) == Some(UserInputGate) <==>
            task == DecideAsUser || task == HoldTheGate
    ensures task == DecideAsUser || task == HoldTheGate ==> HostWork(task).None?
  {}

  /** Live work of the host is issued, once; the user is waited for; anything else is left to its own step. */
  lemma AdvanceServes(c: SubmitOnce.Checkpoint, task: Task, ids: SubmitOnce.Ids, around: SubmitOnce.Surroundings)
    requires ShapeInv(c.machine) && Live(c.machine, task) && !c.stopRequested && c.pending.None?
    requires around.chainIntact && around.issuable
    ensures var (after, out) := SubmitOnce.Advanced(c, ids, around);
            && (HostWork(task).Some? ==>
                  && out.Issued? && !out.reissued && after == c.(pending := Some(out.action), receipts := [])
                  && out.action == SubmitOnce.Action(ids.action, ids.nonce, HostWork(task).value, around.head,
                                                     ids.correlation, 1))
            && (HostWork(task).None? ==> !out.Issued? && after == c)
            && (out == SubmitOnce.AwaitUser <==> task == DecideAsUser || task == HoldTheGate)
  {
    hide SubmitOnce.FindReceipt;
    hide SubmitOnce.ActionFor;
    hide HostWork;
    hide AwaitedIn;
    hide ShapeInv;
    hide Doing;
    LiveAwaits(c.machine, task);
    WorkAwaits(task);
  }

  /** An action that was issued and not consumed is issued again unchanged, and never a second one beside it. */
  lemma UnconsumedIsReissued(c: SubmitOnce.Checkpoint, ids: SubmitOnce.Ids, around: SubmitOnce.Surroundings)
    requires c.pending.Some?
    requires forall r :: r in c.receipts ==> !(r.id == c.pending.value.id && r.nonce == c.pending.value.nonce)
    ensures SubmitOnce.Advanced(c, ids, around).0 == c
    ensures var out := SubmitOnce.Advanced(c, ids, around).1;
            out.Issued? ==> out == SubmitOnce.Issued(c.pending.value, true)
    ensures var m := c.machine;
            SubmitOnce.Advanced(c, ids, around).1.Issued? <==>
            && !c.stopRequested && !Terminal(m.state) && m.procedure.Normal? && m.pending.None? && m.block.None?
            && around.chainIntact && around.envelopeIntact
  {
    hide SubmitOnce.FindReceipt;
    var a := c.pending.value;
    UnheldReceipt(c.receipts, a.id, a.nonce);
  }
}
