/** When the user is asked to decide, and what a recorded decision or a clarification goes back to. */
module UserDecisions {
  import opened Vocabulary
  import opened Violations
  import opened MachineStates
  import opened Events
  import opened Guards
  import opened Rules
  import opened Machine
  import opened Readiness
  import opened Invariant
  import opened Runs
  import opened Tasks
  import opened TaskRuns

  predicate Accepts(t: Step, name: VerifiedName) {
    t.event.Verified? && t.event.name == name
  }

  /** A procedure in progress accepts no verified record but its incident. */
  predicate ProcedureRow(rule: Rule) {
    rule.guard.procedure != NormalKind && rule.guard.event.VerifiedType? ==>
      rule.guard.event.name == IntegrityIncidentVerified
  }

  lemma PlainRowsOutside(w: WorkflowId, d: DecisionId, ci: CiId, g: GateId, m: MergeId)
    ensures ProcedureRow(WorkflowTable(w)) && ProcedureRow(DecisionTable(d)) && ProcedureRow(CiTable(ci))
        && ProcedureRow(GateTable(g)) && ProcedureRow(MergeTable(m))
  {}

  lemma OtherRowsOutside(id: RuleId)
    requires !id.WorkflowRule? && !id.DecisionRule? && !id.CiRule? && !id.GateRule? && !id.MergeRule?
    ensures ProcedureRow(RuleOf(id))
  {}

  lemma RowsOutside(id: RuleId)
    ensures ProcedureRow(RuleOf(id))
  {
    hide ProcedureRow;
    match id
    case WorkflowRule(w) => PlainRowsOutside(w, T14, T22, T33, M34);
    case DecisionRule(d) => PlainRowsOutside(T03, d, T22, T33, M34);
    case CiRule(ci) => PlainRowsOutside(T03, T14, ci, T33, M34);
    case GateRule(g) => PlainRowsOutside(T03, T14, T22, g, M34);
    case MergeRule(m) => PlainRowsOutside(T03, T14, T22, T33, m);
    case _ => OtherRowsOutside(id);
  }

  lemma RecordsOutside(t: Step)
    requires Legal(t) && t.event.Verified? && t.event.name != IntegrityIncidentVerified
    ensures t.before.procedure.Normal?
  {
    hide Transition;
    hide Enabled;
    hide RuleOf;
    hide Ready;
    hide Apply;
    hide Detects;
    var id := StepEffect(t);
    EnabledGuard(id, t.before, t.event);
    RowsOutside(id);
  }

  /** No step strictly between two decides anything. */
  predicate QuietBetween(run: seq<Step>, i: nat, j: nat) {
    forall k: nat :: i < k < j && k < |run| ==> Decided(run[k].before, run[k].event).None?
  }

  lemma {:induction false} LastDecision(run: seq<Step>) returns (k: nat)
    requires TaskOf(run) != ReviewChanges
    ensures k < |run| && Decided(run[k].before, run[k].event) == Some(TaskOf(run)) && QuietBetween(run, k, |run|)
  {
    hide Decided;
    var last := run[|run| - 1];
    if Decided(last.before, last.event).Some? {
      k := |run| - 1;
    } else {
      k := LastDecision(run[..|run| - 1]);
      assert run[..|run| - 1][k] == run[k];
      forall j: nat | k < j < |run| ensures Decided(run[j].before, run[j].event).None? {
        if j < |run| - 1 { assert run[..|run| - 1][j] == run[j]; }
      }
    }
  }

  /** Each of these tasks is decided on by one record only. */
  lemma SoleDecider(s: MachineState, e: Event, name: VerifiedName)
    requires name == DecisionRequestVerified || name == VerdictAskUserVerified || name == VerdictProceedVerified
        || name == DecisionBriefVerified || name == VerdictResubmitVerified || name == ClarificationQuestionVerified
    requires Decided(s, e).Some? && Decided(s, e) == DecidedBy(VerifiedType(name))
    ensures e.Verified? && e.name == name && s.procedure.Normal?
  {}

  /** The record that the task of a run goes back to, when only one decides on it. */
  lemma DecidedAt(run: seq<Step>, n: nat, name: VerifiedName) returns (k: nat)
    requires n <= |run|
    requires name == DecisionRequestVerified || name == VerdictAskUserVerified || name == VerdictProceedVerified
        || name == DecisionBriefVerified || name == VerdictResubmitVerified || name == ClarificationQuestionVerified
    requires Some(TaskOf(run[..n])) == DecidedBy(VerifiedType(name))
    ensures k < n && Accepts(run[k], name) && run[k].before.procedure.Normal? && QuietBetween(run, k, n)
  {
    hide TaskOf;
    hide Decided;
    assert TaskOf(run[..n]) != ReviewChanges;
    hide DecidedBy;
    k := LastDecision(run[..n]);
    assert run[..n][k] == run[k];
    SoleDecider(run[k].before, run[k].event, name);
    forall j: nat | k < j < n ensures Decided(run[j].before, run[j].event).None? {
      assert run[..n][j] == run[j];
    }
  }

  /** A record accepted outside a procedure answers the task, and settles what it decides. */
  lemma AnswerAt(preflightOk: bool, run: seq<Step>, k: nat)
    requires RunFrom(Initialize(preflightOk).0, run) && k < |run|
    requires run[k].event.Verified? && run[k].event.name != IntegrityIncidentVerified
    ensures run[k].before.procedure.Normal?
    ensures Aside(ExpectedKind(run[k].event.name)) || Answers(ExpectedKind(run[k].event.name), TaskOf(run[..k]))
  {
    hide Legal;
    hide TaskOf;
    hide Answers;
    RecordsOutside(run[k]);
    RunAnswers(preflightOk, run, k);
  }

  /** A verdict accepts only the last decision request. */
  lemma VerdictWasRequested(preflightOk: bool, run: seq<Step>, n: nat, name: VerifiedName) returns (request: nat)
    requires RunFrom(Initialize(preflightOk).0, run) && n < |run| && Accepts(run[n], name)
    requires name == VerdictAskUserVerified || name == VerdictProceedVerified || name == VerdictResubmitVerified
    ensures request < n && Accepts(run[request], DecisionRequestVerified) && QuietBetween(run, request, n)
  {
    hide Legal;
    hide TaskOf;
    AnswerAt(preflightOk, run, n);
    request := DecidedAt(run, n, DecisionRequestVerified);
  }

  lemma AskingIsDeciding(s: MachineState, task: Task)
    requires Inv(s) && Doing(s, task) && s.awaiting == Some(UserInputDecision)
    ensures task == DecideAsUser
  {
    hide CanonicalSets;
    hide Registered;
    hide Answers;
  }

  /** The user is asked only after an ASK_USER verdict and its brief, with no other decision since either. */
  lemma DecisionWasAskedFor(preflightOk: bool, run: seq<Step>) returns (ask: nat, brief: nat)
    requires RunFrom(Initialize(preflightOk).0, run)
    requires EndOf(Initialize(preflightOk).0, run).awaiting == Some(UserInputDecision)
    ensures ask < brief < |run|
    ensures Accepts(run[ask], VerdictAskUserVerified) && Accepts(run[brief], DecisionBriefVerified)
    ensures QuietBetween(run, ask, brief) && QuietBetween(run, brief, |run|)
  {
    hide Legal;
    hide TaskOf;
    hide Doing;
    hide Inv;
    hide Initialize;
    RunDoesTask(preflightOk, run);
    InitialTask(preflightOk);
    RunPreserves(Initialize(preflightOk).0, run);
    AskingIsDeciding(EndOf(Initialize(preflightOk).0, run), TaskOf(run));
    assert run[..|run|] == run;
    brief := DecidedAt(run, |run|, DecisionBriefVerified);
    AnswerAt(preflightOk, run, brief);
    ask := DecidedAt(run, brief, VerdictAskUserVerified);
  }

  /** A decision is recorded without the user only after a PROCEED verdict on the last decision request. */
  lemma RecordedWasProceeded(preflightOk: bool, run: seq<Step>, n: nat) returns (request: nat, verdict: nat)
    requires RunFrom(Initialize(preflightOk).0, run) && n < |run| && Accepts(run[n], DecisionRecordVerified)
    ensures request < verdict < n
    ensures Accepts(run[request], DecisionRequestVerified) && Accepts(run[verdict], VerdictProceedVerified)
    ensures QuietBetween(run, request, verdict) && QuietBetween(run, verdict, n)
  {
    hide Legal;
    hide TaskOf;
    AnswerAt(preflightOk, run, n);
    verdict := DecidedAt(run, n, VerdictProceedVerified);
    request := VerdictWasRequested(preflightOk, run, verdict, VerdictProceedVerified);
  }

  /** A clarification is accepted only as the answer to the last question. */
  lemma ClarificationWasAsked(preflightOk: bool, run: seq<Step>, n: nat) returns (question: nat)
    requires RunFrom(Initialize(preflightOk).0, run) && n < |run|
    requires run[n].event.Verified? && ExpectedKind(run[n].event.name) == ClarificationAnswer
    ensures question < n && Accepts(run[question], ClarificationQuestionVerified) && QuietBetween(run, question, n)
  {
    hide Legal;
    hide TaskOf;
    AnswerAt(preflightOk, run, n);
    question := DecidedAt(run, n, ClarificationQuestionVerified);
  }

  // ---- the user's decision cannot be passed over ----

  /** The review starts again: the work before it is given up. */
  predicate Restarts(e: Event) {
    e == Signal(ResumeFallbackRequired) || SettlesIntegrity(e)
  }

  predicate Held(task: Task) {
    task == DraftTheBrief || task == DecideAsUser
  }

  lemma HeldTasks()
    ensures Held(DraftTheBrief) && !Held(ApplyTheFixes) && !Held(StudyFindings)
  {}

  lemma HeldStep(s: MachineState, e: Event, task: Task)
    requires Held(task) && Doing(s, task) && !Terminal(s.state)
    requires BlockScope(s)
    requires s.procedure.Normal? ==> Fitting(e, task)
    requires !Restarts(e) && !(e.Verified? && e.name == UserDecisionVerified)
    ensures Held(After(s, e, task))
  {
    hide Registered;
  }

  lemma HeldAfter(t: Step, task: Task)
    requires Legal(t) && Inv(t.before) && Doing(t.before, task) && Held(task)
    requires !Restarts(t.event) && !Accepts(t, UserDecisionVerified)
    ensures Held(After(t.before, t.event, task))
  {
    hide Restarts;
    hide Doing;
    hide Fitting;
    hide Held;
    hide After;
    hide Select;
    hide CanonicalSets;
    hide Registered;
    if t.before.procedure.Normal? { StepAnswers(t, task); }
    HeldStep(t.before, t.event, task);
  }

  /** After an ASK_USER verdict the run stays with the user's decision until it is verified or the review restarts. */
  lemma {:induction false} AskedIsHeld(preflightOk: bool, run: seq<Step>, ask: nat, n: nat)
    requires RunFrom(Initialize(preflightOk).0, run) && ask < n <= |run| && Accepts(run[ask], VerdictAskUserVerified)
    requires forall k :: ask < k < n ==> !Accepts(run[k], UserDecisionVerified) && !Restarts(run[k].event)
    ensures Held(TaskOf(run[..n]))
    decreases n
  {
    hide Legal;
    hide TaskOf;
    hide Restarts;
    hide Held;
    hide Inv;
    hide Doing;
    TaskBefore(preflightOk, run, n - 1);
    if n == ask + 1 {
      RecordsOutside(run[ask]);
      assert TaskOf(run[..n]) == DraftTheBrief;
      HeldTasks();
    } else {
      hide After;
      AskedIsHeld(preflightOk, run, ask, n - 1);
      HeldAfter(run[n - 1], TaskOf(run[..n - 1]));
    }
  }

  predicate Fixing(s: MachineState) {
    s.procedure.Normal? && (s.state == ApplyingFixes || s.state == ChangesRequested)
  }

  lemma FixingTasks(s: MachineState, task: Task)
    requires Inv(s) && Doing(s, task) && Fixing(s)
    ensures task == ApplyTheFixes || task == StudyFindings
  {
    hide CanonicalSets;
    hide Registered;
    hide Answers;
  }

  /** So fixing goes on after an ASK_USER verdict only with the user's decision, or after a restart. */
  lemma FixingNeedsTheUser(preflightOk: bool, run: seq<Step>, ask: nat, n: nat) returns (k: nat)
    requires RunFrom(Initialize(preflightOk).0, run) && ask < n < |run| && Accepts(run[ask], VerdictAskUserVerified)
    requires Fixing(run[n].after)
    ensures ask < k <= n && (Accepts(run[k], UserDecisionVerified) || Restarts(run[k].event))
  {
    hide Legal;
    hide TaskOf;
    hide Restarts;
    hide Inv;
    hide Doing;
    hide Fixing;
    hide Held;
    if forall j :: ask < j < n + 1 ==> !Accepts(run[j], UserDecisionVerified) && !Restarts(run[j].event) {
      AskedIsHeld(preflightOk, run, ask, n + 1);
      InitialTask(preflightOk);
      RunDoesTask(preflightOk, run[..n + 1]);
      RunPreserves(Initialize(preflightOk).0, run);
      FixingTasks(run[n].after, TaskOf(run[..n + 1]));
      HeldTasks();
      k := n;
    } else {
      k :| ask < k < n + 1 && (Accepts(run[k], UserDecisionVerified) || Restarts(run[k].event));
    }
  }

  lemma FailureEnabled(s: MachineState)
    requires s.procedure.Normal? && s.state == ReviewingDecisionRequest
    ensures Enabled(CancelRule(F01), s, Signal(RunFailed))
  {}

  lemma FallbackEnabled(s: MachineState)
    requires s.procedure.Normal? && s.state == Failed && s.recoveryTo.Some?
    ensures Enabled(ResumeRule(RF), s, Signal(ResumeFallbackRequired))
  {}

  /** The restart is no idle exception: from every decision in progress, a failure and a fallback start a new review. */
  lemma RestartPassesOver(s: MachineState) returns (run: seq<Step>)
    requires Inv(s) && s.procedure.Normal? && s.state == ReviewingDecisionRequest
    ensures RunFrom(s, run) && |run| == 2 && Restarts(run[1].event)
    ensures EndOf(s, run) == MachineState(RunningReview, awaiting := Some(CodexCodeReview))
  {
    hide Inv;
    hide Enabled;
    hide Transition;
    FailureEnabled(s);
    var failure := AcceptedBy(CancelRule(F01), s, Signal(RunFailed));
    FallbackEnabled(failure.after);
    var fallback := AcceptedBy(ResumeRule(RF), failure.after, Signal(ResumeFallbackRequired));
    run := [failure, fallback];
  }
}
