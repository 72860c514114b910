/** The shortest way from a start to a merge: the gates can be passed, and these are the commands it takes. */
module HappyPath {
  import opened Vocabulary
  import opened Violations
  import opened MachineStates
  import opened Events
  import opened Guards
  import opened Rules
  import opened Machine
  import opened Invariant
  import opened Runs

  function EventAt(k: nat, b: Binding): Event {
    match k
    case 0 => RecordProduced(ReviewResult, b)
    case 1 => Verified(ReviewApprovedVerified, RecordEvidence(ReviewResult, b, b), NoDetail)
    case 2 => Signal(CiSucceeded)
    case 3 => RecordProduced(FinalReport, b)
    case 4 => Verified(ReportVerified, RecordEvidence(FinalReport, b, b), NoDetail)
    case 5 => Verified(MergeApprovalVerified, RecordEvidence(MergeApproval, b, b), NoDetail)
    case 6 => Signal(MergePreconditionsOk)
    case _ => Signal(MergeConfirmed)
  }

  function CommandsAt(k: nat, b: Binding): seq<Command> {
    match k
    case 0 => [PersistRecord(ReviewResult, b)]
    case 1 => [CheckCi]
    case 2 => [GenerateReport]
    case 3 => [PersistRecord(FinalReport, b)]
    case 5 => [VerifyMergePreconditions]
    case 6 => [ExecuteMerge]
    case _ => []
  }

  function StateAt(k: nat, b: Binding): MachineState {
    match k
    case 0 => MachineState(RunningReview, awaiting := Some(CodexCodeReview))
    case 1 => MachineState(RunningReview, pending := Some(PendingRecord(ReviewResult, b, RunningReview)))
    case 2 => MachineState(WaitingCi, awaiting := Some(CiResult))
    case 3 => MachineState(GeneratingReport, awaiting := Some(Report))
    case 4 => MachineState(GeneratingReport, pending := Some(PendingRecord(FinalReport, b, GeneratingReport)))
    case 5 => MachineState(ReadyForHumanMerge, awaiting := Some(UserInputGate))
    case 6 => MachineState(Merging, awaiting := Some(MergePreconditions))
    case 7 => MachineState(Merging, awaiting := Some(MergeOutcomeExecute))
    case _ => MachineState(Merged)
  }

  function RuleAt(k: nat): RuleId {
    match k
    case 0 => ProducedRule(P01)
    case 1 => WorkflowRule(T04)
    case 2 => CiRule(T22)
    case 3 => ProducedRule(P15)
    case 4 => CiRule(T27)
    case 5 => MergeRule(M32b)
    case 6 => MergeRule(M34)
    case _ => MergeRule(M37)
  }

  ghost predicate Goes(k: nat, b: Binding) {
    && Events.Constructible(EventAt(k, b)) && !Terminal(StateAt(k, b).state)
    && Enabled(RuleAt(k), StateAt(k, b), EventAt(k, b))
    && Apply(RuleOf(RuleAt(k)).effect, StateAt(k, b), EventAt(k, b)) == Next(StateAt(k + 1, b), CommandsAt(k, b))
  }

  lemma ReviewGoes(k: nat, b: Binding)
    requires k < 3
    ensures Goes(k, b)
  {
    hide BindingKey;
    hide CoverageKey;
    hide BlockKindKey;
    hide BlockReasonKey;
    hide ResolutionMatches;
  }

  lemma ReportGoes(k: nat, b: Binding)
    requires 3 <= k < 5
    ensures Goes(k, b)
  {
    hide BindingKey;
    hide CoverageKey;
    hide BlockKindKey;
    hide BlockReasonKey;
    hide ResolutionMatches;
  }

  lemma MergeGoes(k: nat, b: Binding)
    requires 5 <= k < 8
    ensures Goes(k, b)
  {
    hide BindingKey;
    hide CoverageKey;
    hide BlockKindKey;
    hide BlockReasonKey;
    hide ResolutionMatches;
  }

  /** The first k steps are accepted, with exactly these commands. */
  lemma {:induction false} Path(k: nat, b: Binding) returns (run: seq<Step>)
    requires k <= 8
    ensures RunFrom(Initialize(true).0, run) && |run| == k && EndOf(Initialize(true).0, run) == StateAt(k, b)
        && Inv(StateAt(k, b))
    ensures forall i :: 0 <= i < k ==> run[i].event == EventAt(i, b) && run[i].commands == CommandsAt(i, b)
  {
    hide Inv;
    hide Legal;
    hide EventAt;
    hide CommandsAt;
    hide RuleAt;
    hide Enabled;
    hide Apply;
    if k == 0 {
      InitialInv(true);
      run := [];
    } else {
      run := Path(k - 1, b);
      if k - 1 < 3 { ReviewGoes(k - 1, b); } else if k - 1 < 5 { ReportGoes(k - 1, b); } else { MergeGoes(k - 1, b); }
      var t := AcceptedBy(RuleAt(k - 1), StateAt(k - 1, b), EventAt(k - 1, b));
      run := run + [t];
    }
  }

  /** A run can merge: in eight steps, five of them the gates, with one executed merge. */
  lemma MergeIsReachable(b: Binding) returns (run: seq<Step>)
    ensures RunFrom(Initialize(true).0, run) && EndOf(Initialize(true).0, run) == MachineState(Merged)
    ensures forall i :: 0 <= i < |run| ==> run[i].event == EventAt(i, b) && run[i].commands == CommandsAt(i, b)
  {
    hide Inv;
    hide Legal;
    hide EventAt;
    hide CommandsAt;
    run := Path(8, b);
  }
}
