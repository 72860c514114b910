/** The strings a checkpoint stores for enumerated values, and the lookup back. */
module Names {
  import opened Vocabulary
  import opened Rules

  function StateName(s: State): string {
    match s
    case RunningReview => "RUNNING_REVIEW"
    case ChangesRequested => "CHANGES_REQUESTED"
    case ApplyingFixes => "APPLYING_FIXES"
    case ClarifyingReview => "CLARIFYING_REVIEW"
    case ReviewingDecisionRequest => "REVIEWING_DECISION_REQUEST"
    case AwaitingUserDecision => "AWAITING_USER_DECISION"
    case AwaitingToolPermission => "AWAITING_TOOL_PERMISSION"
    case WaitingCi => "WAITING_CI"
    case GeneratingReport => "GENERATING_REPORT"
    case ReadyForHumanMerge => "READY_FOR_HUMAN_MERGE"
    case Merging => "MERGING"
    case Merged => "MERGED"
    case MergeFailed => "MERGE_FAILED"
    case Blocked => "BLOCKED"
    case Failed => "FAILED"
    case Cancelled => "CANCELLED"
    case ReportFailed => "REPORT_FAILED"
  }

  function AwaitingName(a: Awaiting): string {
    match a
    case CodexCodeReview => "CODEX_CODE_REVIEW"
    case CodexClarification => "CODEX_CLARIFICATION"
    case CodexDecisionVerdict => "CODEX_DECISION_VERDICT"
    case HostApplyFindings => "HOST_APPLY_FINDINGS"
    case HostDraftDecisionRequest => "HOST_DRAFT_DECISION_REQUEST"
    case HostDraftDecisionBrief => "HOST_DRAFT_DECISION_BRIEF"
    case HostRecordDecision => "HOST_RECORD_DECISION"
    case HostReviseDecisionRequest => "HOST_REVISE_DECISION_REQUEST"
    case HostAnswerGateQuestion => "HOST_ANSWER_GATE_QUESTION"
    case CiResult => "CI_RESULT"
    case Report => "REPORT"
    case MergePreconditions => "MERGE_PRECONDITIONS"
    case MergeOutcomeExecute => "MERGE_OUTCOME_EXECUTE"
    case MergeOutcomeCancel => "MERGE_OUTCOME_CANCEL"
    case MergeOutcomeFailure => "MERGE_OUTCOME_FAILURE"
    case UserInputDecision => "USER_INPUT_DECISION"
    case UserInputGate => "USER_INPUT_GATE"
    case UserInputPermission => "USER_INPUT_PERMISSION"
  }

  function KindName(k: RecordKind): string {
    match k
    case ReviewResult => "REVIEW_RESULT"
    case FixResult => "FIX_RESULT"
    case ClarificationQuestion => "CLARIFICATION_QUESTION"
    case ClarificationAnswer => "CLARIFICATION_ANSWER"
    case DecisionRequest => "DECISION_REQUEST"
    case DecisionVerdict => "DECISION_VERDICT"
    case DecisionBrief => "DECISION_BRIEF"
    case DecisionRecord => "DECISION_RECORD"
    case ExternalDependency => "EXTERNAL_DEPENDENCY"
    case PermissionBlock => "PERMISSION_BLOCK"
    case CiTimeout => "CI_TIMEOUT"
    case CiCodeFailure => "CI_CODE_FAILURE"
    case FinalReport => "FINAL_REPORT"
    case IntegrityIncident => "INTEGRITY_INCIDENT"
    case GateAnswer => "GATE_ANSWER"
    case UserDecision => "USER_DECISION"
    case GateQuestion => "GATE_QUESTION"
    case GateChanges => "GATE_CHANGES"
    case MergeApproval => "MERGE_APPROVAL"
    case BlockIntervention => "BLOCK_INTERVENTION"
    case UserCancel => "USER_CANCEL"
  }

  function ProgressName(p: Progress): string {
    match p
    case Continue => "CONTINUE"
    case LimitReached => "LIMIT_REACHED"
    case NoProgress => "NO_PROGRESS"
  }

  function BudgetName(b: Budget): string {
    match b
    case ReviewRound => "REVIEW_ROUND"
    case ClarificationTurn => "CLARIFICATION_TURN"
  }

  function TargetName(t: IncidentTarget): string {
    match t
    case TargetMerged => "MERGED"
    case TargetCancelled => "CANCELLED"
  }

  function ContinuationName(id: ContinuationId): string {
    match id
    case ReviewBlocking => "REVIEW_BLOCKING"
    case ClarificationTurns => "CLARIFICATION"
    case FixRounds => "FIX_RESULT"
    case Resubmission => "RESUBMIT"
    case CiCodeFailures => "CI_CODE_FAILURE"
    case DependencyFound => "EXTERNAL_DEPENDENCY"
  }

  // ---- no two members share a name ----

  lemma StateNamesDistinct(a: State, b: State)
    requires StateName(a) == StateName(b)
    ensures a == b
  {
    assert |StateName(a)| == |StateName(b)|;
    assert StateName(a)[0] == StateName(b)[0];
    assert StateName(a)[1] == StateName(b)[1];
  }

  lemma AwaitingNamesDistinct(a: Awaiting, b: Awaiting)
    requires AwaitingName(a) == AwaitingName(b)
    ensures a == b
  {
    var n, m := AwaitingName(a), AwaitingName(b);
    assert |n| == |m| >= 6;
    assert n[0] == m[0] && n[5] == m[5];
    assert |n| == 21 ==> n[14] == m[14];
  }

  lemma KindNamesDistinct(a: RecordKind, b: RecordKind)
    requires KindName(a) == KindName(b)
    ensures a == b
  {
    var n, m := KindName(a), KindName(b);
    assert |n| == |m| >= 10;
    assert n[0] == m[0] && n[9] == m[9];
  }

  lemma ProgressNamesDistinct(a: Progress, b: Progress)
    requires ProgressName(a) == ProgressName(b)
    ensures a == b
  {
    assert |ProgressName(a)| == |ProgressName(b)|;
  }

  lemma BudgetNamesDistinct(a: Budget, b: Budget)
    requires BudgetName(a) == BudgetName(b)
    ensures a == b
  {
    assert |BudgetName(a)| == |BudgetName(b)|;
  }

  lemma TargetNamesDistinct(a: IncidentTarget, b: IncidentTarget)
    requires TargetName(a) == TargetName(b)
    ensures a == b
  {
    assert |TargetName(a)| == |TargetName(b)|;
  }

  lemma ContinuationNamesDistinct(a: ContinuationId, b: ContinuationId)
    requires ContinuationName(a) == ContinuationName(b)
    ensures a == b
  {
    assert |ContinuationName(a)| == |ContinuationName(b)|;
    assert ContinuationName(a)[0] == ContinuationName(b)[0];
  }

  // ---- the member a name stands for, if any ----

  function StateNamed(name: string): (r: Option<State>)
    ensures r.Some? ==> StateName(r.value) == name
    ensures forall m: State :: StateName(m) == name ==> r == Some(m)
  {
    if exists m: State :: StateName(m) == name then
      assert forall a, b :: StateName(a) == name && StateName(b) == name ==> a == b by {
        forall a, b | StateName(a) == name && StateName(b) == name ensures a == b { StateNamesDistinct(a, b); }
      }
      var m: State :| StateName(m) == name;
      Some(m)
    else None
  }

  function AwaitingNamed(name: string): (r: Option<Awaiting>)
    ensures r.Some? ==> AwaitingName(r.value) == name
    ensures forall m: Awaiting :: AwaitingName(m) == name ==> r == Some(m)
  {
    if exists m: Awaiting :: AwaitingName(m) == name then
      assert forall a, b :: AwaitingName(a) == name && AwaitingName(b) == name ==> a == b by {
        forall a, b | AwaitingName(a) == name && AwaitingName(b) == name ensures a == b { AwaitingNamesDistinct(a, b); }
      }
      var m: Awaiting :| AwaitingName(m) == name;
      Some(m)
    else None
  }

  function KindNamed(name: string): (r: Option<RecordKind>)
    ensures r.Some? ==> KindName(r.value) == name
    ensures forall m: RecordKind :: KindName(m) == name ==> r == Some(m)
  {
    if exists m: RecordKind :: KindName(m) == name then
      assert forall a, b :: KindName(a) == name && KindName(b) == name ==> a == b by {
        forall a, b | KindName(a) == name && KindName(b) == name ensures a == b { KindNamesDistinct(a, b); }
      }
      var m: RecordKind :| KindName(m) == name;
      Some(m)
    else None
  }

  function ProgressNamed(name: string): (r: Option<Progress>)
    ensures r.Some? ==> ProgressName(r.value) == name
    ensures forall m: Progress :: ProgressName(m) == name ==> r == Some(m)
  {
    if exists m: Progress :: ProgressName(m) == name then
      assert forall a, b :: ProgressName(a) == name && ProgressName(b) == name ==> a == b by {
        forall a, b | ProgressName(a) == name && ProgressName(b) == name ensures a == b { ProgressNamesDistinct(a, b); }
      }
      var m: Progress :| ProgressName(m) == name;
      Some(m)
    else None
  }

  function BudgetNamed(name: string): (r: Option<Budget>)
    ensures r.Some? ==> BudgetName(r.value) == name
    ensures forall m: Budget :: BudgetName(m) == name ==> r == Some(m)
  {
    if exists m: Budget :: BudgetName(m) == name then
      assert forall a, b :: BudgetName(a) == name && BudgetName(b) == name ==> a == b by {
        forall a, b | BudgetName(a) == name && BudgetName(b) == name ensures a == b { BudgetNamesDistinct(a, b); }
      }
      var m: Budget :| BudgetName(m) == name;
      Some(m)
    else None
  }

  function TargetNamed(name: string): (r: Option<IncidentTarget>)
    ensures r.Some? ==> TargetName(r.value) == name
    ensures forall m: IncidentTarget :: TargetName(m) == name ==> r == Some(m)
  {
    if exists m: IncidentTarget :: TargetName(m) == name then
      assert forall a, b :: TargetName(a) == name && TargetName(b) == name ==> a == b by {
        forall a, b | TargetName(a) == name && TargetName(b) == name ensures a == b { TargetNamesDistinct(a, b); }
      }
      var m: IncidentTarget :| TargetName(m) == name;
      Some(m)
    else None
  }

  function ContinuationNamed(name: string): (r: Option<ContinuationId>)
    ensures r.Some? ==> ContinuationName(r.value) == name
    ensures forall m: ContinuationId :: ContinuationName(m) == name ==> r == Some(m)
  {
    if exists m: ContinuationId :: ContinuationName(m) == name then
      assert forall a, b :: ContinuationName(a) == name && ContinuationName(b) == name ==> a == b by {
        forall a, b | ContinuationName(a) == name && ContinuationName(b) == name ensures a == b {
          ContinuationNamesDistinct(a, b);
        }
      }
      var m: ContinuationId :| ContinuationName(m) == name;
      Some(m)
    else None
  }

  // ---- every name is nonempty and looks up its own member ----

  lemma StateNamesKnown(s: State)
    ensures StateName(s) != "" && StateNamed(StateName(s)) == Some(s)
  {
    hide StateNamed;
    assert |StateName(s)| > 0;
  }

  lemma KindNamesKnown(k: RecordKind)
    ensures KindName(k) != "" && KindNamed(KindName(k)) == Some(k)
  {
    hide KindNamed;
    assert |KindName(k)| > 0;
  }

  lemma AwaitingNamesKnown(a: Awaiting)
    ensures AwaitingName(a) != "" && AwaitingNamed(AwaitingName(a)) == Some(a)
  {
    hide AwaitingNamed;
    assert |AwaitingName(a)| > 0;
  }

  lemma SmallNamesKnown(p: Progress, b: Budget, t: IncidentTarget, id: ContinuationId)
    ensures ProgressName(p) != "" && ProgressNamed(ProgressName(p)) == Some(p)
    ensures BudgetName(b) != "" && BudgetNamed(BudgetName(b)) == Some(b)
    ensures TargetName(t) != "" && TargetNamed(TargetName(t)) == Some(t)
    ensures ContinuationName(id) != "" && ContinuationNamed(ContinuationName(id)) == Some(id)
  {
    hide ProgressNamed;
    hide BudgetNamed;
    hide TargetNamed;
    hide ContinuationNamed;
    assert |ProgressName(p)| > 0 && |BudgetName(b)| > 0 && |TargetName(t)| > 0 && |ContinuationName(id)| > 0;
  }
}
