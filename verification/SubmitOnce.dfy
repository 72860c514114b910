/** One action at a time, each attempt consumed once: advance and submit over the durable checkpoint. */
module SubmitOnce {
  import opened Vocabulary
  import opened MachineStates
  import opened Events
  import opened Machine
  import opened Guards
  import opened Rules

  const MAX_RECEIPTS: nat := 32

  /** An unfinished host action: one attempt has one ID and one nonce; retries keep the correlation. */
  datatype Action = Action(id: string, nonce: string, kind: HostAction, head: string, correlation: string, attempt: nat)

  datatype Report = Completed(kind: RecordKind) | Failure(transient: bool)

  datatype Envelope = Envelope(id: string, nonce: string, kind: HostAction, head: string, report: Report,
      resultHash: string)

  datatype Receipt = Receipt(id: string, nonce: string, report: Report, submitHash: string)

  /** The parts of the checkpoint that advance and submit read and write. */
  datatype Checkpoint = Checkpoint(machine: MachineState, pending: Option<Action>, receipts: seq<Receipt>,
      stopRequested: bool)

  /** The retry budget of a call and the canonical hash of an envelope, which is left abstract. */
  datatype Settings = Settings(budget: nat, digest: Envelope -> string)

  ghost predicate ValidSettings(g: Settings) {
    forall a, b :: g.digest(a) == g.digest(b) ==> a == b
  }

  /**
   * What a call finds around the checkpoint: the head, whether an envelope can be built and stored, the stored
   * envelope, the record chain, the result file, and the binding of the next record.
   */
  datatype Surroundings = Surroundings(head: string, issuable: bool, envelopeIntact: bool, chainIntact: bool,
      resultFits: bool, binding: Binding)

  datatype Ids = Ids(action: string, nonce: string, correlation: string)

  datatype Refusal =
    | DuplicateMismatch | StaleAction | KindMismatch | HeadMismatch | EnvelopeBroken | ChainViolation | KindNotAllowed
    | ResultUnusable | IllegalEvent | NotRetryable | NotIssuable | NoAwaiting | NotHostAction

  datatype SubmitOutcome = Accepted(receipt: Receipt, retryAvailable: bool) | Replayed(receipt: Receipt)
      | Stopped(why: Refusal)

  datatype AdvanceOutcome =
    | Issued(action: Action, reissued: bool) | AwaitUser | PersistRequired | HaltRequired | EmergencyStopRequired
    | IncidentRequired | BlockedRun | TerminalRun | AdvanceStopped(why: Refusal)

  /** The result kinds a host may return for an action. */
  function ResultKinds(a: HostAction): seq<RecordKind> {
    match a
    case ApplyFindings => [FixResult, ClarificationQuestion, DecisionRequest, ExternalDependency, PermissionBlock]
    case DraftDecisionRequest => [DecisionRequest]
    case ReviseDecisionRequest => [DecisionRequest]
    case DraftDecisionBrief => [DecisionBrief]
    case RecordDecision => [DecisionRecord]
    case AnswerGateQuestion => [GateAnswer]
  }

  function ActionFor(a: Awaiting): Option<HostAction> {
    match a
    case HostApplyFindings => Some(ApplyFindings)
    case HostDraftDecisionRequest => Some(DraftDecisionRequest)
    case HostReviseDecisionRequest => Some(ReviseDecisionRequest)
    case HostDraftDecisionBrief => Some(DraftDecisionBrief)
    case HostRecordDecision => Some(RecordDecision)
    case HostAnswerGateQuestion => Some(AnswerGateQuestion)
    case _ => None
  }

  /** The registry produces a record of this kind while this response is awaited. */
  ghost predicate Producible(awaiting: Awaiting, kind: RecordKind) {
    exists p: ProducedId :: ProducedData(p).0 == kind && AwaitingAllowed(ProducedData(p).2, Some(awaiting))
  }

  lemma ProducedIsResult(awaiting: Awaiting, p: ProducedId)
    requires ActionFor(awaiting).Some? && AwaitingAllowed(ProducedData(p).2, Some(awaiting))
    ensures ProducedData(p).0 in ResultKinds(ActionFor(awaiting).value)
  {}

  lemma ProducibleIsResult(awaiting: Awaiting, kind: RecordKind)
    requires ActionFor(awaiting).Some? && Producible(awaiting, kind)
    ensures kind in ResultKinds(ActionFor(awaiting).value)
  {
    hide ResultKinds;
    hide ProducedData;
    hide AwaitingAllowed;
    var p: ProducedId :| ProducedData(p).0 == kind && AwaitingAllowed(ProducedData(p).2, Some(awaiting));
    ProducedIsResult(awaiting, p);
  }

  /** The rule that produces a result kind of an action. */
  function ProducerOf(awaiting: Awaiting, kind: RecordKind): ProducedId {
    match kind
    case FixResult => P02
    case ClarificationQuestion => P03
    case DecisionRequest => if awaiting.HostApplyFindings? then P05 else P06
    case DecisionBrief => P08
    case DecisionRecord => P09
    case ExternalDependency => P10
    case PermissionBlock => P12
    case _ => P16
  }

  lemma ResultIsProduced(awaiting: Awaiting, kind: RecordKind)
    requires ActionFor(awaiting).Some? && kind in ResultKinds(ActionFor(awaiting).value)
    ensures ProducedData(ProducerOf(awaiting, kind)).0 == kind
    ensures AwaitingAllowed(ProducedData(ProducerOf(awaiting, kind)).2, Some(awaiting))
  {}

  lemma ResultIsProducible(awaiting: Awaiting, kind: RecordKind)
    requires ActionFor(awaiting).Some? && kind in ResultKinds(ActionFor(awaiting).value)
    ensures Producible(awaiting, kind)
  {
    hide ResultKinds;
    hide ProducedData;
    hide AwaitingAllowed;
    hide ProducerOf;
    ResultIsProduced(awaiting, kind);
  }

  /**
   * The result kinds of an action are exactly what the state machine lets a host produce while that action is awaited.
   */
  lemma ResultKindsMatchRegistry(awaiting: Awaiting, kind: RecordKind)
    requires ActionFor(awaiting).Some?
    ensures kind in ResultKinds(ActionFor(awaiting).value) <==> Producible(awaiting, kind)
  {
    hide ResultKinds;
    hide Producible;
    if kind in ResultKinds(ActionFor(awaiting).value) {
      ResultIsProducible(awaiting, kind);
    }
    if Producible(awaiting, kind) {
      ProducibleIsResult(awaiting, kind);
    }
  }

  function FindReceipt(rs: seq<Receipt>, id: string, nonce: string): (r: Option<Receipt>)
    ensures r.Some? ==> r.value in rs && r.value.id == id && r.value.nonce == nonce
    ensures r.None? ==> forall q :: q in rs ==> !(q.id == id && q.nonce == nonce)
  {
    if rs == [] then None
    else if rs[0].id == id && rs[0].nonce == nonce then Some(rs[0])
    else
      assert rs == [rs[0]] + rs[1..];
      FindReceipt(rs[1..], id, nonce)
  }

  // ---- submit ----

  /** A result advances the machine by one produced record, and its attempt is over. */
  function Complete(c: Checkpoint, r: Receipt, a: Action, around: Surroundings): (Checkpoint, SubmitOutcome)
    requires r.report.Completed?
  {
    if r.report.kind !in ResultKinds(a.kind) then (c, Stopped(KindNotAllowed))
    else if !around.resultFits then (c, Stopped(ResultUnusable))
    else match Transition(c.machine, RecordProduced(r.report.kind, around.binding))
         case Accepted(next, _) => (Checkpoint(next, None, c.receipts + [r], c.stopRequested),
             SubmitOutcome.Accepted(r, false))
         case _ => (c, Stopped(IllegalEvent))
  }

  /** A transient failure within the budget keeps the action for another attempt; any other fails the run. */
  function Fail(c: Checkpoint, g: Settings, r: Receipt, a: Action, around: Surroundings): (Checkpoint, SubmitOutcome)
    requires r.report.Failure?
  {
    if !around.resultFits then (c, Stopped(ResultUnusable))
    else if r.report.transient && a.attempt < g.budget && |c.receipts| + 1 < MAX_RECEIPTS then
      (c.(receipts := c.receipts + [r]), SubmitOutcome.Accepted(r, true))
    else match Transition(c.machine, Signal(RunFailed))
         case Accepted(next, _) => (Checkpoint(next, None, c.receipts + [r], c.stopRequested),
             SubmitOutcome.Accepted(r, false))
         case _ => (c, Stopped(IllegalEvent))
  }

  function Submitted(c: Checkpoint, g: Settings, e: Envelope, around: Surroundings): (Checkpoint, SubmitOutcome) {
    var known := FindReceipt(c.receipts, e.id, e.nonce);
    if known.Some? then
      (c, if known.value.submitHash == g.digest(e) then Replayed(known.value) else Stopped(DuplicateMismatch))
    else if c.pending.None? then (c, Stopped(StaleAction))
    else
      var a := c.pending.value;
      if e.id != a.id || e.nonce != a.nonce then (c, Stopped(StaleAction))
      else if e.kind != a.kind then (c, Stopped(KindMismatch))
      else if e.head != a.head then (c, Stopped(HeadMismatch))
      else if !around.envelopeIntact then (c, Stopped(EnvelopeBroken))
      else if !around.chainIntact then (c, Stopped(ChainViolation))
      else
        var r := Receipt(e.id, e.nonce, e.report, g.digest(e));
        if e.report.Completed? then Complete(c, r, a, around) else Fail(c, g, r, a, around)
  }

  // ---- advance ----

  /** What to do next outside host actions, in the order the checks run. */
  function Elsewhere(c: Checkpoint, around: Surroundings): Option<AdvanceOutcome> {
    var m := c.machine;
    if c.stopRequested then Some(EmergencyStopRequired)
    else if Terminal(m.state) then Some(TerminalRun)
    else if m.procedure.Cancelling? || m.procedure.HaltingForBlock? then Some(HaltRequired)
    else if m.procedure.RecordingIncident? then Some(if m.pending.Some? then PersistRequired else IncidentRequired)
    else if m.pending.Some? then Some(PersistRequired)
    else if m.block.Some? then Some(BlockedRun)
    else if !around.chainIntact then Some(AdvanceStopped(ChainViolation))
    else None
  }

  function NewAction(ids: Ids, kind: HostAction, head: string): Action {
    Action(ids.action, ids.nonce, kind, head, ids.correlation, 1)
  }

  function NextAttempt(a: Action, ids: Ids): Action {
    a.(id := ids.action, nonce := ids.nonce, attempt := a.attempt + 1)
  }

  function Advanced(c: Checkpoint, ids: Ids, around: Surroundings): (Checkpoint, AdvanceOutcome) {
    if Elsewhere(c, around).Some? then (c, Elsewhere(c, around).value)
    else if c.pending.Some? then
      var a := c.pending.value;
      match FindReceipt(c.receipts, a.id, a.nonce)
      case None => (c, if around.envelopeIntact then Issued(a, true) else AdvanceStopped(EnvelopeBroken))
      case Some(r) =>
        if r.report != Failure(true) then (c, AdvanceStopped(NotRetryable))
        else if !around.issuable then (c, AdvanceStopped(NotIssuable))
        else
          (c.(pending := Some(NextAttempt(a, ids))), Issued(NextAttempt(a, ids), false))
    else match c.machine.awaiting
         case None => (c, AdvanceStopped(NoAwaiting))
         case Some(awaiting) =>
           if awaiting.UserInputDecision? || awaiting.UserInputGate?
               || awaiting.UserInputPermission? then (c, AwaitUser)
           else match ActionFor(awaiting)
                case None => (c, AdvanceStopped(NotHostAction))
                case Some(kind) =>
                  if !around.issuable then (c, AdvanceStopped(NotIssuable)) else
                  var a := NewAction(ids, kind, around.head);
                  (c.(pending := Some(a), receipts := []), Issued(a, false))
  }

  // ---- one call: a resend changes nothing, an altered one is refused ----

  lemma FindAppended(rs: seq<Receipt>, r: Receipt)
    requires FindReceipt(rs, r.id, r.nonce).None?
    ensures FindReceipt(rs + [r], r.id, r.nonce) == Some(r)
  {
    if rs == [] {
      assert [] + [r] == [r];
    } else {
      assert (rs + [r])[1..] == rs[1..] + [r];
      FindAppended(rs[1..], r);
    }
  }

  /** The checkpoint changes exactly when a submit is accepted, and then it holds the receipt of this very envelope. */
  lemma AcceptedIsRecorded(c: Checkpoint, g: Settings, e: Envelope, around: Surroundings)
    ensures var (after, out) := Submitted(c, g, e, around);
            && (out.Accepted? <==> after != c)
            && (out.Accepted? ==>
                  && FindReceipt(c.receipts, e.id, e.nonce).None? && after.receipts == c.receipts + [out.receipt]
                  && FindReceipt(after.receipts, e.id, e.nonce) == Some(out.receipt)
                  && out.receipt == Receipt(e.id, e.nonce, e.report, g.digest(e)))
  {
    hide Transition;
    var r := Receipt(e.id, e.nonce, e.report, g.digest(e));
    if FindReceipt(c.receipts, e.id, e.nonce).None? {
      FindAppended(c.receipts, r);
      assert c.receipts + [r] != c.receipts;
    }
  }

  /** While the receipt is held, the same envelope is answered with it and any other for the attempt is refused. */
  lemma ResendIsReplayed(c: Checkpoint, g: Settings, e: Envelope, f: Envelope, around: Surroundings, later: Checkpoint,
                         then_: Surroundings, budget: nat)
    requires ValidSettings(g) && Submitted(c, g, e, around).1.Accepted?
    requires FindReceipt(later.receipts, e.id, e.nonce) == Some(Submitted(c, g, e, around).1.receipt)
    requires f.id == e.id && f.nonce == e.nonce
    ensures Submitted(later, g.(budget := budget), f, then_) ==
            (later, if f == e then Replayed(Submitted(c, g, e, around).1.receipt) else Stopped(DuplicateMismatch))
  {
    hide Transition;
    AcceptedIsRecorded(c, g, e, around);
  }

  // ---- histories of calls ----

  /** A checkpoint with everything that ever happened to it: IDs given out, attempts consumed, actions completed. */
  datatype World = World(c: Checkpoint, used: set<string>, consumed: seq<(string, string)>, completed: seq<string>)

  datatype Move =
    | DoAdvance(ids: Ids, around: Surroundings)
    | DoSubmit(envelope: Envelope, around: Surroundings, budget: nat)
    | OtherWork(machine: MachineState, stop: bool)

  /** Every submit brings its own retry budget; the settings hold the greatest of them. */
  function Step(w: World, g: Settings, m: Move): World {
    match m
    case DoAdvance(ids, around) =>
      w.(c := Advanced(w.c, ids, around).0, used := w.used + {ids.action, ids.nonce, ids.correlation})
    case DoSubmit(e, around, budget) =>
      var (after, out) := Submitted(w.c, g.(budget := budget), e, around);
      if out.Accepted? then
        World(after, w.used, w.consumed + [(e.id, e.nonce)],
              if e.report.Completed? && w.c.pending.Some? then w.completed + [w.c.pending.value.correlation]
                  else w.completed)
      else w.(c := after)
    case OtherWork(machine, stop) => w.(c := w.c.(machine := machine, stopRequested := stop))
  }

  /** The source of IDs never repeats one, and no budget exceeds the greatest. */
  ghost predicate Fair(w: World, g: Settings, m: Move) {
    && (m.DoAdvance? ==> m.ids.action !in w.used && m.ids.correlation !in w.used && m.ids.action != m.ids.correlation)
    && (m.DoSubmit? ==> m.budget <= g.budget)
  }

  function MaxAttempts(g: Settings): nat {
    if g.budget > 1 then g.budget else 1
  }

  ghost predicate Held(c: Checkpoint, a: Action) {
    FindReceipt(c.receipts, a.id, a.nonce).Some?
  }

  ghost predicate LedgerBounded(c: Checkpoint, g: Settings) {
    match c.pending
    case None => |c.receipts| <= MAX_RECEIPTS && |c.receipts| <= MaxAttempts(g)
    case Some(a) =>
      && 1 <= a.attempt <= MaxAttempts(g)
      && |c.receipts| == a.attempt - 1 + (if Held(c, a) then 1 else 0)
      && |c.receipts| < MAX_RECEIPTS
      && (Held(c, a) ==> a.attempt < g.budget)
  }

  ghost predicate HistoryKept(w: World) {
    && (forall i :: 0 <= i < |w.consumed| ==> w.consumed[i].0 in w.used)
    && (forall i, j :: 0 <= i < j < |w.consumed| ==> w.consumed[i].0 != w.consumed[j].0)
    && (forall i :: 0 <= i < |w.completed| ==> w.completed[i] in w.used)
    && (forall i, j :: 0 <= i < j < |w.completed| ==> w.completed[i] != w.completed[j])
    && (forall r :: r in w.c.receipts ==> (r.id, r.nonce) in w.consumed)
    && (w.c.pending.Some? ==>
          var a := w.c.pending.value;
          && a.id in w.used && a.correlation in w.used && a.correlation !in w.completed
          && (forall i :: 0 <= i < |w.consumed| && w.consumed[i].0 == a.id ==> Held(w.c, a)))
  }

  ghost predicate Consistent(w: World, g: Settings) {
    LedgerBounded(w.c, g) && HistoryKept(w)
  }

  lemma AdvanceKeepsLedger(c: Checkpoint, g: Settings, ids: Ids, around: Surroundings)
    requires LedgerBounded(c, g) && forall r :: r in c.receipts ==> r.id != ids.action
    ensures LedgerBounded(Advanced(c, ids, around).0, g)
  {
    hide Elsewhere;
  }

  lemma SubmitKeepsLedger(c: Checkpoint, g: Settings, e: Envelope, around: Surroundings, budget: nat)
    requires LedgerBounded(c, g) && budget <= g.budget
    ensures LedgerBounded(Submitted(c, g.(budget := budget), e, around).0, g)
  {
    hide Transition;
    AcceptedIsRecorded(c, g.(budget := budget), e, around);
  }

  lemma AdvanceKeepsHistory(w: World, g: Settings, m: Move)
    requires m.DoAdvance? && Consistent(w, g) && Fair(w, g, m)
    ensures HistoryKept(Step(w, g, m))
  {
    hide Elsewhere;
    hide LedgerBounded;
  }

  lemma SubmitPending(c: Checkpoint, g: Settings, e: Envelope, around: Surroundings)
    requires Submitted(c, g, e, around).1.Accepted?
    ensures var after := Submitted(c, g, e, around).0;
            && c.pending.Some? && e.id == c.pending.value.id && e.nonce == c.pending.value.nonce
            && (after.pending == c.pending || after.pending.None?)
            && (e.report.Completed? ==> after.pending.None?)
  {
    hide Transition;
    hide FindReceipt;
    hide ResultKinds;
  }

  lemma SubmitKeepsHistory(w: World, g: Settings, m: Move)
    requires m.DoSubmit? && Consistent(w, g)
    ensures HistoryKept(Step(w, g, m))
  {
    hide LedgerBounded;
    hide Submitted;
    AcceptedIsRecorded(w.c, g.(budget := m.budget), m.envelope, m.around);
    if Submitted(w.c, g.(budget := m.budget), m.envelope, m.around).1.Accepted? {
      SubmitPending(w.c, g.(budget := m.budget), m.envelope, m.around);
    }
  }

  lemma StepKeeps(w: World, g: Settings, m: Move)
    requires Consistent(w, g) && Fair(w, g, m)
    ensures Consistent(Step(w, g, m), g)
  {
    hide HistoryKept;
    hide LedgerBounded;
    hide Submitted;
    hide Advanced;
    match m
    case DoAdvance(ids, around) =>
      ReceiptsAreUsed(w);
      AdvanceKeepsLedger(w.c, g, ids, around);
      AdvanceKeepsHistory(w, g, m);
    case DoSubmit(e, around, budget) =>
      SubmitKeepsLedger(w.c, g, e, around, budget);
      SubmitKeepsHistory(w, g, m);
    case OtherWork(machine, stop) => OtherWorkKeeps(w, g, machine, stop);
  }

  lemma ReceiptsAreUsed(w: World)
    requires HistoryKept(w)
    ensures forall r :: r in w.c.receipts ==> r.id in w.used
  {
    forall r | r in w.c.receipts ensures r.id in w.used {
      var i :| 0 <= i < |w.consumed| && w.consumed[i] == (r.id, r.nonce);
    }
  }

  lemma OtherWorkKeeps(w: World, g: Settings, machine: MachineState, stop: bool)
    requires Consistent(w, g)
    ensures Consistent(Step(w, g, OtherWork(machine, stop)), g)
  {}

  function Play(w: World, g: Settings, moves: seq<Move>): World {
    if moves == [] then w else Step(Play(w, g, moves[..|moves| - 1]), g, moves[|moves| - 1])
  }

  ghost predicate FairPlay(w: World, g: Settings, moves: seq<Move>) {
    forall i :: 0 <= i < |moves| ==> Fair(Play(w, g, moves[..i]), g, moves[i])
  }

  lemma {:induction false} PlayKeeps(w: World, g: Settings, moves: seq<Move>)
    requires Consistent(w, g) && FairPlay(w, g, moves)
    ensures Consistent(Play(w, g, moves), g)
    decreases |moves|
  {
    hide Consistent;
    hide Step;
    if moves != [] {
      var n := |moves| - 1;
      assert Fair(Play(w, g, moves[..n]), g, moves[n]);
      forall i | 0 <= i < n ensures Fair(Play(w, g, moves[..n][..i]), g, moves[..n][i]) {
        assert moves[..n][..i] == moves[..i];
      }
      PlayKeeps(w, g, moves[..n]);
      StepKeeps(Play(w, g, moves[..n]), g, moves[n]);
    }
  }

  /**
   * Over any interleaving of advances and of duplicated, late or altered submits: no attempt is consumed twice, no
   * action yields two results, attempts stay within the greatest budget and the ledger within its 32 receipts.
   */
  lemma ConsumedOnce(start: MachineState, g: Settings, moves: seq<Move>)
    requires FairPlay(World(Checkpoint(start, None, [], false), {}, [], []), g, moves)
    ensures var w := Play(World(Checkpoint(start, None, [], false), {}, [], []), g, moves);
            && (forall i, j :: 0 <= i < j < |w.consumed| ==> w.consumed[i] != w.consumed[j])
            && (forall i, j :: 0 <= i < j < |w.completed| ==> w.completed[i] != w.completed[j])
            && (w.c.pending.Some? ==> 1 <= w.c.pending.value.attempt <= MaxAttempts(g))
            && |w.c.receipts| <= MAX_RECEIPTS && |w.c.receipts| <= MaxAttempts(g)
  {
    hide Step;
    PlayKeeps(World(Checkpoint(start, None, [], false), {}, [], []), g, moves);
  }

  // ---- the calls as they run: loaded, decided and overwritten in place ----

  /** The scan of the ledger. */
  method ScanReceipts(rs: seq<Receipt>, id: string, nonce: string) returns (r: Option<Receipt>)
    ensures r == FindReceipt(rs, id, nonce)
  {
    for i := 0 to |rs|
      invariant FindReceipt(rs, id, nonce) == FindReceipt(rs[i..], id, nonce)
    {
      assert rs[i..][1..] == rs[i + 1..];
      if rs[i].id == id && rs[i].nonce == nonce {
        return Some(rs[i]);
      }
    }
    return None;
  }

  class Controller {
    var machine: MachineState
    var pending: Option<Action>
    var receipts: seq<Receipt>
    var stopRequested: bool

    function Value(): Checkpoint
      reads this
    {
      Checkpoint(machine, pending, receipts, stopRequested)
    }

    constructor (start: MachineState)
      ensures Value() == Checkpoint(start, None, [], false)
    {
      machine, pending, receipts, stopRequested := start, None, [], false;
    }

    method IssueAction(action: Action, retry: bool) returns (out: AdvanceOutcome)
      modifies this
      ensures out == Issued(action, false)
      ensures Value() == old(Value()).(pending := Some(action), receipts := if retry then old(receipts) else [])
    {
      if !retry { receipts := []; }
      pending := Some(action);
      out := Issued(action, false);
    }

    method AdvanceRun(ids: Ids, around: Surroundings) returns (out: AdvanceOutcome)
      modifies this
      ensures (Value(), out) == Advanced(old(Value()), ids, around)
    {
      hide Elsewhere;
      var elsewhere := Elsewhere(Value(), around);
      if elsewhere.Some? {
        return elsewhere.value;
      }
      if pending.Some? {
        var a := pending.value;
        var receipt := ScanReceipts(receipts, a.id, a.nonce);
        if receipt.None? {
          return if around.envelopeIntact then Issued(a, true) else AdvanceStopped(EnvelopeBroken);
        }
        if receipt.value.report != Failure(true) {
          return AdvanceStopped(NotRetryable);
        }
        if !around.issuable {
          return AdvanceStopped(NotIssuable);
        }
        out := IssueAction(NextAttempt(a, ids), true);
        return;
      }
      if machine.awaiting.None? {
        return AdvanceStopped(NoAwaiting);
      }
      var awaiting := machine.awaiting.value;
      if awaiting.UserInputDecision? || awaiting.UserInputGate? || awaiting.UserInputPermission? {
        return AwaitUser;
      }
      var kind := ActionFor(awaiting);
      if kind.None? {
        return AdvanceStopped(NotHostAction);
      }
      if !around.issuable {
        return AdvanceStopped(NotIssuable);
      }
      out := IssueAction(NewAction(ids, kind.value, around.head), false);
    }

    method SubmitResult(g: Settings, e: Envelope, around: Surroundings) returns (out: SubmitOutcome)
      modifies this
      ensures (Value(), out) == Submitted(old(Value()), g, e, around)
    {
      hide Transition;
      var known := ScanReceipts(receipts, e.id, e.nonce);
      if known.Some? {
        return if known.value.submitHash == g.digest(e) then Replayed(known.value) else Stopped(DuplicateMismatch);
      }
      if pending.None? {
        return Stopped(StaleAction);
      }
      var a := pending.value;
      if e.id != a.id || e.nonce != a.nonce { return Stopped(StaleAction); }
      if e.kind != a.kind { return Stopped(KindMismatch); }
      if e.head != a.head { return Stopped(HeadMismatch); }
      if !around.envelopeIntact { return Stopped(EnvelopeBroken); }
      if !around.chainIntact { return Stopped(ChainViolation); }
      var r := Receipt(e.id, e.nonce, e.report, g.digest(e));
      if e.report.Completed? && e.report.kind !in ResultKinds(a.kind) { return Stopped(KindNotAllowed); }
      if !around.resultFits { return Stopped(ResultUnusable); }
      if e.report.Failure? && e.report.transient && a.attempt < g.budget && |receipts| + 1 < MAX_RECEIPTS {
        receipts := receipts + [r];
        return SubmitOutcome.Accepted(r, true);
      }
      var moved := Transition(machine, if e.report.Completed? then RecordProduced(e.report.kind, around.binding)
          else Signal(RunFailed));
      if !moved.Accepted? {
        return Stopped(IllegalEvent);
      }
      machine := moved.next;
      receipts := receipts + [r];
      pending := None;
      return SubmitOutcome.Accepted(r, false);
    }
  }
}
