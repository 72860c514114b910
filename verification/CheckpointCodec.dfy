/** Writing the machine state into a checkpoint payload, and reading it back. */
module CheckpointCodec {
  import opened Vocabulary
  import opened Violations
  import opened MachineStates
  import opened Rules
  import opened Names

  // ---- JSON values ----

  /** The field names of the state section; every other name is an Other. */
  datatype Field =
    | StateField | AwaitingField | ReturnField | RecoveryField | PendingField | ProcedureField | BlockField
    | DeferredField
    | KindField | BindingField | SourceField | DescriptorField | HeadField | AttemptField | ViolationsField
    | TargetField
    | AuditField | ContinuationField | ReasonField | BudgetField | SnapshotField | FingerprintField | EvidenceField
    | RefField
    | Other(name: string)

  type Object = map<Field, Json>

  datatype Json = Null | Boolean(b: bool) | Number(n: int) | Text(text: string) | List(items: seq<Json>)
      | Obj(fields: map<Field, Json>)

  /** The result of reading: a value, or a refusal that is never replaced by a default. */
  datatype Parsed<+T> = Value(value: T) | Malformed {
    predicate IsFailure() { Malformed? }
    function PropagateFailure<U>(): Parsed<U> requires Malformed? { Malformed }
    function Extract(): T requires Value? { value }
  }

  /** An absent field and a null field read alike. */
  function Get(o: Object, f: Field): Json {
    if f in o then o[f] else Null
  }

  /** Only a nonempty string is a text. */
  function TextAt(o: Object, f: Field): Option<string> {
    match Get(o, f)
    case Text(text) => if text == "" then None else Some(text)
    case _ => None
  }

  function Required(o: Object, f: Field): Parsed<string> {
    match TextAt(o, f)
    case Some(text) => Value(text)
    case None => Malformed
  }

  function Known<T>(member: Option<T>): Parsed<T> {
    match member
    case Some(value) => Value(value)
    case None => Malformed
  }

  // ---- reading ----

  function ReadKind(o: Object): Parsed<RecordKind> {
    var name :- Required(o, KindField);
    Known(KindNamed(name))
  }

  function ReadRecord(o: Object): Parsed<PendingRecord> {
    var kind :- ReadKind(o);
    var binding :- Required(o, BindingField);
    var name :- Required(o, SourceField);
    var source :- Known(StateNamed(name));
    Value(PendingRecord(kind, binding, source))
  }

  function ReadOptionalRecord(j: Json): Parsed<Option<PendingRecord>> {
    match j
    case Null => Value(None)
    case Obj(o) =>
      var record :- ReadRecord(o);
      Value(Some(record))
    case _ => Malformed
  }

  function ReadViolation(j: Json): Parsed<Violation> {
    match j
    case Obj(o) =>
      var binding :- Required(o, BindingField);
      var descriptor :- Required(o, DescriptorField);
      var head :- Required(o, HeadField);
      Value(Violation(binding, descriptor, head))
    case _ => Malformed
  }

  function ReadViolationItems(items: seq<Json>): Parsed<seq<Violation>> {
    if items == [] then Value([]) else
      var first :- ReadViolation(items[0]);
      var rest :- ReadViolationItems(items[1..]);
      Value([first] + rest)
  }

  function ReadViolations(j: Json): Parsed<seq<Violation>> {
    match j
    case Null => Value([])
    case List(items) => ReadViolationItems(items)
    case _ => Malformed
  }

  function ReadProcedure(j: Json): Parsed<Procedure> {
    match j
    case Null => Value(Normal)
    case Obj(o) =>
      var kind :- Required(o, KindField);
      if kind == "NORMAL" then Value(Normal)
      else if kind == "CANCELLING" then
        var attempt :- Required(o, AttemptField);
        Value(Cancelling(attempt))
      else if kind == "HALTING_FOR_BLOCK" then
        var violations :- ReadViolations(Get(o, ViolationsField));
        var attempt :- Required(o, AttemptField);
        Value(HaltingForBlock(violations, attempt))
      else if kind == "RECORDING_INCIDENT" then
        var name :- Required(o, TargetField);
        var target :- Known(TargetNamed(name));
        var audit :- ReadOptionalRecord(Get(o, AuditField));
        Value(RecordingIncident(target, audit))
      else Malformed
    case _ => Malformed
  }

  function ReadContinuation(o: Object): Parsed<BlockedContinuation> {
    var name :- Required(o, ContinuationField);
    var id :- Known(ContinuationNamed(name));
    Value(ContinuationOf(id))
  }

  function ReadEvidence(j: Json): Parsed<RecordEvidence> {
    match j
    case Obj(o) =>
      var kind :- ReadKind(o);
      var binding :- Required(o, BindingField);
      var ref :- Required(o, RefField);
      Value(RecordEvidence(kind, binding, ref))
    case _ => Malformed
  }

  function ReadProgressBlock(o: Object): Parsed<Block> {
    var binding :- Required(o, BindingField);
    var head :- Required(o, HeadField);
    var continuation :- ReadContinuation(o);
    var reasonName :- Required(o, ReasonField);
    var reason :- Known(ProgressNamed(reasonName));
    var budgetName :- Required(o, BudgetField);
    var budget :- Known(BudgetNamed(budgetName));
    var snapshot :- Required(o, SnapshotField);
    var fingerprint :- Required(o, FingerprintField);
    Value(ProgressBlock(binding, head, continuation, reason, budget, snapshot, fingerprint))
  }

  function ReadDependencyBlock(o: Object): Parsed<Block> {
    var binding :- Required(o, BindingField);
    var head :- Required(o, HeadField);
    var continuation :- ReadContinuation(o);
    var evidence :- ReadEvidence(Get(o, EvidenceField));
    Value(ExternalDependencyBlock(binding, head, continuation, evidence))
  }

  function ReadBlock(j: Json): Parsed<Option<Block>> {
    match j
    case Null => Value(None)
    case Obj(o) =>
      var kind :- Required(o, KindField);
      if kind == "RECORD_INTEGRITY" then
        var violations :- ReadViolations(Get(o, ViolationsField));
        Value(Some(RecordIntegrityBlock(violations)))
      else if kind == "PROGRESS" then
        var block :- ReadProgressBlock(o);
        Value(Some(block))
      else if kind == "EXTERNAL_DEPENDENCY" then
        var block :- ReadDependencyBlock(o);
        Value(Some(block))
      else Malformed
    case _ => Malformed
  }

  function ReadOptionalState(o: Object, f: Field): Parsed<Option<State>> {
    match TextAt(o, f)
    case None => Value(None)
    case Some(name) =>
      var state :- Known(StateNamed(name));
      Value(Some(state))
  }

  function ReadAwaiting(o: Object): Parsed<Option<Awaiting>> {
    match TextAt(o, AwaitingField)
    case None => Value(None)
    case Some(name) =>
      var awaiting :- Known(AwaitingNamed(name));
      Value(Some(awaiting))
  }

  /** Reads the fields and constructs the state; a failed check refuses the whole section. */
  function ReadSection(o: Object): Parsed<MachineState> {
    var name :- Required(o, StateField);
    var state :- Known(StateNamed(name));
    var pending :- ReadOptionalRecord(Get(o, PendingField));
    var procedure :- ReadProcedure(Get(o, ProcedureField));
    var awaiting :- ReadAwaiting(o);
    var deferred :- ReadViolations(Get(o, DeferredField));
    var returnTo :- ReadOptionalState(o, ReturnField);
    var recoveryTo :- ReadOptionalState(o, RecoveryField);
    var block :- ReadBlock(Get(o, BlockField));
    var s := MachineState(state, procedure, awaiting, pending, deferred, returnTo, recoveryTo, block);
    if Constructible(s) then Value(s) else Malformed
  }

  function Read(payload: Object): Parsed<MachineState> {
    match Get(payload, StateField)
    case Obj(o) => ReadSection(o)
    case _ => Malformed
  }

  // ---- writing ----

  function WriteRecord(p: PendingRecord): Json {
    Obj(map[KindField := Text(KindName(p.kind)), BindingField := Text(p.binding),
        SourceField := Text(StateName(p.sourceState))])
  }

  function WriteViolation(v: Violation): Json {
    Obj(map[BindingField := Text(v.binding), DescriptorField := Text(v.descriptor), HeadField := Text(v.head)])
  }

  function WriteViolations(vs: seq<Violation>): Json {
    List(seq(|vs|, i requires 0 <= i < |vs| => WriteViolation(vs[i])))
  }

  /** The registered name of a continuation; one outside the registry cannot be saved. */
  function ContinuationIdOf(c: BlockedContinuation): (r: Option<ContinuationId>)
    ensures r.Some? ==> ContinuationOf(r.value) == c
    ensures r.None? <==> !Registered(c)
  {
    if id: ContinuationId :| ContinuationOf(id) == c then Some(id) else None
  }

  /** A procedure other than the normal one; the normal one is stored by the absence of the field. */
  function WriteProcedure(p: Procedure): Json {
    match p
    case Normal => Null
    case Cancelling(attempt) => Obj(map[KindField := Text("CANCELLING"), AttemptField := Text(attempt)])
    case HaltingForBlock(violations, attempt) =>
      Obj(map[KindField := Text("HALTING_FOR_BLOCK"), AttemptField := Text(attempt),
          ViolationsField := WriteViolations(violations)])
    case RecordingIncident(target, audit) =>
      var o := map[KindField := Text("RECORDING_INCIDENT"), TargetField := Text(TargetName(target))];
      Obj(if audit.None? then o else o[AuditField := WriteRecord(audit.value)])
  }

  function WriteEvidence(e: RecordEvidence): Json {
    Obj(map[KindField := Text(KindName(e.kind)), BindingField := Text(e.binding), RefField := Text(e.ref)])
  }

  function WriteBlock(b: Block): Json {
    match b
    case RecordIntegrityBlock(violations) =>
      Obj(map[KindField := Text("RECORD_INTEGRITY"), ViolationsField := WriteViolations(violations)])
    case ProgressBlock(binding, head, continuation, reason, budget, snapshot, fingerprint) =>
      (match ContinuationIdOf(continuation)
       case None => Null
       case Some(id) =>
         Obj(map[BindingField := Text(binding), HeadField := Text(head),
                 ContinuationField := Text(ContinuationName(id)), KindField := Text("PROGRESS"),
                 ReasonField := Text(ProgressName(reason)), BudgetField := Text(BudgetName(budget)),
                 SnapshotField := Text(snapshot), FingerprintField := Text(fingerprint)]))
    case ExternalDependencyBlock(binding, head, continuation, evidence) =>
      (match ContinuationIdOf(continuation)
       case None => Null
       case Some(id) =>
         Obj(map[BindingField := Text(binding), HeadField := Text(head),
                 ContinuationField := Text(ContinuationName(id)),
                 KindField := Text("EXTERNAL_DEPENDENCY"), EvidenceField := WriteEvidence(evidence)]))
  }

  /** The fields of the state section that the writer owns. */
  function Owned(): set<Field> {
    {StateField, AwaitingField, ReturnField, RecoveryField, PendingField, ProcedureField, BlockField, DeferredField}
  }

  function StateText(state: Option<State>): Json {
    if state.None? then Null else Text(StateName(state.value))
  }

  function AwaitingText(awaiting: Option<Awaiting>): Json {
    if awaiting.None? then Null else Text(AwaitingName(awaiting.value))
  }

  /** What the writer stores in a field of the state section it owns; null where there is nothing to store. */
  function FieldOf(s: MachineState, f: Field): Json {
    match f
    case StateField => Text(StateName(s.state))
    case AwaitingField => AwaitingText(s.awaiting)
    case ReturnField => StateText(s.returnTo)
    case RecoveryField => StateText(s.recoveryTo)
    case PendingField => if s.pending.None? then Null else WriteRecord(s.pending.value)
    case ProcedureField => WriteProcedure(s.procedure)
    case BlockField => if s.block.None? then Null else WriteBlock(s.block.value)
    case DeferredField => if s.deferred == [] then Null else WriteViolations(s.deferred)
    case _ => Null
  }

  function SectionOf(s: MachineState): Object {
    map f | f in Owned() && FieldOf(s, f) != Null :: FieldOf(s, f)
  }

  /** The section an earlier write left, if there is one. */
  function StaleSection(payload: Object): Object {
    match Get(payload, StateField)
    case Obj(o) => o
    case _ => map[]
  }

  /** The stale section loses every owned field before the new ones are stored. */
  function Write(payload: Object, s: MachineState): Object {
    payload[StateField := Obj((StaleSection(payload) - Owned()) + SectionOf(s))]
  }

  // ---- what can be stored: every opaque value nonempty, every continuation registered ----

  predicate StorableViolation(v: Violation) {
    v.binding != "" && v.descriptor != "" && v.head != ""
  }

  predicate StorableViolations(vs: seq<Violation>) {
    forall v :: v in vs ==> StorableViolation(v)
  }

  predicate StorableRecord(p: Option<PendingRecord>) {
    p.Some? ==> p.value.binding != ""
  }

  predicate StorableProcedure(p: Procedure) {
    match p
    case Normal => true
    case Cancelling(attempt) => attempt != ""
    case HaltingForBlock(violations, attempt) => StorableViolations(violations) && attempt != ""
    case RecordingIncident(_, audit) => StorableRecord(audit)
  }

  predicate StorableBlock(b: Block) {
    match b
    case RecordIntegrityBlock(violations) => StorableViolations(violations)
    case ProgressBlock(binding, head, continuation, _, _, snapshot, fingerprint) =>
      binding != "" && head != "" && snapshot != "" && fingerprint != "" && Registered(continuation)
    case ExternalDependencyBlock(binding, head, continuation, evidence) =>
      binding != "" && head != "" && evidence.binding != "" && evidence.ref != "" && Registered(continuation)
  }

  predicate Storable(s: MachineState) {
    && StorableRecord(s.pending) && StorableViolations(s.deferred) && StorableProcedure(s.procedure)
    && (s.block.Some? ==> StorableBlock(s.block.value))
  }

  // ---- each part reads back as itself, or not at all ----

  function Back<T>(storable: bool, value: T): Parsed<T> {
    if storable then Value(value) else Malformed
  }

  lemma RecordBack(p: PendingRecord)
    ensures ReadOptionalRecord(WriteRecord(p)) == Back(StorableRecord(Some(p)), Some(p))
  {
    hide StateName;
    hide KindName;
    hide StateNamed;
    hide KindNamed;
    KindNamesKnown(p.kind);
    StateNamesKnown(p.sourceState);
  }

  lemma ViolationBack(v: Violation)
    ensures ReadViolation(WriteViolation(v)) == Back(StorableViolation(v), v)
  {}

  lemma {:induction false} ViolationItemsBack(vs: seq<Violation>)
    ensures ReadViolationItems(WriteViolations(vs).items) == Back(StorableViolations(vs), vs)
  {
    if vs != [] {
      var items := WriteViolations(vs).items;
      assert items[1..] == WriteViolations(vs[1..]).items;
      assert vs == [vs[0]] + vs[1..];
      ViolationBack(vs[0]);
      ViolationItemsBack(vs[1..]);
    }
  }

  lemma ProcedureBack(p: Procedure)
    ensures ReadProcedure(WriteProcedure(p)) == Back(StorableProcedure(p), p)
  {
    hide TargetNamed;
    hide TargetName;
    hide ReadViolationItems;
    hide WriteRecord;
    match p
    case RecordingIncident(target, audit) =>
      assert |"RECORDING_INCIDENT"| != |"HALTING_FOR_BLOCK"|;
      SmallNamesKnown(Continue, ReviewRound, target, ReviewBlocking);
      if audit.Some? { RecordBack(audit.value); }
    case HaltingForBlock(violations, _) =>
      ViolationItemsBack(violations);
    case _ =>
  }

  lemma EvidenceBack(e: RecordEvidence)
    ensures ReadEvidence(WriteEvidence(e)) == Back(e.binding != "" && e.ref != "", e)
  {
    hide KindName;
    hide KindNamed;
    KindNamesKnown(e.kind);
  }

  lemma ContinuationBack(c: BlockedContinuation, o: Object)
    requires Registered(c) && Get(o, ContinuationField) == Text(ContinuationName(ContinuationIdOf(c).value))
    ensures ReadContinuation(o) == Value(c)
  {
    hide ContinuationName;
    hide ContinuationNamed;
    hide ContinuationIdOf;
    SmallNamesKnown(Continue, ReviewRound, TargetMerged, ContinuationIdOf(c).value);
  }

  lemma ProgressBlockBack(b: Block)
    requires b.ProgressBlock? && Registered(b.continuation)
    ensures ReadBlock(WriteBlock(b)) == Back(StorableBlock(b), Some(b))
  {
    hide ContinuationName;
    hide ContinuationIdOf;
    hide ReadContinuation;
    hide ProgressName;
    hide ProgressNamed;
    hide BudgetName;
    hide BudgetNamed;
    hide Registered;
    hide ReadDependencyBlock;
    hide ReadViolations;
    ContinuationBack(b.continuation, WriteBlock(b).fields);
    SmallNamesKnown(b.reason, b.budget, TargetMerged, ReviewBlocking);
    assert |"PROGRESS"| != |"RECORD_INTEGRITY"|;
  }

  lemma DependencyBlockBack(b: Block)
    requires b.ExternalDependencyBlock? && Registered(b.continuation)
    ensures ReadBlock(WriteBlock(b)) == Back(StorableBlock(b), Some(b))
  {
    hide ContinuationName;
    hide ContinuationIdOf;
    hide ReadContinuation;
    hide ReadEvidence;
    hide WriteEvidence;
    hide Registered;
    hide ReadProgressBlock;
    hide ReadViolations;
    ContinuationBack(b.continuation, WriteBlock(b).fields);
    EvidenceBack(b.evidence);
    assert |"EXTERNAL_DEPENDENCY"| != |"RECORD_INTEGRITY"| && |"EXTERNAL_DEPENDENCY"| != |"PROGRESS"|;
  }

  lemma IntegrityBlockBack(b: Block)
    requires b.RecordIntegrityBlock?
    ensures ReadBlock(WriteBlock(b)) == Back(StorableBlock(b), Some(b))
  {
    hide ReadProgressBlock;
    hide ReadDependencyBlock;
    hide ReadViolationItems;
    ViolationItemsBack(b.violations);
  }

  /** What is read where a block was written: itself, nothing for an unregistered continuation, else a refusal. */
  lemma BlockBack(b: Block)
    ensures b.RecordIntegrityBlock? || Registered(b.continuation)
        ==> ReadBlock(WriteBlock(b)) == Back(StorableBlock(b), Some(b))
    ensures !b.RecordIntegrityBlock? && !Registered(b.continuation) ==> ReadBlock(WriteBlock(b)) == Value(None)
  {
    hide StorableBlock;
    hide Registered;
    if b.RecordIntegrityBlock? {
      IntegrityBlockBack(b);
    } else if Registered(b.continuation) && b.ProgressBlock? {
      ProgressBlockBack(b);
    } else if Registered(b.continuation) {
      DependencyBlockBack(b);
    }
  }

  // ---- the whole section ----

  lemma SectionField(stale: Object, s: MachineState, f: Field)
    requires f in Owned()
    ensures Get((stale - Owned()) + SectionOf(s), f) == FieldOf(s, f)
  {
    hide FieldOf;
  }

  lemma BlockCannotBeDropped(s: MachineState)
    requires Constructible(s) && s.block.Some?
    ensures !Constructible(s.(block := None))
  {
    hide Canon;
  }

  lemma OptionalStateBack(o: Object, f: Field, state: Option<State>)
    requires Get(o, f) == StateText(state)
    ensures ReadOptionalState(o, f) == Value(state)
  {
    hide StateName;
    hide StateNamed;
    if state.Some? { StateNamesKnown(state.value); }
  }

  lemma AwaitingBack(o: Object, awaiting: Option<Awaiting>)
    requires Get(o, AwaitingField) == AwaitingText(awaiting)
    ensures ReadAwaiting(o) == Value(awaiting)
  {
    hide AwaitingName;
    hide AwaitingNamed;
    if awaiting.Some? { AwaitingNamesKnown(awaiting.value); }
  }

  lemma DeferredBack(vs: seq<Violation>)
    ensures ReadViolations(if vs == [] then Null else WriteViolations(vs)) == Back(StorableViolations(vs), vs)
  {
    hide ReadViolationItems;
    ViolationItemsBack(vs);
  }

  /** What reading the parts gives back, before the state is constructed. */
  lemma PartsBack(o: Object, s: MachineState)
    requires forall f :: f in Owned() ==> Get(o, f) == FieldOf(s, f)
    ensures Required(o, StateField) == Value(StateName(s.state)) && StateNamed(StateName(s.state)) == Some(s.state)
    ensures ReadOptionalRecord(Get(o, PendingField)) == Back(StorableRecord(s.pending), s.pending)
    ensures ReadProcedure(Get(o, ProcedureField)) == Back(StorableProcedure(s.procedure), s.procedure)
    ensures ReadAwaiting(o) == Value(s.awaiting)
    ensures ReadViolations(Get(o, DeferredField)) == Back(StorableViolations(s.deferred), s.deferred)
    ensures ReadOptionalState(o, ReturnField) == Value(s.returnTo)
        && ReadOptionalState(o, RecoveryField) == Value(s.recoveryTo)
  {
    hide StateName;
    hide StateNamed;
    hide ReadOptionalState;
    hide ReadAwaiting;
    hide ReadViolations;
    hide StorableViolations;
    hide WriteViolations;
    hide ReadProcedure;
    hide WriteProcedure;
    hide StorableProcedure;
    hide WriteRecord;
    hide WriteBlock;
    hide StateText;
    hide AwaitingText;
    StateNamesKnown(s.state);
    if s.pending.Some? { RecordBack(s.pending.value); }
    ProcedureBack(s.procedure);
    AwaitingBack(o, s.awaiting);
    DeferredBack(s.deferred);
    OptionalStateBack(o, ReturnField, s.returnTo);
    OptionalStateBack(o, RecoveryField, s.recoveryTo);
  }

  lemma SectionBack(o: Object, s: MachineState)
    requires Constructible(s) && forall f :: f in Owned() ==> Get(o, f) == FieldOf(s, f)
    ensures ReadSection(o) == Back(Storable(s), s)
  {
    hide Constructible;
    hide StateName;
    hide StateNamed;
    hide Required;
    hide ReadOptionalRecord;
    hide ReadProcedure;
    hide ReadAwaiting;
    hide ReadViolations;
    hide ReadOptionalState;
    hide ReadBlock;
    hide WriteBlock;
    hide StorableRecord;
    hide StorableProcedure;
    hide StorableViolations;
    hide StorableBlock;
    hide Registered;
    PartsBack(o, s);
    assert Get(o, BlockField) == FieldOf(s, BlockField);
    if s.block.Some? {
      BlockBack(s.block.value);
      UnregisteredNotStorable(s.block.value);
      BlockCannotBeDropped(s);
    } else {
      assert ReadBlock(Null) == Value(None) by { NoBlockBack(); }
    }
  }

  lemma NoBlockBack()
    ensures ReadBlock(Null) == Value(None)
  {}

  lemma UnregisteredNotStorable(b: Block)
    ensures !b.RecordIntegrityBlock? && !Registered(b.continuation) ==> !StorableBlock(b)
  {}

  /**
   * Round trip: over any earlier payload and any stale section, what is written reads back as exactly the same state
   * if every opaque value is nonempty and the continuation is registered, and otherwise is refused.
   */
  lemma RoundTrip(payload: Object, s: MachineState)
    requires Constructible(s)
    ensures Read(Write(payload, s)) == if Storable(s) then Value(s) else Malformed
  {
    hide ReadSection;
    hide FieldOf;
    hide SectionOf;
    hide Storable;
    hide Constructible;
    var stale := StaleSection(payload);
    var o := (stale - Owned()) + SectionOf(s);
    forall f | f in Owned() ensures Get(o, f) == FieldOf(s, f) {
      SectionField(stale, s, f);
    }
    SectionBack(o, s);
  }

  /** Nothing but the owned fields of the state section changes. */
  lemma WriteFrame(payload: Object, s: MachineState, f: Field)
    ensures f != StateField ==> Get(Write(payload, s), f) == Get(payload, f)
    ensures Get(payload, StateField).Obj? && f !in Owned() ==>
              Get(Get(Write(payload, s), StateField).fields, f) == Get(Get(payload, StateField).fields, f)
  {
    hide FieldOf;
  }

  /** The last write wins: no value of an earlier state survives in the section. */
  lemma LastWriteWins(payload: Object, first: MachineState, last: MachineState)
    ensures Write(Write(payload, first), last) == Write(payload, last)
  {
    hide FieldOf;
    var stale := StaleSection(payload);
    assert ((stale - Owned()) + SectionOf(first)) - Owned() == stale - Owned();
  }

  // ---- what can be read could have been written ----

  lemma RecordStorable(j: Json)
    requires ReadOptionalRecord(j).Value?
    ensures StorableRecord(ReadOptionalRecord(j).value)
  {
    hide StateNamed;
    hide KindNamed;
  }

  lemma {:induction false} ViolationItemsStorable(items: seq<Json>)
    requires ReadViolationItems(items).Value?
    ensures StorableViolations(ReadViolationItems(items).value)
  {
    if items != [] {
      ViolationItemsStorable(items[1..]);
    }
  }

  lemma ViolationsStorable(j: Json)
    requires ReadViolations(j).Value?
    ensures StorableViolations(ReadViolations(j).value)
  {
    hide ReadViolationItems;
    if j.List? { ViolationItemsStorable(j.items); }
  }

  lemma ProcedureStorable(j: Json)
    requires ReadProcedure(j).Value?
    ensures StorableProcedure(ReadProcedure(j).value)
  {
    hide ReadViolations;
    hide StorableViolations;
    hide ReadOptionalRecord;
    hide StorableRecord;
    hide TargetNamed;
    if j.Obj? {
      if ReadViolations(Get(j.fields, ViolationsField)).Value? { ViolationsStorable(Get(j.fields, ViolationsField)); }
      if ReadOptionalRecord(Get(j.fields, AuditField)).Value? { RecordStorable(Get(j.fields, AuditField)); }
    }
  }

  lemma BlockStorable(j: Json)
    requires ReadBlock(j).Value? && ReadBlock(j).value.Some?
    ensures StorableBlock(ReadBlock(j).value.value)
  {
    hide ReadViolations;
    hide StorableViolations;
    hide KindNamed;
    hide ContinuationNamed;
    hide ProgressNamed;
    hide BudgetNamed;
    if ReadViolations(Get(j.fields, ViolationsField)).Value? { ViolationsStorable(Get(j.fields, ViolationsField)); }
  }

  /** The reader constructs only states that pass every check and that the writer can store. */
  lemma ReadIsStorable(payload: Object)
    requires Read(payload).Value?
    ensures Constructible(Read(payload).value) && Storable(Read(payload).value)
  {
    hide Constructible;
    hide StateNamed;
    hide Required;
    hide ReadOptionalRecord;
    hide ReadProcedure;
    hide ReadAwaiting;
    hide ReadViolations;
    hide ReadOptionalState;
    hide ReadBlock;
    hide StorableRecord;
    hide StorableProcedure;
    hide StorableViolations;
    hide StorableBlock;
    var o := Get(payload, StateField).fields;
    RecordStorable(Get(o, PendingField));
    ProcedureStorable(Get(o, ProcedureField));
    ViolationsStorable(Get(o, DeferredField));
    if ReadBlock(Get(o, BlockField)).value.Some? { BlockStorable(Get(o, BlockField)); }
  }

  /** Rewriting what was read stores an equal state, whatever form the section had. */
  lemma RewriteRead(payload: Object)
    requires Read(payload).Value?
    ensures Read(Write(payload, Read(payload).value)) == Read(payload)
  {
    hide Read;
    hide Write;
    hide Storable;
    hide Constructible;
    ReadIsStorable(payload);
    RoundTrip(payload, Read(payload).value);
  }

  /** Writes only what was read back unchanged. */
  function WriteVerified(payload: Object, s: MachineState): Parsed<Object> {
    var updated := Write(payload, s);
    var restored :- Read(updated);
    if restored == s then Value(updated) else Malformed
  }

  /** The verified writer refuses exactly the states that cannot be stored; it never stores a different one. */
  lemma VerifiedWrite(payload: Object, s: MachineState)
    requires Constructible(s)
    ensures WriteVerified(payload, s) == if Storable(s) then Value(Write(payload, s)) else Malformed
  {
    hide Read;
    hide Write;
    hide Storable;
    hide Constructible;
    RoundTrip(payload, s);
  }

  // ---- the writer as it works: a copied dictionary, its stale fields popped, then the new ones assigned ----

  function SectionPart(s: MachineState, fs: set<Field>): Object {
    map f | f in fs && FieldOf(s, f) != Null :: FieldOf(s, f)
  }

  lemma PartAdds(base: Object, s: MachineState, fs: set<Field>, f: Field)
    ensures FieldOf(s, f) == Null ==> base + SectionPart(s, fs + {f}) == base + SectionPart(s, fs)
    ensures FieldOf(s, f) != Null ==> base + SectionPart(s, fs + {f}) == (base + SectionPart(s, fs))[f := FieldOf(s, f)]
  {
    hide FieldOf;
  }

  /** Assigns a field of the copied dictionary, unless there is nothing to store. */
  method Assign(o: Object, f: Field, j: Json, ghost s: MachineState, ghost base: Object, ghost fs: set<Field>)
      returns (values: Object)
    requires o == base + SectionPart(s, fs) && j == FieldOf(s, f)
    ensures values == base + SectionPart(s, fs + {f})
  {
    hide FieldOf;
    hide SectionPart;
    PartAdds(base, s, fs, f);
    values := o;
    if j != Null {
      values := values[f := j];
    }
  }

  lemma PartStart(stale: Object, s: MachineState)
    ensures var kept := stale - (Owned() - {StateField});
            kept[StateField := FieldOf(s, StateField)] == (stale - Owned()) + SectionPart(s, {StateField})
  {
    assert FieldOf(s, StateField) != Null;
    hide FieldOf;
  }

  /** With every field assigned the section is complete. */
  lemma PartWhole(base: Object, s: MachineState)
    ensures base + SectionPart(s, {StateField} + {AwaitingField} + {ReturnField} + {RecoveryField} + {PendingField}
                                  + {ProcedureField} + {BlockField} + {DeferredField}) == base + SectionOf(s)
  {
    hide FieldOf;
    assert {StateField} + {AwaitingField} + {ReturnField} + {RecoveryField} + {PendingField}
           + {ProcedureField} + {BlockField} + {DeferredField} == Owned();
  }

  const POPPED: seq<Field> :=
    [AwaitingField, ReturnField, RecoveryField, PendingField, ProcedureField, BlockField, DeferredField]

  method PopStale(stale: Object) returns (values: Object)
    ensures values == stale - (Owned() - {StateField})
  {
    values := stale;
    for i := 0 to |POPPED|
      invariant values == stale - set f | f in POPPED[..i]
    {
      assert POPPED[..i + 1] == POPPED[..i] + [POPPED[i]];
      values := values - {POPPED[i]};
    }
    assert POPPED[..|POPPED|] == POPPED;
    assert (set f | f in POPPED) == Owned() - {StateField};
  }

  lemma FieldValues(s: MachineState)
    ensures FieldOf(s, StateField) == Text(StateName(s.state))
    ensures FieldOf(s, AwaitingField) == AwaitingText(s.awaiting)
    ensures FieldOf(s, ReturnField) == StateText(s.returnTo)
    ensures FieldOf(s, RecoveryField) == StateText(s.recoveryTo)
    ensures FieldOf(s, PendingField) == (if s.pending.None? then Null else WriteRecord(s.pending.value))
    ensures FieldOf(s, ProcedureField) == WriteProcedure(s.procedure)
    ensures FieldOf(s, BlockField) == (if s.block.None? then Null else WriteBlock(s.block.value))
    ensures FieldOf(s, DeferredField) == (if s.deferred == [] then Null else WriteViolations(s.deferred))
  {
    hide StateName;
    hide AwaitingName;
    hide StateText;
    hide AwaitingText;
    hide WriteRecord;
    hide WriteProcedure;
    hide WriteBlock;
    hide WriteViolations;
  }

  method WithMachineState(payload: Object, s: MachineState) returns (updated: Object)
    ensures updated == Write(payload, s)
  {
    hide StaleSection;
    hide Owned;
    hide SectionPart;
    hide SectionOf;
    hide FieldOf;
    hide StateText;
    hide AwaitingText;
    FieldValues(s);
    var section := StaleSection(payload);
    var values := PopStale(section);
    values := values[StateField := Text(StateName(s.state))];
    ghost var base := section - Owned();
    ghost var done := {StateField};
    PartStart(section, s);
    values := Assign(values, AwaitingField, AwaitingText(s.awaiting), s, base, done);
    done := done + {AwaitingField};
    values := Assign(values, ReturnField, StateText(s.returnTo), s, base, done);
    done := done + {ReturnField};
    values := Assign(values, RecoveryField, StateText(s.recoveryTo), s, base, done);
    done := done + {RecoveryField};
    var pending := if s.pending.None? then Null else WriteRecord(s.pending.value);
    values := Assign(values, PendingField, pending, s, base, done);
    done := done + {PendingField};
    values := Assign(values, ProcedureField, WriteProcedure(s.procedure), s, base, done);
    done := done + {ProcedureField};
    values := Assign(values, BlockField, if s.block.None? then Null else WriteBlock(s.block.value), s, base, done);
    done := done + {BlockField};
    var deferred := if s.deferred == [] then Null else WriteViolations(s.deferred);
    values := Assign(values, DeferredField, deferred, s, base, done);
    done := done + {DeferredField};
    PartWhole(base, s);
    assert values == base + SectionOf(s);
    updated := payload[StateField := Obj(values)];
  }
}
