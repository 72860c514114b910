/** The payload of a record marker, structural keys and projection: composing it, and the strict parse. */
module RecordMarkers {
  import opened Vocabulary
  import opened Names
  import opened MarkerText

  /** A record's claim about its place in the chain, with the projection of its meaning. */
  datatype Payload = Payload(key: string, kind: RecordKind, run: string, head: string, number: nat,
                             prev: Option<string>,
                             auditPrev: Option<nat>, projection: Raw)

  /** What is left abstract: the result words each kind of record allows, and the wording of a refusal. */
  datatype Coding = Coding(vocabulary: (RecordKind, string) -> bool, describe: Refusal -> string)

  const MAX_PAYLOAD_BYTES: nat := 2048

  datatype Refusal =
    | EmptyField(key: Key) | BadSeq | BadKind | NotIncident | BadAnchor | AnchorZeroHasPrev | AnchorNeedsPrev
    | GenesisHasPrev | BadPrev | OverridesStructure | TooLong | ForeignKey | NotAttachable
    | UnexpectedProjection | BadProjectionValue | MissingPay | MissingProjection | BadResult
    | NoMarker | TokenElsewhere | NotCanonical | NotLastLine

  datatype Outcome<+T> = Done(value: T) | Refused(why: Refusal) {
    predicate IsFailure() { Refused? }
    function PropagateFailure<U>(): Outcome<U> requires Refused? { Refused(why) }
    function Extract(): T requires Done? { value }
  }

  predicate HexDigit(c: char) {
    '0' <= c <= '9' || 'a' <= c <= 'f'
  }

  /** 64 lower-case hexadecimal digits. */
  predicate HashText(s: string) {
    |s| == 64 && forall i :: 0 <= i < |s| ==> HexDigit(s[i])
  }

  function Lookup(raw: Raw, key: Key): Option<Scalar> {
    if key in raw then Some(raw[key]) else None
  }

  /** The rule for the explicit anchor of an incident record. */
  function AuditLinkError(kind: RecordKind, number: int, anchor: Scalar, previous: Option<Scalar>): Option<Refusal> {
    if kind != IntegrityIncident then Some(NotIncident)
    else if !anchor.Int? || !(0 <= anchor.n < number) then Some(BadAnchor)
    else if anchor.n == 0 then (if previous.None? then None else Some(AnchorZeroHasPrev))
    else if previous.Some? && previous.value.Str? && HashText(previous.value.s) then None
    else Some(AnchorNeedsPrev)
  }

  function Nonempty(raw: Raw, key: Key): Outcome<string> {
    match Lookup(raw, key)
    case Some(Str(s)) => if s == "" then Refused(EmptyField(key)) else Done(s)
    case _ => Refused(EmptyField(key))
  }

  // ---- parsing, in the order the checks run ----

  function ParseSeq(raw: Raw): Outcome<nat> {
    match Lookup(raw, SeqKey)
    case Some(Int(n)) => if n >= 1 then Done(n) else Refused(BadSeq)
    case _ => Refused(BadSeq)
  }

  /** The link to the predecessor: what prev and audit_prev may be, given the kind and the sequence number. */
  function ParseLink(raw: Raw, kind: RecordKind, number: nat): Outcome<(Option<string>, Option<nat>)> {
    var previous := Lookup(raw, PrevKey);
    match Lookup(raw, AuditPrevKey)
    case Some(anchor) =>
      (match AuditLinkError(kind, number, anchor, previous)
       case Some(why) => Refused(why)
       case None => Done((if previous.None? then None else Some(previous.value.s), Some(anchor.n))))
    case None =>
      if number == 1 then (if previous.Some? then Refused(GenesisHasPrev) else Done((None, None)))
      else if previous.Some? && previous.value.Str? && HashText(previous.value.s) then
        Done((Some(previous.value.s), None))
      else Refused(BadPrev)
  }

  // ---- the projection ----

  /** The keys a kind of record must carry, the payload hash among them. */
  function RequiredKeys(kind: RecordKind): set<Key> {
    match kind
    case ReviewResult => {PayKey, ResultKey, RoundKey}
    case ClarificationQuestion => {PayKey, TurnKey, FingerprintKey, TargetKey}
    case ClarificationAnswer => {PayKey, ResultKey, TurnKey, FingerprintKey}
    case DecisionVerdict => {PayKey, ResultKey}
    case DecisionBrief => {PayKey, SubjectKey}
    case DecisionRecord => {PayKey, SubjectKey, ResultKey}
    case PermissionBlock => {PayKey, SubjectKey}
    case UserDecision => {PayKey, SubjectKey}
    case MergeApproval => {PayKey, ResultKey}
    case BlockIntervention => {PayKey, TargetKey}
    case IntegrityIncident => {PayKey, DigestKey, CountKey}
    case _ => {PayKey}
  }

  /** The keys it may carry: only a verdict has an optional one. */
  function AllowedKeys(kind: RecordKind): set<Key> {
    RequiredKeys(kind) + if kind.DecisionVerdict? then {FingerprintKey} else {}
  }

  predicate ValueFits(key: Key, value: Scalar) {
    if key.RoundKey? || key.TurnKey? || key.CountKey? then value.Int? && value.n >= 1
    else if key.PayKey? || key.DigestKey? then value.Str? && HashText(value.s)
    else value.Str? && value.s != ""
  }

  function ProjectionOf(raw: Raw): Raw {
    map k | k in raw && Projected(k) :: raw[k]
  }

  function DecodeProjection(c: Coding, kind: RecordKind, raw: Raw): Outcome<Raw> {
    var present := ProjectionOf(raw);
    if exists k :: k in present && k !in AllowedKeys(kind) then Refused(UnexpectedProjection)
    else if exists k :: k in present && !ValueFits(k, present[k]) then Refused(BadProjectionValue)
    else if PayKey !in present then Refused(MissingPay)
    else if exists k :: k in RequiredKeys(kind) && k !in present then Refused(MissingProjection)
    else if ResultKey in present && !c.vocabulary(kind, present[ResultKey].s) then Refused(BadResult)
    else Done(present)
  }

  /** The projections a kind of record may carry. */
  ghost predicate ProjectionFits(c: Coding, kind: RecordKind, projection: Raw) {
    && RequiredKeys(kind) <= projection.Keys <= AllowedKeys(kind)
    && (forall k :: k in projection ==> ValueFits(k, projection[k]))
    && (ResultKey in projection ==> c.vocabulary(kind, projection[ResultKey].s))
  }

  lemma PayRequired(kind: RecordKind)
    ensures PayKey in RequiredKeys(kind)
  {}

  lemma DecodedFits(c: Coding, kind: RecordKind, raw: Raw)
    ensures DecodeProjection(c, kind, raw).Done? <==> ProjectionFits(c, kind, ProjectionOf(raw))
    ensures DecodeProjection(c, kind, raw).Done? ==> DecodeProjection(c, kind, raw).value == ProjectionOf(raw)
  {
    hide ValueFits;
    hide RequiredKeys;
    hide AllowedKeys;
    hide ProjectionOf;
    PayRequired(kind);
  }

  function Parse(c: Coding, raw: Raw): Outcome<Payload> {
    if Size(raw) > MAX_PAYLOAD_BYTES then Refused(TooLong)
    else if exists k :: k in raw && k.OtherKey? then Refused(ForeignKey)
    else ParseFields(c, raw)
  }

  function ParseFields(c: Coding, raw: Raw): Outcome<Payload> {
    var key :- Nonempty(raw, KeyKey);
    var kindName :- Nonempty(raw, KindKey);
    var run :- Nonempty(raw, RunKey);
    var head :- Nonempty(raw, HeadKey);
    var number :- ParseSeq(raw);
    match KindNamed(kindName)
    case None => Refused(BadKind)
    case Some(kind) =>
      var link :- ParseLink(raw, kind, number);
      var projection :- DecodeProjection(c, kind, raw);
      Done(Payload(key, kind, run, head, number, link.0, link.1, projection))
  }

  // ---- composing ----

  function StructureOf(p: Payload): Raw {
    var base: Raw := map[KeyKey := Str(p.key), KindKey := Str(KindName(p.kind)), RunKey := Str(p.run),
                         HeadKey := Str(p.head),
                         SeqKey := Int(p.number)];
    var linked := if p.auditPrev.None? then base else base[AuditPrevKey := Int(p.auditPrev.value)];
    if p.prev.None? then linked else linked[PrevKey := Str(p.prev.value)]
  }

  function RawOf(p: Payload): Raw {
    StructureOf(p) + p.projection
  }

  /**
   * The projection is added last: it may not override a structural key. What cannot be attached, for a foreign name or
   * for its length, is refused here as well.
   */
  function ComposeProjection(p: Payload): Outcome<Raw> {
    if exists k :: k in p.projection && Structural(k) then Refused(OverridesStructure)
    else if !Attachable(RawOf(p)) then Refused(NotAttachable)
    else if Size(RawOf(p)) > MAX_PAYLOAD_BYTES then Refused(TooLong)
    else Done(RawOf(p))
  }

  function Compose(p: Payload): Outcome<Raw> {
    if p.key == "" then Refused(EmptyField(KeyKey))
    else if p.run == "" then Refused(EmptyField(RunKey))
    else if p.head == "" then Refused(EmptyField(HeadKey))
    else if p.number < 1 then Refused(BadSeq)
    else
      var previous := if p.prev.None? then None else Some(Str(p.prev.value));
      if p.auditPrev.Some? then
        match AuditLinkError(p.kind, p.number, Int(p.auditPrev.value), previous)
        case Some(why) => Refused(why)
        case None => ComposeProjection(p)
      else if (p.number == 1) != p.prev.None? then Refused(if p.number == 1 then GenesisHasPrev else BadPrev)
      else if p.prev.Some? && !HashText(p.prev.value) then Refused(BadPrev)
      else ComposeProjection(p)
  }

  /** What every parsed payload satisfies: only a genesis record or an anchor of 0 lacks its predecessor. */
  predicate WellFormed(p: Payload) {
    && p.number >= 1
    && (p.auditPrev.Some? ==> p.kind == IntegrityIncident && p.auditPrev.value < p.number)
    && (p.prev.None? <==> if p.auditPrev.Some? then p.auditPrev.value == 0 else p.number == 1)
    && (p.prev.Some? ==> HashText(p.prev.value))
  }

  /** What a producer must see to. */
  ghost predicate Composable(p: Payload) {
    && WellFormed(p) && p.key != "" && p.run != "" && p.head != ""
    && (forall k :: k in p.projection ==> !Structural(k)) && Attachable(RawOf(p)) && Size(RawOf(p)) <= MAX_PAYLOAD_BYTES
  }

  lemma ComposeAccepts(p: Payload)
    ensures Compose(p).Done? <==> Composable(p)
    ensures Compose(p).Done? ==> Compose(p).value == RawOf(p)
  {
    hide HashText;
    hide RawOf;
    hide Size;
  }

  // ---- round trips ----

  lemma StructureKept(p: Payload)
    requires forall k :: k in p.projection ==> !Structural(k)
    ensures forall k :: Structural(k) ==> Lookup(RawOf(p), k) == Lookup(StructureOf(p), k)
  {
    hide KindName;
  }

  lemma StructureKeys(p: Payload)
    ensures forall k :: k in StructureOf(p) ==> Structural(k)
    ensures Lookup(StructureOf(p), KeyKey) == Some(Str(p.key))
        && Lookup(StructureOf(p), KindKey) == Some(Str(KindName(p.kind)))
    ensures Lookup(StructureOf(p), RunKey) == Some(Str(p.run)) && Lookup(StructureOf(p), HeadKey) == Some(Str(p.head))
    ensures Lookup(StructureOf(p), SeqKey) == Some(Int(p.number))
    ensures Lookup(StructureOf(p), PrevKey) == if p.prev.None? then None else Some(Str(p.prev.value))
    ensures Lookup(StructureOf(p), AuditPrevKey) == if p.auditPrev.None? then None else Some(Int(p.auditPrev.value))
  {
    hide KindName;
  }

  lemma LinkParses(p: Payload, raw: Raw)
    requires WellFormed(p)
    requires Lookup(raw, PrevKey) == if p.prev.None? then None else Some(Str(p.prev.value))
    requires Lookup(raw, AuditPrevKey) == if p.auditPrev.None? then None else Some(Int(p.auditPrev.value))
    ensures ParseLink(raw, p.kind, p.number) == Done((p.prev, p.auditPrev))
  {
    hide HashText;
    hide Lookup;
  }

  lemma ProjectionKept(p: Payload)
    requires forall k :: k in p.projection ==> Projected(k)
    ensures ProjectionOf(RawOf(p)) == p.projection
  {
    hide StructureOf;
    StructureKeys(p);
    assert ProjectionOf(RawOf(p)).Keys == p.projection.Keys;
  }

  lemma FittingKeys(c: Coding, kind: RecordKind, projection: Raw)
    requires ProjectionFits(c, kind, projection)
    ensures forall k :: k in projection ==> Projected(k)
  {
    hide HashText;
  }

  /** The structural fields of a composed marker always parse; what follows is up to the projection. */
  lemma FieldsParse(c: Coding, p: Payload)
    requires Composable(p)
    ensures ParseFields(c, RawOf(p)) == match DecodeProjection(c, p.kind, RawOf(p))
            case Done(projection) => Done(p.(projection := projection))
            case Refused(why) => Refused(why)
  {
    hide HashText;
    hide KindName;
    hide KindNamed;
    hide ParseLink;
    hide DecodeProjection;
    hide RawOf;
    hide StructureOf;
    hide Size;
    hide Attachable;
    StructureKept(p);
    StructureKeys(p);
    LinkParses(p, RawOf(p));
    KindNamesKnown(p.kind);
  }

  /**
   * What was composed parses back to itself exactly if the projection is one its kind may carry, and is refused
   * otherwise.
   */
  lemma ComposedParses(c: Coding, p: Payload)
    requires Compose(p).Done?
    ensures if ProjectionFits(c, p.kind, p.projection) then Parse(c, Compose(p).value) == Done(p)
            else Parse(c, Compose(p).value).Refused?
  {
    hide HashText;
    hide Compose;
    hide WellFormed;
    hide ParseFields;
    hide ProjectionFits;
    hide StructureOf;
    hide DecodeProjection;
    hide Size;
    ComposeAccepts(p);
    FieldsParse(c, p);
    DecodedFits(c, p.kind, RawOf(p));
    assert forall k :: k in p.projection ==> k in RawOf(p);
    ProjectionKept(p);
  }

  lemma LinkWellFormed(raw: Raw, kind: RecordKind, number: nat)
    requires number >= 1 && ParseLink(raw, kind, number).Done?
    ensures var (prev, auditPrev) := ParseLink(raw, kind, number).value;
            && (auditPrev.Some? ==> kind == IntegrityIncident && auditPrev.value < number)
            && (prev.None? <==> if auditPrev.Some? then auditPrev.value == 0 else number == 1)
            && (prev.Some? ==> HashText(prev.value))
            && Lookup(raw, PrevKey) == (if prev.None? then None else Some(Str(prev.value)))
            && Lookup(raw, AuditPrevKey) == (if auditPrev.None? then None else Some(Int(auditPrev.value)))
  {
    hide HashText;
  }

  /** The structural fields of a parsed marker. */
  lemma ParsedFields(c: Coding, raw: Raw)
    requires ParseFields(c, raw).Done?
    ensures var p := ParseFields(c, raw).value;
            && WellFormed(p) && p.key != "" && p.run != "" && p.head != ""
            && DecodeProjection(c, p.kind, raw) == Done(p.projection)
            && forall k :: Structural(k) ==> Lookup(raw, k) == Lookup(StructureOf(p), k)
  {
    hide HashText;
    hide KindName;
    hide KindNamed;
    hide ParseLink;
    hide DecodeProjection;
    hide StructureOf;
    var p := ParseFields(c, raw).value;
    LinkWellFormed(raw, p.kind, p.number);
    StructureKeys(p);
    KindNamesKnown(p.kind);
  }

  /** And what parses is exactly what would be composed: the two validators accept the same markers. */
  lemma ParsedComposes(c: Coding, raw: Raw)
    requires Parse(c, raw).Done?
    ensures WellFormed(Parse(c, raw).value)
    ensures ProjectionFits(c, Parse(c, raw).value.kind, Parse(c, raw).value.projection)
    ensures Compose(Parse(c, raw).value) == Done(raw)
  {
    hide HashText;
    hide Compose;
    hide WellFormed;
    hide ParseFields;
    hide ProjectionFits;
    hide StructureOf;
    hide DecodeProjection;
    hide Size;
    var p := Parse(c, raw).value;
    ParsedFields(c, raw);
    DecodedFits(c, p.kind, raw);
    FittingKeys(c, p.kind, p.projection);
    FittingScalars(c, p.kind, p.projection);
    StructureKept(p);
    StructureKeys(p);
    StructureScalars(p);
    assert RawOf(p) == raw by {
      forall k: Key ensures Lookup(raw, k) == Lookup(RawOf(p), k) {}
      SameLookups(raw, RawOf(p));
    }
    ComposeAccepts(p);
  }

  /** Structural fields are strings and integers, and so are fitting projections. */
  lemma StructureScalars(p: Payload)
    ensures forall k :: k in StructureOf(p) ==> !StructureOf(p)[k].OtherValue?
  {
    hide KindName;
  }

  lemma FittingScalars(c: Coding, kind: RecordKind, projection: Raw)
    requires ProjectionFits(c, kind, projection)
    ensures forall k :: k in projection ==> !projection[k].OtherValue?
  {
    hide HashText;
    hide RequiredKeys;
  }

  lemma SameLookups(a: Raw, b: Raw)
    requires forall k :: Lookup(a, k) == Lookup(b, k)
    ensures a == b
  {
    forall k ensures (k in a <==> k in b) && (k in a ==> a[k] == b[k]) {
      assert Lookup(a, k) == Lookup(b, k);
    }
  }
}
