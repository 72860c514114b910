/** Whether an interrupted record is reissued: the same key, the same body, and never a guess. */
module PendingPosts {
  import opened Vocabulary
  import opened MarkerText
  import opened RecordMarkers
  import MarkerReading

  /** An interrupted record as the checkpoint keeps it; the text is the body before its marker. */
  datatype Transaction = Transaction(binding: string, kind: RecordKind, number: nat, head: string, text: string,
                                     projection: Raw,
                                     bodyHash: Option<string>, auditPrev: Option<int>, auditPrevHash: Option<string>)

  /** A verified record, as far as the decision looks at it. */
  datatype Record = Record(number: nat, key: string, bodyHash: string)

  /** Hashing a body is left abstract. */
  datatype Format = Format(hash: string -> string, coding: Coding)

  datatype Doubt =
    | Occupied(key: string) | BadLink(why: Refusal) | AnchorMoved | AnchorHashMoved | HashNotRecorded
    | PredecessorMissing
    | NotComposable(why: Refusal) | BodyChanged | PostedBodyDiffers

  datatype Decision = AlreadyPosted(record: Record) | ReissueRequired(body: string, digest: string)
      | Undecided(doubt: Doubt)

  /** Later records of a number win, as in a dictionary built in order. */
  function ByNumber(records: seq<Record>): (m: map<nat, Record>)
    ensures forall n :: n in m ==> m[n].number == n && m[n] in records
  {
    if records == [] then map[] else
      var last := records[|records| - 1];
      ByNumber(records[..|records| - 1])[last.number := last]
  }

  /** The greatest number below n in the dictionary, 0 for none. */
  function LastBelow(known: map<nat, Record>, n: nat): (m: nat)
    ensures m == 0 || (m in known && m < n)
    ensures forall k :: k in known && k < n ==> k <= m
  {
    if n == 0 then 0 else if n - 1 in known then n - 1 else LastBelow(known, n - 1)
  }

  function Previous(t: Transaction, known: map<nat, Record>): Result {
    match t.auditPrev
    case Some(anchor) =>
      var stored := if t.auditPrevHash.None? then None else Some(Str(t.auditPrevHash.value));
      (match AuditLinkError(t.kind, t.number, Int(anchor), stored)
       case Some(why) => Doubtful(BadLink(why))
       case None =>
         if LastBelow(known, t.number) != anchor then Doubtful(AnchorMoved)
         else if anchor != 0 && Some(known[anchor].bodyHash) != t.auditPrevHash then Doubtful(AnchorHashMoved)
         else if t.bodyHash.None? then Doubtful(HashNotRecorded)
         else Link(t.auditPrevHash))
    case None =>
      if t.number >= 2 then
        if t.number - 1 in known then Link(Some(known[t.number - 1].bodyHash)) else Doubtful(PredecessorMissing)
      else Link(None)
  }

  datatype Result = Link(previous: Option<string>) | Doubtful(doubt: Doubt)

  function PayloadFor(t: Transaction, run: string, previous: Option<string>): Payload {
    Payload(t.binding, t.kind, run, t.head, t.number, previous,
            if t.auditPrev.Some? && t.auditPrev.value >= 0 then Some(t.auditPrev.value) else None, t.projection)
  }

  function Evaluate(f: Format, t: Transaction, run: string, records: seq<Record>): Decision {
    var known := ByNumber(records);
    if t.number in known && known[t.number].key != t.binding then Undecided(Occupied(known[t.number].key)) else
    match Previous(t, known)
    case Doubtful(doubt) => Undecided(doubt)
    case Link(previous) =>
      match Compose(PayloadFor(t, run, previous))
      case Refused(why) => Undecided(NotComposable(why))
      case Done(raw) =>
        var body := MarkerReading.Attach(t.text, raw);
        var digest := f.hash(body);
        if t.bodyHash.Some? && t.bodyHash.value != digest then Undecided(BodyChanged)
        else if t.number in known then
          if known[t.number].bodyHash != digest then Undecided(PostedBodyDiffers) else AlreadyPosted(known[t.number])
        else ReissueRequired(body, digest)
  }

  /** Two histories that agree on every record before this one. */
  ghost predicate SameBefore(a: seq<Record>, b: seq<Record>, n: nat) {
    forall k :: k < n ==>
      (k in ByNumber(a) <==> k in ByNumber(b)) && (k in ByNumber(a) ==> ByNumber(a)[k] == ByNumber(b)[k])
  }

  lemma SamePrevious(t: Transaction, a: map<nat, Record>, b: map<nat, Record>)
    requires forall k :: k < t.number ==> (k in a <==> k in b) && (k in a ==> a[k] == b[k])
    ensures Previous(t, a) == Previous(t, b)
  {
    hide AuditLinkError;
    var m, n := LastBelow(a, t.number), LastBelow(b, t.number);
    assert m == n;
  }

  /** Once the reissued body is posted and verified, the next decision is that it is there: no second copy. */
  lemma PostedIsRecognised(f: Format, t: Transaction, run: string, before: seq<Record>, now: seq<Record>)
    requires Evaluate(f, t, run, before).ReissueRequired?
    requires SameBefore(before, now, t.number) && t.number in ByNumber(now)
    requires ByNumber(now)[t.number].key == t.binding
        && ByNumber(now)[t.number].bodyHash == Evaluate(f, t, run, before).digest
    ensures Evaluate(f, t, run, now) == AlreadyPosted(ByNumber(now)[t.number])
  {
    hide Previous;
    hide Compose;
    SamePrevious(t, ByNumber(before), ByNumber(now));
  }

  /** A reissue is decided only where nothing with its number stands, and its body carries exactly the recorded hash. */
  lemma ReissueIsUnposted(f: Format, t: Transaction, run: string, records: seq<Record>)
    requires Evaluate(f, t, run, records).ReissueRequired?
    ensures t.number !in ByNumber(records)
    ensures Evaluate(f, t, run, records).digest == f.hash(Evaluate(f, t, run, records).body)
    ensures t.bodyHash.Some? ==> Evaluate(f, t, run, records).digest == t.bodyHash.value
  {
    hide Previous;
    hide Compose;
  }

  /** What counts as posted has the key and the very body that a reissue would post. */
  lemma PostedIsThisBody(f: Format, t: Transaction, run: string, before: seq<Record>, now: seq<Record>)
    requires Evaluate(f, t, run, before).ReissueRequired? && Evaluate(f, t, run, now).AlreadyPosted?
    requires SameBefore(before, now, t.number) || t.bodyHash.Some?
    ensures var r := Evaluate(f, t, run, now).record;
            r.number == t.number && r.key == t.binding && r.bodyHash == Evaluate(f, t, run, before).digest
  {
    hide Previous;
    hide Compose;
    if SameBefore(before, now, t.number) {
      SamePrevious(t, ByNumber(before), ByNumber(now));
    }
  }

  /** With the hash recorded, every reissue of a transaction posts one and the same body. */
  lemma ReissueBodyIsFixed(f: Format, t: Transaction, run: string, a: seq<Record>, b: seq<Record>)
    requires forall x, y :: f.hash(x) == f.hash(y) ==> x == y
    requires t.bodyHash.Some? || SameBefore(a, b, t.number)
    requires Evaluate(f, t, run, a).ReissueRequired? && Evaluate(f, t, run, b).ReissueRequired?
    ensures Evaluate(f, t, run, a) == Evaluate(f, t, run, b)
  {
    hide Previous;
    hide Compose;
    if t.bodyHash.Some? {
      ReissueIsUnposted(f, t, run, a);
      ReissueIsUnposted(f, t, run, b);
    } else {
      SamePrevious(t, ByNumber(a), ByNumber(b));
    }
  }

  // ---- when an interrupted record is reissued ----

  lemma {:induction false} KnownNumbers(records: seq<Record>, n: nat)
    ensures n in ByNumber(records) <==> exists r :: r in records && r.number == n
  {
    if records != [] {
      var init, last := records[..|records| - 1], records[|records| - 1];
      assert records == init + [last];
      KnownNumbers(init, n);
      if n in ByNumber(records) {
        assert ByNumber(records)[n] in records;
      }
    }
  }

  /** A verified record has the number of the transaction. */
  ghost predicate Contested(t: Transaction, records: seq<Record>) {
    exists r :: r in records && r.number == t.number
  }

  /** The link of a record that follows its predecessor; the first record has none. */
  ghost predicate LinksOn(t: Transaction, records: seq<Record>, link: Option<string>) {
    if t.number <= 1 then link.None?
    else exists r :: r in records && r.number == t.number - 1 && link == Some(r.bodyHash)
  }

  /** The body with this link can be composed, and is the one that was hashed before the interruption. */
  ghost predicate SameBody(f: Format, t: Transaction, run: string, link: Option<string>) {
    var composed := Compose(PayloadFor(t, run, link));
    composed.Done? && (t.bodyHash.None? || t.bodyHash.value == f.hash(MarkerReading.Attach(t.text, composed.value)))
  }

  /**
   * A record without an anchor is reissued only if its number is free, it links to a verified predecessor, and it has
   * the body hashed before; an interrupted first record needs no predecessor.
   */
  lemma ReissuedOnlyIf(f: Format, t: Transaction, run: string, records: seq<Record>) returns (link: Option<string>)
    requires t.auditPrev.None? && Evaluate(f, t, run, records).ReissueRequired?
    ensures !Contested(t, records) && LinksOn(t, records, link) && SameBody(f, t, run, link)
    ensures Compose(PayloadFor(t, run, link)).Done?
        && Evaluate(f, t, run, records).body == MarkerReading.Attach(t.text, Compose(PayloadFor(t, run, link)).value)
  {
    hide Compose;
    hide ByNumber;
    hide PayloadFor;
    hide AuditLinkError;
    hide MarkerReading.Attach;
    KnownNumbers(records, t.number);
    link := None;
    if t.number >= 2 {
      KnownNumbers(records, t.number - 1);
      link := Some(ByNumber(records)[t.number - 1].bodyHash);
    }
    assert Previous(t, ByNumber(records)) == Link(link);
    hide Previous;
  }

  /** And it is reissued whenever that holds of every link it could have. */
  lemma UncontestedIsReissued(f: Format, t: Transaction, run: string, records: seq<Record>)
    requires t.auditPrev.None? && !Contested(t, records)
    requires exists link :: LinksOn(t, records, link)
    requires forall link :: LinksOn(t, records, link) ==> SameBody(f, t, run, link)
    ensures Evaluate(f, t, run, records).ReissueRequired?
  {
    hide Compose;
    hide ByNumber;
    KnownNumbers(records, t.number);
    if t.number >= 2 {
      KnownNumbers(records, t.number - 1);
      assert LinksOn(t, records, Some(ByNumber(records)[t.number - 1].bodyHash));
    } else {
      assert LinksOn(t, records, None);
    }
  }

  /** An anchored record is reissued only behind its anchor: nothing stands between, and the anchor is unchanged. */
  lemma AnchoredOnlyIf(f: Format, t: Transaction, run: string, records: seq<Record>)
    requires t.auditPrev.Some? && Evaluate(f, t, run, records).ReissueRequired?
    ensures !Contested(t, records) && t.bodyHash.Some? && SameBody(f, t, run, t.auditPrevHash)
    ensures forall r :: r in records && r.number < t.number ==> r.number <= t.auditPrev.value
    ensures t.auditPrev.value != 0 ==>
              exists r :: r in records && r.number == t.auditPrev.value && Some(r.bodyHash) == t.auditPrevHash
  {
    hide Compose;
    hide ByNumber;
    hide PayloadFor;
    hide AuditLinkError;
    hide MarkerReading.Attach;
    hide LastBelow;
    KnownNumbers(records, t.number);
    assert Previous(t, ByNumber(records)) == Link(t.auditPrevHash);
    forall r | r in records && r.number < t.number ensures r.number <= t.auditPrev.value {
      KnownNumbers(records, r.number);
      assert r.number in ByNumber(records);
    }
  }
}
