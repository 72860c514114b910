/** What a chain of records in a conversation is, independent of the order in which comments are read. */
module RecordChain {
  import opened Vocabulary
  import opened Text
  import opened RecordMarkers

  /** An observed comment; its hash is taken of the whole body, marker included. */
  datatype Comment = Comment(id: string, created: string, updated: string, author: Option<string>, body: string)

  /** The marker of a body: none, one that is not in its regular form, or a regular one. */
  datatype Marker = Unmarked | Irregular(reason: string) | Marked(payload: Payload)

  /** The run, and the functions this model leaves abstract: marker extraction, body hash and the producer allowlist. */
  datatype Scheme = Scheme(run: string, parse: string -> Marker, hash: string -> string,
      trusted: Option<string> -> bool)

  /** A record the local checkpoint has confirmed. */
  datatype Known = Known(number: nat, id: string, bodyHash: string)

  /** Without a checkpoint the high-water mark is 0 and nothing is known. */
  datatype Checkpoint = Checkpoint(highWater: nat, known: seq<Known>)

  /** What one verification looks at: one comment per ID, the checkpoint, and the known IDs the probe found gone. */
  datatype View = View(scheme: Scheme, pool: map<string, Comment>, checkpoint: Checkpoint, missing: set<string>)

  ghost predicate ValidScheme(s: Scheme) {
    && (forall a, b :: s.hash(a) == s.hash(b) ==> a == b)
    && (forall body :: s.parse(body).Marked? ==> WellFormed(s.parse(body).payload))
  }

  ghost predicate ValidCheckpoint(c: Checkpoint) {
    && (forall k :: k in c.known ==> 1 <= k.number <= c.highWater)
    && (forall i, j :: 0 <= i < j < |c.known| ==>
          c.known[i].id != c.known[j].id && c.known[i].number != c.known[j].number)
  }

  ghost predicate Keyed(v: View) {
    forall id :: id in v.pool ==> v.pool[id].id == id
  }

  /** Every known ID is either in the window or was probed. */
  ghost predicate ValidView(v: View) {
    && ValidScheme(v.scheme)
    && ValidCheckpoint(v.checkpoint)
    && Keyed(v)
    && (forall k :: k in v.checkpoint.known ==> k.id in v.missing || k.id in v.pool)
  }

  // ---- classification ----

  predicate ForRun(s: Scheme, c: Comment) {
    s.parse(c.body).Marked? && s.parse(c.body).payload.run == s.run
  }

  predicate Candidate(s: Scheme, c: Comment) {
    ForRun(s, c) && s.trusted(c.author)
  }

  function PayloadOf(s: Scheme, c: Comment): Payload
    requires ForRun(s, c)
  {
    s.parse(c.body).payload
  }

  predicate InGroup(v: View, n: nat, id: string) {
    id in v.pool && Candidate(v.scheme, v.pool[id]) && PayloadOf(v.scheme, v.pool[id]).number == n
  }

  function Group(v: View, n: nat): set<string> {
    set id | id in v.pool && InGroup(v, n, id)
  }

  function Observed(v: View): set<nat> {
    set id | id in v.pool && Candidate(v.scheme, v.pool[id]) :: PayloadOf(v.scheme, v.pool[id]).number
  }

  lemma {:induction false} GreatestExists(ns: set<nat>) returns (m: nat)
    requires ns != {}
    ensures m in ns && forall n :: n in ns ==> n <= m
    decreases |ns|
  {
    var n :| n in ns;
    var rest := ns - {n};
    m := n;
    if rest != {} {
      var r := GreatestExists(rest);
      m := if r > n then r else n;
    }
    assert forall o :: o in ns ==> o == n || o in rest;
  }

  lemma GreatestIn(ns: set<nat>)
    requires ns != {}
    ensures exists m :: m in ns && forall n :: n in ns ==> n <= m
  {
    var m := GreatestExists(ns);
  }

  /** The greatest of a set of numbers, 0 for none. */
  ghost function MaxOf(ns: set<nat>): (m: nat)
    ensures forall n :: n in ns ==> n <= m
    ensures if ns == {} then m == 0 else m in ns
  {
    if ns == {} then 0 else
      GreatestIn(ns);
      var m :| m in ns && forall n :: n in ns ==> n <= m;
      m
  }

  lemma MaxUnique(ns: set<nat>, m: nat)
    requires (forall n :: n in ns ==> n <= m) && (if ns == {} then m == 0 else m in ns)
    ensures m == MaxOf(ns)
  {}

  // ---- the canonical comment of a sequence number ----

  function Signature(s: Scheme, c: Comment): (string, string)
    requires ForRun(s, c)
  {
    (PayloadOf(s, c).key, s.hash(c.body))
  }

  /** Two posts that claim one number with different keys or bodies. */
  ghost predicate Conflict(v: View, n: nat) {
    exists a, b :: InGroup(v, n, a) && InGroup(v, n, b)
        && Signature(v.scheme, v.pool[a]) != Signature(v.scheme, v.pool[b])
  }

  /** Creation time first; then the numeric order of IDs, that is length and then digits. */
  predicate Earlier(a: Comment, b: Comment) {
    || Less(a.created, b.created)
    || (a.created == b.created && (|a.id| < |b.id| || (|a.id| == |b.id| && Leq(a.id, b.id))))
  }

  ghost predicate IsChosen(v: View, n: nat, id: string) {
    InGroup(v, n, id) && forall other :: InGroup(v, n, other) ==> Earlier(v.pool[id], v.pool[other])
  }

  lemma EarlierTotal(a: Comment, b: Comment, c: Comment)
    ensures Earlier(a, b) || Earlier(b, a)
    ensures Earlier(a, b) && Earlier(b, a) ==> a.id == b.id
    ensures Earlier(a, b) && Earlier(b, c) ==> Earlier(a, c)
  {
    LessOrder(a.created, b.created, c.created);
    LessOrder(b.created, a.created, c.created);
    LeqTotal(a.id, b.id);
    if Leq(a.id, b.id) && Leq(b.id, a.id) { LeqAntisymmetric(a.id, b.id); }
    if Leq(a.id, b.id) && Leq(b.id, c.id) { LeqTransitive(a.id, b.id, c.id); }
  }

  lemma {:induction false} ChosenExists(v: View, n: nat, ids: set<string>) returns (least: string)
    requires ids != {} && ids <= Group(v, n)
    ensures least in ids && forall other :: other in ids ==> Earlier(v.pool[least], v.pool[other])
    decreases |ids|
  {
    hide Earlier;
    hide InGroup;
    var id :| id in ids;
    var rest := ids - {id};
    least := id;
    if rest != {} {
      var r := ChosenExists(v, n, rest);
      EarlierTotal(v.pool[id], v.pool[r], v.pool[r]);
      least := if Earlier(v.pool[id], v.pool[r]) then id else r;
      forall other | other in ids ensures Earlier(v.pool[least], v.pool[other]) {
        EarlierTotal(v.pool[least], v.pool[r], v.pool[other]);
        EarlierTotal(v.pool[least], v.pool[least], v.pool[least]);
        assert other == id || other in rest;
      }
    } else {
      EarlierTotal(v.pool[id], v.pool[id], v.pool[id]);
      assert forall other :: other in ids ==> other == id || other in rest;
    }
  }

  lemma ChosenUnique(v: View, n: nat, a: string, b: string)
    requires Keyed(v) && IsChosen(v, n, a) && IsChosen(v, n, b)
    ensures a == b
  {
    EarlierTotal(v.pool[a], v.pool[b], v.pool[b]);
  }

  lemma ChosenIn(v: View, n: nat)
    requires Group(v, n) != {}
    ensures exists id :: IsChosen(v, n, id)
  {
    var id := ChosenExists(v, n, Group(v, n));
    assert forall other :: InGroup(v, n, other) ==> other in Group(v, n);
    assert IsChosen(v, n, id);
  }

  ghost function Chosen(v: View, n: nat): (id: string)
    requires Group(v, n) != {}
    ensures IsChosen(v, n, id)
  {
    ChosenIn(v, n);
    var id :| IsChosen(v, n, id);
    id
  }

  ghost function CommentAt(v: View, n: nat): (c: Comment)
    requires Group(v, n) != {}
    ensures InGroup(v, n, Chosen(v, n)) && c == v.pool[Chosen(v, n)] && Candidate(v.scheme, c)
  {
    v.pool[Chosen(v, n)]
  }

  predicate Edited(c: Comment) {
    c.updated != c.created
  }

  /** The records whose claim stands: no conflicting post, and never edited. */
  ghost predicate Reliable(v: View, n: nat) {
    Group(v, n) != {} && !Conflict(v, n) && !Edited(CommentAt(v, n))
  }

  ghost function At(v: View, n: nat): Payload
    requires Group(v, n) != {}
  {
    PayloadOf(v.scheme, CommentAt(v, n))
  }

  // ---- known records and links ----

  ghost predicate TamperedKnown(v: View, k: Known) {
    k in v.checkpoint.known && k.id !in v.missing && k.id in v.pool && v.scheme.hash(v.pool[k.id].body) != k.bodyHash
  }

  ghost predicate Tampered(v: View, id: string) {
    exists k :: TamperedKnown(v, k) && k.id == id
  }

  ghost predicate HashBroken(v: View, n: nat, previous: int)
    requires Reliable(v, n)
  {
    previous >= 1 && Reliable(v, previous) && At(v, n).prev != Some(v.scheme.hash(CommentAt(v, previous).body))
  }

  /** The last record before n that an incident may be anchored to. */
  ghost function Anchor(v: View, n: nat): nat
    decreases n, 0
  {
    MaxOf(set m: nat | m < n && Reliable(v, m) && !Broken(v, m) && !Tampered(v, CommentAt(v, m).id) :: m)
  }

  ghost predicate Broken(v: View, n: nat)
    requires Reliable(v, n)
    decreases n, 1
  {
    match At(v, n).auditPrev
    case Some(a) => a != Anchor(v, n) || HashBroken(v, n, a)
    case None => HashBroken(v, n, n - 1)
  }

  ghost predicate Sound(v: View, n: nat) {
    Reliable(v, n) && !Broken(v, n) && !Tampered(v, CommentAt(v, n).id)
  }

  ghost function MaxSeq(v: View): nat {
    MaxOf(Observed(v))
  }

  ghost function Top(v: View): nat {
    if MaxSeq(v) >= v.checkpoint.highWater then MaxSeq(v) else v.checkpoint.highWater
  }

  // ---- findings ----

  datatype Finding =
    | IrregularMarker(id: string, reason: string)
    | BadActor(id: string, number: nat)
    | SeqConflict(number: nat, ids: set<string>)
    | EditedRecord(id: string, number: nat)
    | Gap(number: nat, highWater: nat)
    | MissingRecord(id: string, number: nat)
    | TamperedRecord(id: string, number: nat, expected: string, observed: string)
    | BadAnchorLink(number: nat, expectedAnchor: nat, observedAnchor: nat)
    | BadPrevLink(number: nat, expectedHash: string, observedHash: Option<string>)

  /** Which findings a verification reports. */
  ghost predicate Reported(v: View, f: Finding) {
    match f
    case IrregularMarker(id, reason) => id in v.pool && v.scheme.parse(v.pool[id].body) == Irregular(reason)
    case BadActor(id, n) =>
      && id in v.pool && ForRun(v.scheme, v.pool[id]) && !v.scheme.trusted(v.pool[id].author)
      && PayloadOf(v.scheme, v.pool[id]).number == n
    case SeqConflict(n, ids) => Conflict(v, n) && ids == Group(v, n)
    case EditedRecord(id, n) => Group(v, n) != {} && !Conflict(v, n) && id == Chosen(v, n) && Edited(CommentAt(v, n))
    case Gap(n, highWater) => 1 <= n <= Top(v) && Group(v, n) == {} && highWater == v.checkpoint.highWater
    case MissingRecord(id, n) => id in v.missing && exists k :: k in v.checkpoint.known && k.id == id && k.number == n
    case TamperedRecord(id, n, expected, observed) =>
      TamperedKnown(v, Known(n, id, expected)) && observed == v.scheme.hash(v.pool[id].body)
    case BadAnchorLink(n, expected, observed) =>
      Reliable(v, n) && At(v, n).auditPrev == Some(observed) && expected == Anchor(v, n) != observed
    case BadPrevLink(n, expected, observed) =>
      && Reliable(v, n) && observed == At(v, n).prev
      && var previous := if At(v, n).auditPrev.None? then n - 1 else At(v, n).auditPrev.value;
      && (At(v, n).auditPrev.Some? ==> previous == Anchor(v, n))
      && HashBroken(v, n, previous) && expected == v.scheme.hash(CommentAt(v, previous).body)
  }

  ghost predicate Intact(v: View) {
    forall f :: !Reported(v, f)
  }

  // ---- what an intact chain is ----

  /** A record whose claim stands and that names its predecessor: by number, and by the hash of its body. */
  ghost predicate Linked(v: View, n: nat)
    requires n >= 1
  {
    && Reliable(v, n)
    && (At(v, n).auditPrev.Some? ==> At(v, n).auditPrev.value == n - 1)
    && (if n == 1 then At(v, n).prev.None?
        else Reliable(v, n - 1) && At(v, n).prev == Some(v.scheme.hash(CommentAt(v, n - 1).body)))
  }

  /** A gapless sequence of unedited records, each linked to the one before, that covers the checkpoint. */
  ghost predicate WholeChain(v: View) {
    && (forall id :: id in v.pool ==> !v.scheme.parse(v.pool[id].body).Irregular?)
    && (forall id :: id in v.pool && ForRun(v.scheme, v.pool[id]) ==> v.scheme.trusted(v.pool[id].author))
    && MaxSeq(v) >= v.checkpoint.highWater
    && (forall n :: 1 <= n <= MaxSeq(v) ==> Linked(v, n))
    && (forall k :: k in v.checkpoint.known ==>
          k.id in v.pool && k.id !in v.missing && v.scheme.hash(v.pool[k.id].body) == k.bodyHash)
  }

  lemma ObservedGroups(v: View, n: nat)
    ensures n in Observed(v) <==> Group(v, n) != {}
  {
    if n in Observed(v) {
      var id :| id in v.pool && Candidate(v.scheme, v.pool[id]) && PayloadOf(v.scheme, v.pool[id]).number == n;
      assert id in Group(v, n);
    }
    if Group(v, n) != {} {
      var id :| id in Group(v, n);
      assert id in v.pool && Candidate(v.scheme, v.pool[id]) && PayloadOf(v.scheme, v.pool[id]).number == n;
    }
  }

  lemma GroupsBounded(v: View, n: nat)
    requires ValidView(v) && Group(v, n) != {}
    ensures 1 <= n <= MaxSeq(v) && WellFormed(At(v, n)) && At(v, n).number == n
  {
    hide Observed;
    ObservedGroups(v, n);
  }

  lemma IntactReliable(v: View, n: nat)
    requires ValidView(v) && Intact(v) && 1 <= n <= Top(v)
    ensures Reliable(v, n)
  {
    hide Candidate;
    assert !Reported(v, Gap(n, v.checkpoint.highWater));
    assert !Reported(v, SeqConflict(n, Group(v, n)));
    assert !Reported(v, EditedRecord(Chosen(v, n), n));
  }

  lemma IntactUntampered(v: View, id: string)
    requires ValidView(v) && Intact(v)
    ensures !Tampered(v, id)
  {
    if Tampered(v, id) {
      var k :| TamperedKnown(v, k) && k.id == id;
      assert Reported(v, TamperedRecord(k.id, k.number, k.bodyHash, v.scheme.hash(v.pool[k.id].body)));
    }
  }

  lemma IntactUnbroken(v: View, n: nat)
    requires ValidView(v) && Intact(v) && Reliable(v, n)
    ensures !Broken(v, n)
  {
    hide Conflict;
    hide Edited;
    hide InGroup;
    hide Anchor;
    hide ValidView;
    match At(v, n).auditPrev
    case Some(a) =>
      assert !Reported(v, BadAnchorLink(n, Anchor(v, n), a));
      assert HashBroken(v, n, a) && a == Anchor(v, n) ==>
               Reported(v, BadPrevLink(n, v.scheme.hash(CommentAt(v, a).body), At(v, n).prev));
    case None =>
      assert HashBroken(v, n, n - 1) ==>
               Reported(v, BadPrevLink(n, v.scheme.hash(CommentAt(v, n - 1).body), At(v, n).prev));
  }

  /** In an intact chain the anchor of any record is simply the record before it. */
  lemma IntactAnchor(v: View, n: nat)
    requires ValidView(v) && Intact(v) && 1 <= n <= MaxSeq(v)
    ensures Anchor(v, n) == n - 1
  {
    hide Conflict;
    hide Edited;
    hide InGroup;
    hide Broken;
    hide Tampered;
    hide Intact;
    hide ValidView;
    var sound := set m: nat | m < n && Reliable(v, m) && !Broken(v, m) && !Tampered(v, CommentAt(v, m).id) :: m;
    if n > 1 {
      IntactReliable(v, n - 1);
      IntactUnbroken(v, n - 1);
      IntactUntampered(v, CommentAt(v, n - 1).id);
      assert n - 1 in sound;
    } else if sound != {} {
      var m :| m in sound;
      GroupsBounded(v, m);
    }
  }

  lemma IntactLinked(v: View, n: nat)
    requires ValidView(v) && Intact(v) && 1 <= n <= MaxSeq(v)
    ensures Linked(v, n)
  {
    hide Conflict;
    hide Edited;
    hide InGroup;
    hide Anchor;
    hide Intact;
    hide ValidView;
    IntactReliable(v, n);
    IntactUnbroken(v, n);
    IntactAnchor(v, n);
    GroupsBounded(v, n);
    if n > 1 { IntactReliable(v, n - 1); }
  }

  lemma IntactCovers(v: View)
    requires ValidView(v) && Intact(v)
    ensures MaxSeq(v) >= v.checkpoint.highWater
    ensures forall k :: k in v.checkpoint.known ==>
              k.id in v.pool && k.id !in v.missing && v.scheme.hash(v.pool[k.id].body) == k.bodyHash
  {
    hide Conflict;
    hide Edited;
    hide InGroup;
    if MaxSeq(v) < v.checkpoint.highWater {
      IntactReliable(v, v.checkpoint.highWater);
      GroupsBounded(v, v.checkpoint.highWater);
    }
    forall k | k in v.checkpoint.known
      ensures k.id in v.pool && k.id !in v.missing && v.scheme.hash(v.pool[k.id].body) == k.bodyHash
    {
      assert !Reported(v, MissingRecord(k.id, k.number));
      IntactUntampered(v, k.id);
      assert !TamperedKnown(v, k);
    }
  }

  lemma IntactRegular(v: View)
    requires ValidView(v) && Intact(v)
    ensures forall id :: id in v.pool ==> !v.scheme.parse(v.pool[id].body).Irregular?
    ensures forall id :: id in v.pool && ForRun(v.scheme, v.pool[id]) ==> v.scheme.trusted(v.pool[id].author)
  {
    forall id | id in v.pool ensures !v.scheme.parse(v.pool[id].body).Irregular? {
      if v.scheme.parse(v.pool[id].body).Irregular? {
        assert Reported(v, IrregularMarker(id, v.scheme.parse(v.pool[id].body).reason));
      }
    }
    forall id | id in v.pool && ForRun(v.scheme, v.pool[id]) ensures v.scheme.trusted(v.pool[id].author) {
      assert !Reported(v, BadActor(id, PayloadOf(v.scheme, v.pool[id]).number));
    }
  }

  lemma WholeLinked(v: View, n: nat)
    requires ValidView(v) && WholeChain(v) && (1 <= n <= MaxSeq(v) || Group(v, n) != {})
    ensures 1 <= n <= MaxSeq(v) && Linked(v, n)
  {
    hide ValidView;
    hide Linked;
    if Group(v, n) != {} { GroupsBounded(v, n); }
  }

  lemma WholeUntampered(v: View, id: string)
    requires WholeChain(v)
    ensures !Tampered(v, id)
  {
    hide Linked;
  }

  lemma LinkedUnbroken(v: View, n: nat)
    requires n >= 1 && Linked(v, n) && Anchor(v, n) == n - 1
    ensures !Broken(v, n)
  {
    hide Anchor;
    hide Conflict;
    hide Edited;
    hide InGroup;
  }

  lemma WholeAnchor(v: View, n: nat)
    requires ValidView(v) && WholeChain(v) && 1 <= n <= MaxSeq(v)
    ensures Anchor(v, n) == n - 1
    decreases n
  {
    hide ValidView;
    hide WholeChain;
    hide Conflict;
    hide Edited;
    hide InGroup;
    hide Tampered;
    hide Broken;
    var sound := set m: nat | m < n && Reliable(v, m) && !Broken(v, m) && !Tampered(v, CommentAt(v, m).id) :: m;
    if n > 1 {
      WholeLinked(v, n - 1);
      WholeAnchor(v, n - 1);
      LinkedUnbroken(v, n - 1);
      WholeUntampered(v, CommentAt(v, n - 1).id);
      assert n - 1 in sound;
    } else if sound != {} {
      var m :| m in sound;
      GroupsBounded(v, m);
    }
  }

  lemma WholeIsIntact(v: View)
    requires ValidView(v) && WholeChain(v)
    ensures Intact(v)
  {
    forall f ensures !Reported(v, f) {
      WholeReportsNothing(v, f);
    }
  }

  lemma WholeReportsNothing(v: View, f: Finding)
    requires ValidView(v) && WholeChain(v)
    ensures !Reported(v, f)
  {
    hide ValidView;
    hide Linked;
    hide Conflict;
    hide InGroup;
    hide Group;
    match f
    case SeqConflict(n, _) => WholeUnconflicted(v, n);
    case EditedRecord(_, n) => if Group(v, n) != {} { WholeUnedited(v, n); }
    case Gap(n, _) =>
      if 1 <= n <= Top(v) {
        WholeLinked(v, n);
        LinkedReliable(v, n);
      }
    case BadAnchorLink(n, _, _) => if Reliable(v, n) { WholeLinksStand(v, n); }
    case BadPrevLink(n, _, _) => if Reliable(v, n) { WholeLinksStand(v, n); }
    case _ =>
  }

  lemma LinkedReliable(v: View, n: nat)
    requires n >= 1 && Linked(v, n)
    ensures Reliable(v, n)
  {}

  lemma WholeUnconflicted(v: View, n: nat)
    requires ValidView(v) && WholeChain(v)
    ensures !Conflict(v, n)
  {
    hide ValidView;
    hide WholeChain;
    if Conflict(v, n) {
      ConflictGroup(v, n);
      WholeLinked(v, n);
    }
  }

  lemma WholeUnedited(v: View, n: nat)
    requires ValidView(v) && WholeChain(v) && Group(v, n) != {}
    ensures !Edited(CommentAt(v, n))
  {
    hide ValidView;
    hide WholeChain;
    WholeLinked(v, n);
  }

  lemma WholeLinksStand(v: View, n: nat)
    requires ValidView(v) && WholeChain(v) && Reliable(v, n)
    ensures At(v, n).auditPrev.Some? ==> At(v, n).auditPrev.value == Anchor(v, n) == n - 1
    ensures !HashBroken(v, n, n - 1)
  {
    hide ValidView;
    hide WholeChain;
    hide Conflict;
    hide Edited;
    hide InGroup;
    hide Anchor;
    WholeLinked(v, n);
    WholeAnchor(v, n);
  }

  lemma ConflictGroup(v: View, n: nat)
    requires Conflict(v, n)
    ensures Group(v, n) != {}
  {
    var a :| InGroup(v, n, a);
    assert a in Group(v, n);
  }

  /** No finding at all means exactly a gapless, unedited, linked sequence that covers the checkpoint. */
  lemma IntactMeaning(v: View)
    requires ValidView(v)
    ensures Intact(v) <==> WholeChain(v)
  {
    hide ValidView;
    hide Reported;
    hide Linked;
    if Intact(v) {
      IntactCovers(v);
      IntactRegular(v);
      forall n | 1 <= n <= MaxSeq(v) ensures Linked(v, n) {
        IntactLinked(v, n);
      }
    }
    if WholeChain(v) {
      WholeIsIntact(v);
    }
  }

  // ---- what the hash chain secures ----

  /** Two intact chains that agree on the body hash of one record agree on the bodies of every earlier one. */
  lemma {:induction false} AgreementReachesBack(v: View, w: View, n: nat, m: nat)
    requires ValidView(v) && ValidView(w) && Intact(v) && Intact(w) && v.scheme == w.scheme
    requires 1 <= m <= n <= MaxSeq(v) && n <= MaxSeq(w)
    requires Reliable(v, n) && Reliable(w, n)
    requires v.scheme.hash(CommentAt(v, n).body) == w.scheme.hash(CommentAt(w, n).body)
    ensures Reliable(v, m) && Reliable(w, m) && CommentAt(v, m).body == CommentAt(w, m).body
    decreases n - m
  {
    hide Intact;
    hide Conflict;
    hide Edited;
    hide InGroup;
    if m < n {
      IntactLinked(v, n);
      IntactLinked(w, n);
      assert At(v, n) == At(w, n);
      AgreementReachesBack(v, w, n - 1, m);
    }
  }

  /** The same conversation with every record above k gone. */
  function Truncated(v: View, k: nat): View {
    v.(pool := map id | id in v.pool
                        && !(Candidate(v.scheme, v.pool[id]) && PayloadOf(v.scheme, v.pool[id]).number > k)
                     :: v.pool[id])
  }

  lemma TruncatedGroup(v: View, k: nat, n: nat)
    ensures Group(Truncated(v, k), n) == if n <= k then Group(v, n) else {}
    ensures n <= k ==> forall id :: InGroup(Truncated(v, k), n, id) <==> InGroup(v, n, id)
  {
    hide Candidate;
  }

  lemma TruncatedAt(v: View, k: nat, n: nat)
    requires ValidView(v) && n <= k && Reliable(v, n)
    ensures Reliable(Truncated(v, k), n) && CommentAt(Truncated(v, k), n) == CommentAt(v, n)
  {
    hide Group;
    hide Candidate;
    hide Earlier;
    hide Signature;
    TruncatedGroup(v, k, n);
    var w := Truncated(v, k);
    assert InGroup(w, n, Chosen(v, n));
    assert IsChosen(w, n, Chosen(v, n));
    ChosenUnique(w, n, Chosen(v, n), Chosen(w, n));
  }

  ghost predicate KnownKept(v: View, k: nat) {
    forall known :: known in v.checkpoint.known ==> known.id in Truncated(v, k).pool
  }

  lemma TruncatedValid(v: View, k: nat)
    requires ValidView(v) && KnownKept(v, k)
    ensures ValidView(Truncated(v, k)) && Truncated(v, k).checkpoint == v.checkpoint
  {
    hide ValidScheme;
    hide ValidCheckpoint;
  }

  /** What a truncated chain still says. */
  lemma TruncatedWhole(v: View, k: nat)
    requires ValidView(v) && KnownKept(v, k) && WholeChain(v) && v.checkpoint.highWater <= k <= MaxSeq(v)
    ensures WholeChain(Truncated(v, k)) && MaxSeq(Truncated(v, k)) == k
  {
    hide ValidView;
    hide Reliable;
    hide InGroup;
    hide Candidate;
    hide Tampered;
    var w := Truncated(v, k);
    TruncatedMax(v, k);
    forall n | 1 <= n <= k ensures Linked(w, n) {
      assert Linked(v, n);
      TruncatedLinked(v, k, n);
    }
  }

  lemma TruncatedLinked(v: View, k: nat, n: nat)
    requires ValidView(v) && 1 <= n <= k && Linked(v, n)
    ensures Linked(Truncated(v, k), n)
  {
    hide ValidView;
    hide Conflict;
    hide Edited;
    hide InGroup;
    TruncatedAt(v, k, n);
    if n > 1 { TruncatedAt(v, k, n - 1); }
  }

  lemma TruncatedMax(v: View, k: nat)
    requires ValidView(v) && WholeChain(v) && k <= MaxSeq(v)
    ensures MaxSeq(Truncated(v, k)) == k
  {
    hide ValidView;
    hide WholeChain;
    hide Linked;
    hide InGroup;
    hide Group;
    hide Observed;
    var w := Truncated(v, k);
    var top := MaxSeq(w);
    ObservedGroups(w, top);
    TruncatedGroup(v, k, top);
    ObservedGroups(w, k);
    TruncatedGroup(v, k, k);
    if k > 0 {
      WholeLinked(v, k);
      LinkedReliable(v, k);
    }
  }

  /**
   * The boundary of the guarantee: losing every record above k goes unnoticed exactly when k is not below the
   * high-water mark, and then the verification still sees the first k records as they were.
   */
  lemma TruncationBoundary(v: View, k: nat)
    requires ValidView(v) && Intact(v) && k <= MaxSeq(v)
    requires KnownKept(v, k)
    ensures Intact(Truncated(v, k)) <==> k >= v.checkpoint.highWater
    ensures Intact(Truncated(v, k)) ==> MaxSeq(Truncated(v, k)) == k
    ensures forall n :: 1 <= n <= k ==>
              Reliable(v, n) && Reliable(Truncated(v, k), n) && CommentAt(Truncated(v, k), n) == CommentAt(v, n)
  {
    hide ValidView;
    hide Intact;
    hide WholeChain;
    hide Conflict;
    hide Edited;
    hide InGroup;
    hide Truncated;
    var w := Truncated(v, k);
    TruncatedValid(v, k);
    IntactMeaning(v);
    IntactMeaning(w);
    TruncatedMax(v, k);
    if k >= v.checkpoint.highWater {
      TruncatedWhole(v, k);
    } else if Intact(w) {
      IntactCovers(w);
    }
    forall n | 1 <= n <= k
      ensures Reliable(v, n) && Reliable(w, n) && CommentAt(w, n) == CommentAt(v, n)
    {
      IntactReliable(v, n);
      TruncatedAt(v, k, n);
    }
  }
}
