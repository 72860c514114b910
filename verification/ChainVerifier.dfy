/** The verification of a record chain as it is computed, stage by stage, against what a chain is. */
module ChainVerifier {
  import opened Vocabulary
  import opened Text
  import opened Violations
  import opened RecordMarkers
  import opened RecordChain
  import opened Redelivery
  import opened Evidence

  // ---- classification of comments, and the actor check ----

  predicate ClassifyFinding(f: Finding) {
    f.IrregularMarker? || f.BadActor?
  }

  method Classify(v: View, order: seq<string>) returns (candidates: seq<string>, found: seq<Finding>)
    requires forall id :: id in order <==> id in v.pool
    ensures forall id :: id in candidates <==> id in v.pool && Candidate(v.scheme, v.pool[id])
    ensures forall f :: f in found <==> ClassifyFinding(f) && Reported(v, f)
  {
    candidates, found := [], [];
    for i := 0 to |order|
      invariant forall id :: id in candidates <==> id in order[..i] && Candidate(v.scheme, v.pool[id])
      invariant forall f :: f in found <==>
        (match f
         case IrregularMarker(id, _) => id in order[..i] && Reported(v, f)
         case BadActor(id, _) => id in order[..i] && Reported(v, f)
         case _ => false)
    {
      var id := order[i];
      assert order[..i + 1] == order[..i] + [id];
      assert id in order;
      var c := v.pool[id];
      match v.scheme.parse(c.body) {
        case Unmarked =>
        case Irregular(reason) => found := found + [IrregularMarker(id, reason)];
        case Marked(payload) =>
          if payload.run == v.scheme.run {
            if !v.scheme.trusted(c.author) {
              found := found + [BadActor(id, payload.number)];
            } else {
              candidates := candidates + [id];
            }
          }
      }
    }
    assert order[..|order|] == order;
  }

  // ---- the candidates of each sequence number ----

  ghost predicate Grouped(v: View, groups: map<nat, seq<string>>) {
    && (forall n: nat :: n in groups <==> Group(v, n) != {})
    && (forall n: nat, id :: n in groups ==> (id in groups[n] <==> InGroup(v, n, id)))
  }

  method GroupByNumber(v: View, candidates: seq<string>) returns (groups: map<nat, seq<string>>)
    requires forall id :: id in candidates <==> id in v.pool && Candidate(v.scheme, v.pool[id])
    ensures Grouped(v, groups)
  {
    groups := map[];
    for i := 0 to |candidates|
      invariant forall n :: n in groups ==> groups[n] != []
      invariant forall n, id :: n in groups && id in groups[n] ==> id in candidates[..i] && InGroup(v, n, id)
      invariant forall n, id :: id in candidates[..i] && InGroup(v, n, id) ==> n in groups && id in groups[n]
    {
      var id := candidates[i];
      assert candidates[..i + 1] == candidates[..i] + [id];
      assert id in candidates;
      var n := PayloadOf(v.scheme, v.pool[id]).number;
      groups := groups[n := (if n in groups then groups[n] else []) + [id]];
    }
    assert candidates[..|candidates|] == candidates;
    forall n ensures n in groups <==> Group(v, n) != {} {
      if n in groups { assert groups[n][0] in Group(v, n); }
      if Group(v, n) != {} {
        var id :| id in Group(v, n);
        assert id in candidates;
      }
    }
  }

  /** More than one signature among the posts of a number. */
  method HasConflict(v: View, n: nat, group: seq<string>) returns (conflict: bool)
    requires forall id :: id in group <==> InGroup(v, n, id)
    ensures conflict <==> Conflict(v, n)
  {
    var signatures := set id | id in group :: Signature(v.scheme, v.pool[id]);
    conflict := |signatures| > 1;
    if Conflict(v, n) {
      var a, b :| InGroup(v, n, a) && InGroup(v, n, b)
          && Signature(v.scheme, v.pool[a]) != Signature(v.scheme, v.pool[b]);
      var x, y := Signature(v.scheme, v.pool[a]), Signature(v.scheme, v.pool[b]);
      assert a in group && b in group && {x, y} <= signatures;
      assert |signatures - {x}| >= |{y}| by { CardinalityOfSubset({y}, signatures - {x}); }
    } else {
      assert forall x, y :: x in signatures && y in signatures ==> x == y;
      AllEqualIsSmall(signatures);
    }
  }

  lemma AllEqualIsSmall<T>(s: set<T>)
    requires forall x, y :: x in s && y in s ==> x == y
    ensures |s| <= 1
  {
    if s != {} {
      var x :| x in s;
      assert s == {x};
    }
  }

  lemma {:induction false} CardinalityOfSubset<T>(a: set<T>, b: set<T>)
    requires a <= b
    ensures |a| <= |b|
    decreases a
  {
    if a != {} {
      var x :| x in a;
      CardinalityOfSubset(a - {x}, b - {x});
    }
  }

  /** The earliest post of a number. */
  method Earliest(v: View, n: nat, group: seq<string>) returns (least: string)
    requires group != [] && forall id :: id in group <==> InGroup(v, n, id)
    ensures IsChosen(v, n, least)
  {
    least := group[0];
    assert forall id :: id in group ==> id in v.pool;
    assert least in group;
    EarlierTotal(v.pool[least], v.pool[least], v.pool[least]);
    for i := 1 to |group|
      invariant least in group
      invariant forall id :: id in group[..i] ==> id in v.pool && Earlier(v.pool[least], v.pool[id])
    {
      var id := group[i];
      assert id in group && forall other :: other in group[..i] ==> other in group;
      assert group[..i + 1] == group[..i] + [id];
      EarlierTotal(v.pool[least], v.pool[id], v.pool[id]);
      EarlierTotal(v.pool[id], v.pool[id], v.pool[id]);
      if !Earlier(v.pool[least], v.pool[id]) {
        forall other | other in group[..i] ensures Earlier(v.pool[id], v.pool[other]) {
          EarlierTotal(v.pool[id], v.pool[least], v.pool[other]);
        }
        least := id;
      }
    }
    assert group[..|group|] == group;
  }

  /** The greatest number any candidate claims, 0 without candidates. */
  method HighestNumber(v: View, candidates: seq<string>) returns (maxSeq: nat)
    requires forall id :: id in candidates <==> id in v.pool && Candidate(v.scheme, v.pool[id])
    ensures maxSeq == MaxSeq(v)
  {
    maxSeq := 0;
    ghost var seen: set<nat> := {};
    for i := 0 to |candidates|
      invariant seen == set id | id in candidates[..i] && id in v.pool && Candidate(v.scheme, v.pool[id]) ::
                              PayloadOf(v.scheme, v.pool[id]).number
      invariant (forall n :: n in seen ==> n <= maxSeq) && (if seen == {} then maxSeq == 0 else maxSeq in seen)
    {
      var id := candidates[i];
      assert candidates[..i + 1] == candidates[..i] + [id];
      assert id in candidates;
      var n := PayloadOf(v.scheme, v.pool[id]).number;
      seen := seen + {n};
      if n > maxSeq { maxSeq := n; }
    }
    assert candidates[..|candidates|] == candidates;
    assert seen == Observed(v);
    MaxUnique(seen, maxSeq);
  }

  // ---- one canonical comment for each number, unless its posts disagree or it was edited ----

  ghost predicate Canonicals(v: View, canonical: map<nat, string>) {
    forall n: nat :: (n in canonical <==> Group(v, n) != {} && !Conflict(v, n))
        && (n in canonical ==> canonical[n] == Chosen(v, n))
  }

  ghost predicate Reliables(v: View, reliable: map<nat, string>) {
    forall n: nat :: (n in reliable <==> Reliable(v, n)) && (n in reliable ==> reliable[n] == Chosen(v, n))
  }

  method SelectCanonical(v: View, groups: map<nat, seq<string>>, maxSeq: nat)
      returns (canonical: map<nat, string>, found: seq<Finding>)
    requires ValidView(v) && Grouped(v, groups) && maxSeq == MaxSeq(v)
    ensures Canonicals(v, canonical)
    ensures forall f :: f in found <==> f.SeqConflict? && Reported(v, f)
  {
    hide ValidScheme;
    hide ValidCheckpoint;
    hide Conflict;
    hide Group;
    hide InGroup;
    hide IsChosen;
    hide Reported;
    ClaimsBounded(v);
    canonical, found := map[], [];
    for n := 1 to maxSeq + 1
      invariant forall m :: m in canonical <==> 1 <= m < n && Group(v, m) != {} && !Conflict(v, m)
      invariant forall m :: m in canonical ==> canonical[m] == Chosen(v, m)
      invariant forall f :: f in found <==> f.SeqConflict? && f.number < n && Reported(v, f)
    {
      ConflictFindings(v, n);
      if n in groups {
        var conflict := HasConflict(v, n, groups[n]);
        GroupListed(v, n, groups[n]);
        if conflict {
          found := found + [SeqConflict(n, set id | id in groups[n])];
        } else {
          var least := Earliest(v, n, groups[n]);
          ChosenUnique(v, n, least, Chosen(v, n));
          canonical := canonical[n := least];
        }
      }
    }
  }

  /** Nothing is claimed outside 1 to the greatest number, and only claimed numbers can be in conflict. */
  lemma ClaimsBounded(v: View)
    requires ValidView(v)
    ensures forall n: nat :: Group(v, n) != {} ==> 1 <= n <= MaxSeq(v)
    ensures forall n: nat :: Conflict(v, n) ==> Group(v, n) != {}
    ensures forall f: Finding :: f.SeqConflict? && Reported(v, f) ==> Conflict(v, f.number)
  {
    hide ValidView;
    hide Conflict;
    hide Group;
    forall n: nat | Group(v, n) != {} ensures 1 <= n <= MaxSeq(v) { GroupsBounded(v, n); }
    forall n: nat | Conflict(v, n) ensures Group(v, n) != {} { ConflictGroup(v, n); }
  }

  /** The one finding about a conflict of a number. */
  lemma ConflictFindings(v: View, n: nat)
    ensures forall f: Finding :: f.SeqConflict? && f.number == n ==>
              (Reported(v, f) <==> Conflict(v, n) && f == SeqConflict(n, Group(v, n)))
  {
    hide Conflict;
    hide Group;
  }

  lemma GroupListed(v: View, n: nat, group: seq<string>)
    requires Group(v, n) != {} && forall id :: id in group <==> InGroup(v, n, id)
    ensures group != [] && (set id | id in group) == Group(v, n)
  {
    var id :| id in Group(v, n);
    assert id in group;
  }

  method DropEdited(v: View, canonical: map<nat, string>, maxSeq: nat)
      returns (reliable: map<nat, string>, found: seq<Finding>)
    requires ValidView(v) && Canonicals(v, canonical) && maxSeq == MaxSeq(v)
    ensures Reliables(v, reliable)
    ensures forall f :: f in found <==> f.EditedRecord? && Reported(v, f)
  {
    hide ValidScheme;
    hide ValidCheckpoint;
    hide Conflict;
    hide Candidate;
    hide Earlier;
    hide Group;
    reliable, found := map[], [];
    for n := 1 to maxSeq + 1
      invariant forall m :: m in reliable <==> 1 <= m < n && Reliable(v, m)
      invariant forall m :: m in reliable ==> reliable[m] == Chosen(v, m)
      invariant forall f :: f in found <==> f.EditedRecord? && 1 <= f.number < n && Reported(v, f)
    {
      if n in canonical {
        if Edited(v.pool[canonical[n]]) {
          found := found + [EditedRecord(canonical[n], n)];
        } else {
          reliable := reliable[n := canonical[n]];
        }
      }
    }
    forall n: nat | Group(v, n) != {} ensures 1 <= n <= maxSeq { GroupsBounded(v, n); }
  }

  // ---- gaps ----

  method FindGaps(v: View, groups: map<nat, seq<string>>, maxSeq: nat) returns (found: seq<Finding>)
    requires Grouped(v, groups) && maxSeq == MaxSeq(v)
    ensures forall f :: f in found <==> f.Gap? && Reported(v, f)
  {
    hide Group;
    found := [];
    var top := if maxSeq >= v.checkpoint.highWater then maxSeq else v.checkpoint.highWater;
    for n := 1 to top + 1
      invariant forall f :: f in found <==> f.Gap? && f.number < n && Reported(v, f)
    {
      if n !in groups {
        found := found + [Gap(n, v.checkpoint.highWater)];
      }
    }
  }

  // ---- known records: gone, or with another body ----

  method CheckKnown(v: View) returns (tampered: set<string>, found: seq<Finding>)
    requires ValidView(v)
    ensures forall id :: id in tampered <==> Tampered(v, id)
    ensures forall f :: f in found <==> (f.MissingRecord? || f.TamperedRecord?) && Reported(v, f)
  {
    tampered, found := {}, [];
    var known := v.checkpoint.known;
    for i := 0 to |known|
      invariant forall id :: id in tampered <==> exists k :: k in known[..i] && TamperedKnown(v, k) && k.id == id
      invariant forall f :: f in found <==>
        (match f
         case MissingRecord(id, n) => id in v.missing && exists k :: k in known[..i] && k.id == id && k.number == n
         case TamperedRecord(id, n, expected, observed) => Known(n, id, expected) in known[..i] && Reported(v, f)
         case _ => false)
    {
      var k := known[i];
      assert known[..i + 1] == known[..i] + [k];
      assert k in known;
      if k.id in v.missing {
        found := found + [MissingRecord(k.id, k.number)];
      } else if v.scheme.hash(v.pool[k.id].body) != k.bodyHash {
        tampered := tampered + {k.id};
        found := found + [TamperedRecord(k.id, k.number, k.bodyHash, v.scheme.hash(v.pool[k.id].body))];
      }
    }
    assert known[..|known|] == known;
  }

  // ---- links ----

  ghost predicate BrokenBelow(v: View, broken: set<nat>, n: nat) {
    forall m: nat :: m in broken <==> m < n && Reliable(v, m) && Broken(v, m)
  }

  ghost predicate TamperedIs(v: View, tampered: set<string>) {
    forall id :: id in tampered <==> Tampered(v, id)
  }

  /** The last earlier record that still stands: the only one an incident may name. */
  method LastSound(v: View, n: nat, reliable: map<nat, string>, broken: set<nat>, tampered: set<string>)
      returns (anchor: nat)
    requires ValidView(v) && Reliables(v, reliable) && BrokenBelow(v, broken, n) && TamperedIs(v, tampered)
    ensures anchor == Anchor(v, n)
  {
    hide ValidScheme;
    hide ValidCheckpoint;
    hide Conflict;
    hide Candidate;
    hide Edited;
    hide Broken;
    hide Tampered;
    ghost var eligible :=
      set m: nat | m < n && Reliable(v, m) && !Broken(v, m) && !Tampered(v, CommentAt(v, m).id) :: m;
    anchor := 0;
    for m := 0 to n
      invariant anchor == 0 || anchor in eligible
      invariant forall o :: o in eligible && o < m ==> o <= anchor
      invariant anchor <= m
    {
      if m in reliable && m !in broken && reliable[m] !in tampered {
        anchor := m;
      }
    }
    if eligible != {} && anchor == 0 {
      var o :| o in eligible;
      assert o == 0;
    }
    MaxUnique(eligible, anchor);
  }

  predicate LinkFinding(f: Finding) {
    f.BadAnchorLink? || f.BadPrevLink?
  }

  method CheckLink(v: View, n: nat, reliable: map<nat, string>, broken: set<nat>, tampered: set<string>)
    returns (finding: Option<Finding>)
    requires ValidView(v) && Reliables(v, reliable) && BrokenBelow(v, broken, n) && TamperedIs(v, tampered)
        && n in reliable
    ensures finding.Some? <==> Broken(v, n)
    ensures forall f :: LinkFinding(f) && f.number == n ==> (Reported(v, f) <==> finding == Some(f))
    ensures finding.Some? ==> LinkFinding(finding.value) && finding.value.number == n
  {
    hide ValidScheme;
    hide ValidCheckpoint;
    hide Conflict;
    hide Edited;
    hide Tampered;
    hide Anchor;
    hide TamperedIs;
    hide BrokenBelow;
    var payload := PayloadOf(v.scheme, v.pool[reliable[n]]);
    assert payload == At(v, n);
    var previous := n - 1;
    if payload.auditPrev.Some? {
      var anchor := LastSound(v, n, reliable, broken, tampered);
      if payload.auditPrev.value != anchor {
        return Some(BadAnchorLink(n, anchor, payload.auditPrev.value));
      }
      previous := payload.auditPrev.value;
    }
    if previous < 1 || previous !in reliable {
      return None;
    }
    var expected := v.scheme.hash(v.pool[reliable[previous]].body);
    assert expected == v.scheme.hash(CommentAt(v, previous).body);
    if payload.prev != Some(expected) {
      return Some(BadPrevLink(n, expected, payload.prev));
    }
    return None;
  }

  method CheckLinks(v: View, reliable: map<nat, string>, tampered: set<string>, maxSeq: nat)
    returns (broken: set<nat>, found: seq<Finding>)
    requires ValidView(v) && Reliables(v, reliable) && TamperedIs(v, tampered) && maxSeq == MaxSeq(v)
    ensures BrokenBelow(v, broken, maxSeq + 1)
    ensures forall f :: f in found <==> LinkFinding(f) && Reported(v, f)
  {
    hide ValidView;
    hide TamperedIs;
    hide Reliable;
    hide Broken;
    hide Reported;
    hide MaxSeq;
    broken, found := {}, [];
    forall n: nat | Reliable(v, n) ensures 1 <= n <= maxSeq { ReliableBounded(v, n); }
    NothingBroken(v);
    forall f | LinkFinding(f) && Reported(v, f) ensures Reliable(v, f.number) { LinkFindingReliable(v, f); }
    for n := 1 to maxSeq + 1
      invariant BrokenBelow(v, broken, n)
      invariant forall f :: f in found <==> LinkFinding(f) && f.number < n && Reported(v, f)
    {
      if n in reliable {
        var finding := CheckLink(v, n, reliable, broken, tampered);
        if finding.Some? {
          broken := broken + {n};
          found := found + [finding.value];
        }
      }
    }
  }

  lemma NothingBroken(v: View)
    requires ValidView(v)
    ensures BrokenBelow(v, {}, 1)
  {
    forall m: nat ensures Reliable(v, m) ==> m >= 1 {
      if Reliable(v, m) { ReliableBounded(v, m); }
    }
  }

  lemma ReliableBounded(v: View, n: nat)
    requires ValidView(v) && Reliable(v, n)
    ensures 1 <= n <= MaxSeq(v)
  {
    GroupsBounded(v, n);
  }

  lemma LinkFindingReliable(v: View, f: Finding)
    requires LinkFinding(f) && Reported(v, f)
    ensures Reliable(v, f.number)
  {}

  // ---- the records that stand, and the verdict ----

  datatype VerifiedRecord = VerifiedRecord(number: nat, comment: Comment, payload: Payload)

  datatype Verdict = Verdict(records: seq<VerifiedRecord>, violations: seq<Violation>, maxSeq: nat, assurance: nat)

  ghost function RecordOf(v: View, n: nat): VerifiedRecord
    requires Reliable(v, n)
  {
    VerifiedRecord(n, CommentAt(v, n), At(v, n))
  }

  /** The sound records up to a number, ascending. */
  ghost function Records(v: View, top: nat): seq<VerifiedRecord> {
    if top == 0 then [] else Records(v, top - 1) + if Sound(v, top) then [RecordOf(v, top)] else []
  }

  method CollectRecords(v: View, reliable: map<nat, string>, broken: set<nat>, tampered: set<string>, maxSeq: nat)
    returns (records: seq<VerifiedRecord>)
    requires ValidView(v) && Reliables(v, reliable) && BrokenBelow(v, broken, maxSeq + 1) && TamperedIs(v, tampered)
    ensures records == Records(v, maxSeq)
  {
    hide ValidScheme;
    hide ValidCheckpoint;
    hide Broken;
    hide Tampered;
    hide Conflict;
    hide Edited;
    records := [];
    for n := 1 to maxSeq + 1
      invariant records == Records(v, n - 1)
    {
      assert Sound(v, n) <==> n in reliable && n !in broken && reliable[n] !in tampered;
      if n in reliable && n !in broken && reliable[n] !in tampered {
        var c := v.pool[reliable[n]];
        records := records + [VerifiedRecord(n, c, PayloadOf(v.scheme, c))];
      } else {
        assert Records(v, n) == records + [];
      }
    }
  }

  /** What a verification must answer; every part is fixed by the view. */
  ghost predicate IsVerdict(v: View, head: string, encode: Finding -> string, r: Verdict) {
    && r.records == Records(v, MaxSeq(v)) && r.maxSeq == MaxSeq(v) && r.assurance == v.checkpoint.highWater
    && Canonical(r.violations)
    && (forall f :: Reported(v, f) ==> EvidenceOf(v.scheme.run, head, encode, f) in r.violations)
    && (forall x :: x in r.violations ==> exists f :: Reported(v, f) && x == EvidenceOf(v.scheme.run, head, encode, f))
  }

  lemma VerdictUnique(v: View, head: string, encode: Finding -> string, a: Verdict, b: Verdict)
    requires IsVerdict(v, head, encode, a) && IsVerdict(v, head, encode, b)
    ensures a == b
  {
    hide Reported;
    hide Canonical;
    hide EvidenceOf;
    CanonicalUnique(a.violations, b.violations);
  }

  lemma IntactSound(v: View, n: nat)
    requires ValidView(v) && Intact(v) && 1 <= n <= MaxSeq(v)
    ensures Sound(v, n)
  {
    hide ValidView;
    hide Intact;
    hide Conflict;
    hide Group;
    hide Broken;
    hide Tampered;
    IntactReliable(v, n);
    IntactUnbroken(v, n);
    IntactUntampered(v, CommentAt(v, n).id);
  }

  /** In an intact chain no number is without its record. */
  lemma {:induction false} IntactRecords(v: View, top: nat)
    requires ValidView(v) && Intact(v) && top <= MaxSeq(v)
    ensures |Records(v, top)| == top
    ensures forall n :: 1 <= n <= top ==> Reliable(v, n) && Records(v, top)[n - 1] == RecordOf(v, n)
  {
    hide ValidView;
    hide Intact;
    hide Reliable;
    hide Broken;
    hide Tampered;
    if top > 0 {
      IntactRecords(v, top - 1);
      IntactSound(v, top);
    }
  }

  /**
   * The i-th record of a whole chain: unedited, numbered from 1, naming the record before it by the hash of its body.
   */
  ghost predicate InPlace(scheme: Scheme, records: seq<VerifiedRecord>, i: nat)
    requires i < |records|
  {
    var r := records[i];
    && r.number == r.payload.number == i + 1
    && scheme.parse(r.comment.body) == Marked(r.payload)
    && !Edited(r.comment)
    && (r.payload.auditPrev.Some? ==> r.payload.auditPrev.value == i)
    && r.payload.prev == if i == 0 then None else Some(scheme.hash(records[i - 1].comment.body))
  }

  /** All records from 1 to the greatest number, which the checkpoint does not exceed, each in its place. */
  ghost predicate WholeRecords(v: View, r: Verdict) {
    && |r.records| == r.maxSeq >= v.checkpoint.highWater
    && forall i: nat :: i < |r.records| ==> InPlace(v.scheme, r.records, i)
  }

  lemma IntactVerdict(v: View, head: string, encode: Finding -> string, r: Verdict)
    requires ValidView(v) && Intact(v) && IsVerdict(v, head, encode, r)
    ensures WholeRecords(v, r)
  {
    hide ValidView;
    hide Intact;
    hide Reported;
    hide Canonical;
    hide Conflict;
    hide Group;
    hide Records;
    IntactRecords(v, r.maxSeq);
    IntactCovers(v);
    forall i: nat | i < |r.records| ensures InPlace(v.scheme, r.records, i) {
      IntactLinked(v, i + 1);
      GroupsBounded(v, i + 1);
      assert r.records[i] == RecordOf(v, i + 1);
      assert i > 0 ==> r.records[i - 1] == RecordOf(v, i);
    }
  }

  /** No violation means an intact chain, and then the records are the whole chain in order. */
  lemma VerdictIntact(v: View, head: string, encode: Finding -> string, r: Verdict)
    requires IsVerdict(v, head, encode, r)
    ensures r.violations == [] <==> Intact(v)
    ensures ValidView(v) && r.violations == [] ==> WholeRecords(v, r)
  {
    hide ValidView;
    hide Reported;
    hide Canonical;
    hide EvidenceOf;
    hide WholeRecords;
    if r.violations != [] {
      assert r.violations[0] in r.violations;
    } else if ValidView(v) {
      IntactVerdict(v, head, encode, r);
    }
  }

  method CollectFindings(v: View, order: seq<string>)
      returns (records: seq<VerifiedRecord>, maxSeq: nat, found: seq<Finding>)
    requires ValidView(v) && forall id :: id in order <==> id in v.pool
    ensures records == Records(v, maxSeq) && maxSeq == MaxSeq(v)
    ensures forall f :: f in found <==> Reported(v, f)
  {
    hide ValidView;
    hide Reported;
    hide Candidate;
    hide Grouped;
    hide Canonicals;
    hide Reliables;
    hide BrokenBelow;
    hide Records;
    hide Tampered;
    hide ForRun;
    var candidates, irregular := Classify(v, order);
    var groups := GroupByNumber(v, candidates);
    maxSeq := HighestNumber(v, candidates);
    var canonical, conflicting := SelectCanonical(v, groups, maxSeq);
    var reliable, edited := DropEdited(v, canonical, maxSeq);
    var gaps := FindGaps(v, groups, maxSeq);
    var tampered, known := CheckKnown(v);
    var broken, links := CheckLinks(v, reliable, tampered, maxSeq);
    records := CollectRecords(v, reliable, broken, tampered, maxSeq);
    found := irregular + conflicting + edited + gaps + known + links;
  }

  /**
   * The whole verification: nothing when a known comment was neither fetched nor probed, else the verdict of the view.
   */
  method VerifyRecordChain(window: seq<Comment>, probed: seq<Comment>, missing: set<string>, scheme: Scheme,
                           checkpoint: Checkpoint,
                           head: string, encode: Finding -> string) returns (r: Option<Verdict>)
    requires ValidScheme(scheme) && ValidCheckpoint(checkpoint)
    ensures var v := View(scheme, Dedupe(window + probed), checkpoint, missing);
            && (r.Some? <==> ValidView(v))
            && (r.Some? ==> IsVerdict(v, head, encode, r.value))
  {
    hide ValidScheme;
    hide ValidCheckpoint;
    hide Reported;
    hide Dedupe;
    hide Records;
    hide Canon;
    hide Canonical;
    hide BindingOf;
    var pool, order := Collect(window + probed);
    DedupeLatest(window + probed);
    if exists k :: k in checkpoint.known && k.id !in pool && k.id !in missing {
      return None;
    }
    var v := View(scheme, pool, checkpoint, missing);
    var records, maxSeq, found := CollectFindings(v, order);
    var refs := seq(|found|, i requires 0 <= i < |found| => EvidenceOf(scheme.run, head, encode, found[i]));
    RefsListed(v, head, encode, found, refs);
    var violations := Canonicalize(refs);
    CanonKeepsMembers(refs);
    CanonBindings(refs);
    return Some(Verdict(records, violations, maxSeq, checkpoint.highWater));
  }

  lemma RefsListed(v: View, head: string, encode: Finding -> string, found: seq<Finding>, refs: seq<Violation>)
    requires ValidView(v) && forall f :: f in found <==> Reported(v, f)
    requires |refs| == |found|
    requires forall i :: 0 <= i < |found| ==> refs[i] == EvidenceOf(v.scheme.run, head, encode, found[i])
    ensures forall a, b :: a in refs && b in refs && a.binding == b.binding ==> a == b
    ensures forall f :: Reported(v, f) ==> EvidenceOf(v.scheme.run, head, encode, f) in refs
    ensures forall x :: x in refs ==> exists f :: Reported(v, f) && x == EvidenceOf(v.scheme.run, head, encode, f)
  {
    hide ValidView;
    hide Reported;
    hide BindingOf;
    forall a, b | a in refs && b in refs && a.binding == b.binding ensures a == b {
      var i :| 0 <= i < |refs| && refs[i] == a;
      var j :| 0 <= j < |refs| && refs[j] == b;
      BindingsDistinct(v, found[i], found[j]);
    }
    forall f | Reported(v, f) ensures EvidenceOf(v.scheme.run, head, encode, f) in refs {
      var i :| 0 <= i < |found| && found[i] == f;
      assert refs[i] == EvidenceOf(v.scheme.run, head, encode, f);
    }
    forall x | x in refs ensures exists f :: Reported(v, f) && x == EvidenceOf(v.scheme.run, head, encode, f) {
      var i :| 0 <= i < |refs| && refs[i] == x;
      assert Reported(v, found[i]);
    }
  }

  /**
   * Redelivered, duplicated or reordered comments give the same verdict, if no comment has two different latest
   * observations.
   */
  lemma VerdictOrderFree(a: seq<Comment>, b: seq<Comment>, scheme: Scheme, checkpoint: Checkpoint, missing: set<string>,
                         head: string, encode: Finding -> string, r: Verdict, q: Verdict)
    requires SameComments(a, b) && LatestUnique(a)
    requires IsVerdict(View(scheme, Dedupe(a), checkpoint, missing), head, encode, r)
    requires IsVerdict(View(scheme, Dedupe(b), checkpoint, missing), head, encode, q)
    ensures r == q
  {
    hide Dedupe;
    hide IsVerdict;
    DedupeOrderFree(a, b);
    VerdictUnique(View(scheme, Dedupe(a), checkpoint, missing), head, encode, r, q);
  }
}
