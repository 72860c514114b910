/** Which comment stands for a record: the earliest of its posts, whatever is posted again afterwards. */
module Reposts {
  import opened Vocabulary
  import opened Text
  import opened Violations
  import opened Decimals
  import opened RecordMarkers
  import opened RecordChain
  import opened Redelivery
  import opened Evidence
  import opened ChainVerifier

  /** A comment of the run by a trusted producer that claims a number. */
  predicate Claims(v: View, id: string, n: nat) {
    && id in v.pool && v.scheme.trusted(v.pool[id].author)
    && v.scheme.parse(v.pool[id].body).Marked? && v.scheme.parse(v.pool[id].body).payload.run == v.scheme.run
    && v.scheme.parse(v.pool[id].body).payload.number == n
  }

  lemma {:induction false} RecordIsSound(v: View, top: nat, r: VerifiedRecord) returns (n: nat)
    requires r in Records(v, top)
    ensures 1 <= n <= top && Sound(v, n) && r == RecordOf(v, n)
  {
    hide Reliable;
    hide Broken;
    hide Tampered;
    hide RecordOf;
    if r in Records(v, top - 1) {
      n := RecordIsSound(v, top - 1, r);
    } else {
      n := top;
    }
  }

  /**
   * A record of a verdict names an unedited comment of the run by a trusted producer; no other such comment claims its
   * number with another body, and none was created before it, nor at the same time with a smaller number as its ID.
   */
  lemma EarliestIsNamed(v: View, head: string, encode: Finding -> string, verdict: Verdict, i: nat, id: string)
    requires ValidView(v) && IsVerdict(v, head, encode, verdict) && i < |verdict.records|
    requires Claims(v, id, verdict.records[i].number)
    ensures var r, c := verdict.records[i], v.pool[id];
            && Claims(v, r.comment.id, r.number) && v.pool[r.comment.id] == r.comment
            && r.comment.updated == r.comment.created
            && c.body == r.comment.body && !Less(c.created, r.comment.created)
    ensures var r, c := verdict.records[i], v.pool[id];
            forall a: nat, b: nat ::
              c.created == r.comment.created && r.comment.id == Digits(a) && c.id == Digits(b) ==> a <= b
  {
    hide ValidCheckpoint;
    hide Broken;
    hide Tampered;
    hide Reported;
    hide Records;
    var r, c := verdict.records[i], v.pool[id];
    var n := RecordIsSound(v, MaxSeq(v), r);
    GroupsBounded(v, n);
    assert InGroup(v, n, id);
    assert IsChosen(v, n, Chosen(v, n));
    assert Signature(v.scheme, r.comment) == Signature(v.scheme, c);
    LessOrder(c.created, r.comment.created, c.created);
    forall a: nat, b: nat | c.created == r.comment.created && r.comment.id == Digits(a) && c.id == Digits(b)
      ensures a <= b
    {
      DigitsOrder(a, b);
    }
  }

  // ---- a repost changes nothing ----

  function With(v: View, c: Comment): View {
    v.(pool := v.pool[c.id := c])
  }

  /** A comment with the very body of a record that stands uncontested, posted later. */
  ghost predicate IsRepost(v: View, n: nat, c: Comment) {
    && c.id !in v.pool && c.id !in v.missing && (forall k :: k in v.checkpoint.known ==> k.id != c.id)
    && Group(v, n) != {} && !Conflict(v, n)
    && c.body == CommentAt(v, n).body && v.scheme.trusted(c.author) && Less(CommentAt(v, n).created, c.created)
  }

  lemma RepostGroups(v: View, n: nat, c: Comment)
    requires IsRepost(v, n, c)
    ensures forall m, id :: InGroup(With(v, c), m, id) <==> InGroup(v, m, id) || (m == n && id == c.id)
    ensures forall m, id :: InGroup(v, m, id) ==> id in With(v, c).pool && With(v, c).pool[id] == v.pool[id]
  {
    hide Conflict;
    hide IsChosen;
    assert InGroup(v, n, Chosen(v, n));
  }

  lemma GroupMembers(v: View, m: nat)
    ensures forall id :: id in Group(v, m) <==> InGroup(v, m, id)
  {
    hide Candidate;
  }

  /** The posts of another number are untouched. */
  lemma SameGroup(v: View, w: View, m: nat)
    requires v.scheme == w.scheme && forall id :: InGroup(w, m, id) <==> InGroup(v, m, id)
    requires forall id :: InGroup(v, m, id) ==> id in w.pool && w.pool[id] == v.pool[id]
    ensures Group(w, m) == Group(v, m)
    ensures Conflict(w, m) ==> Conflict(v, m)
  {
    hide ForRun;
    GroupMembers(v, m);
    GroupMembers(w, m);
    if Conflict(w, m) {
      var a, b :|
        InGroup(w, m, a) && InGroup(w, m, b) && Signature(w.scheme, w.pool[a]) != Signature(w.scheme, w.pool[b]);
      assert InGroup(v, m, a) && InGroup(v, m, b);
    }
  }

  lemma RepostNoConflict(v: View, n: nat, c: Comment)
    requires IsRepost(v, n, c)
    ensures !Conflict(With(v, c), n) && c.id in Group(With(v, c), n)
  {
    hide IsChosen;
    RepostGroups(v, n, c);
    hide ForRun;
    var w := With(v, c);
    GroupMembers(w, n);
    var s := Signature(v.scheme, v.pool[Chosen(v, n)]);
    forall id | InGroup(w, n, id) ensures Signature(w.scheme, w.pool[id]) == s {
      if id != c.id { assert InGroup(v, n, id); }
    }
  }

  lemma RepostGroup(v: View, n: nat, c: Comment, m: nat)
    requires IsRepost(v, n, c)
    ensures Group(With(v, c), m) == {} <==> Group(v, m) == {}
    ensures m != n ==> Group(With(v, c), m) == Group(v, m)
    ensures Conflict(With(v, c), m) <==> Conflict(v, m)
  {
    hide Conflict;
    hide Group;
    hide Candidate;
    if m == n {
      RepostNoConflict(v, n, c);
    } else {
      RepostGroups(v, n, c);
      SameGroup(v, With(v, c), m);
      SameGroup(With(v, c), v, m);
    }
  }

  lemma RepostChosen(v: View, n: nat, c: Comment, m: nat)
    requires ValidView(v) && IsRepost(v, n, c) && Group(v, m) != {}
    ensures Group(With(v, c), m) != {} && CommentAt(With(v, c), m) == CommentAt(v, m)
  {
    hide ValidScheme;
    hide ValidCheckpoint;
    hide Conflict;
    hide Candidate;
    RepostGroup(v, n, c, m);
    RepostGroups(v, n, c);
    hide InGroup;
    hide Group;
    var w := With(v, c);
    var id := Chosen(v, m);
    assert IsChosen(v, m, id);
    assert IsChosen(w, m, id);
    ChosenUnique(w, m, id, Chosen(w, m));
  }

  lemma RepostReliable(v: View, n: nat, c: Comment)
    requires ValidView(v) && IsRepost(v, n, c)
    ensures forall m: nat :: Reliable(With(v, c), m) <==> Reliable(v, m)
    ensures forall m: nat :: Reliable(v, m) ==> CommentAt(With(v, c), m) == CommentAt(v, m)
    ensures forall id :: Tampered(With(v, c), id) <==> Tampered(v, id)
  {
    hide ValidView;
    hide Conflict;
    hide Group;
    hide Edited;
    hide InGroup;
    forall m: nat
      ensures Reliable(With(v, c), m) <==> Reliable(v, m)
      ensures Reliable(v, m) ==> CommentAt(With(v, c), m) == CommentAt(v, m)
    {
      RepostGroup(v, n, c, m);
      if Group(v, m) != {} { RepostChosen(v, n, c, m); }
    }
    assert forall k :: TamperedKnown(With(v, c), k) <==> TamperedKnown(v, k);
  }

  lemma RepostMax(v: View, n: nat, c: Comment)
    requires IsRepost(v, n, c)
    ensures MaxSeq(With(v, c)) == MaxSeq(v)
  {
    hide Group;
    hide Observed;
    hide Conflict;
    forall m: nat ensures m in Observed(With(v, c)) <==> m in Observed(v) {
      ObservedGroups(v, m);
      ObservedGroups(With(v, c), m);
      RepostGroup(v, n, c, m);
    }
    assert Observed(With(v, c)) == Observed(v);
  }

  lemma {:induction false} RepostLinks(v: View, n: nat, c: Comment, m: nat)
    requires ValidView(v) && IsRepost(v, n, c)
    ensures Anchor(With(v, c), m) == Anchor(v, m)
    ensures Reliable(v, m) ==> Reliable(With(v, c), m) && (Broken(With(v, c), m) <==> Broken(v, m))
    decreases m
  {
    hide ValidView;
    hide IsRepost;
    hide Conflict;
    hide Group;
    hide Edited;
    hide InGroup;
    hide Tampered;
    RepostReliable(v, n, c);
    var w := With(v, c);
    forall k: nat | k < m ensures Reliable(v, k) ==> (Broken(w, k) <==> Broken(v, k)) {
      RepostLinks(v, n, c, k);
    }
    SameAnchor(v, w, m);
    if Reliable(v, m) { SameBroken(v, w, m); }
  }

  ghost predicate SameRecords(v: View, w: View) {
    && v.scheme == w.scheme
    && (forall m: nat :: Reliable(w, m) <==> Reliable(v, m))
    && (forall m: nat :: Reliable(v, m) ==> CommentAt(w, m) == CommentAt(v, m))
    && (forall id :: Tampered(w, id) <==> Tampered(v, id))
  }

  lemma SameAnchor(v: View, w: View, m: nat)
    requires SameRecords(v, w)
    requires forall k: nat :: k < m && Reliable(v, k) ==> (Broken(w, k) <==> Broken(v, k))
    ensures Anchor(w, m) == Anchor(v, m)
  {
    hide Reliable;
    hide Broken;
    hide Tampered;
    ReliableHasGroup(v);
    ReliableHasGroup(w);
    var a := set k: nat | k < m && Reliable(v, k) && !Broken(v, k) && !Tampered(v, CommentAt(v, k).id) :: k;
    var b := set k: nat | k < m && Reliable(w, k) && !Broken(w, k) && !Tampered(w, CommentAt(w, k).id) :: k;
    assert a == b;
  }

  lemma ReliableHasGroup(v: View)
    ensures forall m: nat :: Reliable(v, m) ==> Group(v, m) != {}
  {}

  lemma SameBroken(v: View, w: View, m: nat)
    requires SameRecords(v, w) && Reliable(v, m) && Anchor(w, m) == Anchor(v, m)
    ensures Broken(w, m) <==> Broken(v, m)
  {
    hide Conflict;
    hide Group;
    hide Edited;
    hide InGroup;
    hide Tampered;
    hide Anchor;
  }

  lemma RepostFindings(v: View, n: nat, c: Comment, f: Finding)
    requires ValidView(v) && IsRepost(v, n, c)
    ensures Reported(With(v, c), f) <==> Reported(v, f)
  {
    hide ValidScheme;
    hide ValidCheckpoint;
    hide Conflict;
    hide Edited;
    hide InGroup;
    hide Group;
    hide Broken;
    hide Anchor;
    hide Tampered;
    RepostMax(v, n, c);
    RepostReliable(v, n, c);
    hide MaxSeq;
    match f
    case IrregularMarker(_, _) =>
    case BadActor(_, _) =>
    case SeqConflict(m, _) => RepostGroup(v, n, c, m);
    case EditedRecord(_, m) => RepostGroup(v, n, c, m); RepostEdited(v, n, c, m);
    case Gap(m, _) => RepostGroup(v, n, c, m);
    case MissingRecord(_, _) =>
    case TamperedRecord(_, _, _, _) =>
    case BadAnchorLink(m, _, _) => RepostLinks(v, n, c, m);
    case BadPrevLink(m, _, _) => RepostLinks(v, n, c, m);
  }

  lemma RepostEdited(v: View, n: nat, c: Comment, m: nat)
    requires ValidView(v) && IsRepost(v, n, c)
    ensures Group(v, m) != {} ==>
              && Group(With(v, c), m) != {} && CommentAt(With(v, c), m) == CommentAt(v, m)
              && Chosen(With(v, c), m) == Chosen(v, m)
  {
    hide ValidScheme;
    hide ValidCheckpoint;
    hide Conflict;
    hide Candidate;
    hide Group;
    hide IsRepost;
    if Group(v, m) != {} {
      RepostChosen(v, n, c, m);
      RepostValid(v, n, c);
      assert Keyed(v) && Keyed(With(v, c));
    }
  }

  lemma RepostValid(v: View, n: nat, c: Comment)
    requires ValidView(v) && IsRepost(v, n, c)
    ensures ValidView(With(v, c))
  {
    hide ValidScheme;
    hide ValidCheckpoint;
    hide Conflict;
    hide Group;
  }

  lemma {:induction false} RepostRecords(v: View, n: nat, c: Comment, top: nat)
    requires ValidView(v) && IsRepost(v, n, c)
    ensures Records(With(v, c), top) == Records(v, top)
    decreases top
  {
    hide ValidView;
    hide IsRepost;
    hide Conflict;
    hide Group;
    hide Edited;
    hide InGroup;
    hide Broken;
    hide Tampered;
    if top > 0 {
      RepostRecords(v, n, c, top - 1);
      RepostReliable(v, n, c);
      RepostLinks(v, n, c, top);
    }
  }

  /** Posting a standing record again changes neither the records of a verification nor its violations. */
  lemma RepostChangesNothing(v: View, n: nat, c: Comment, head: string, encode: Finding -> string, verdict: Verdict)
    requires ValidView(v) && IsRepost(v, n, c)
    ensures ValidView(With(v, c))
    ensures IsVerdict(With(v, c), head, encode, verdict) <==> IsVerdict(v, head, encode, verdict)
  {
    hide ValidView;
    hide IsRepost;
    hide Reported;
    hide Records;
    hide Canonical;
    hide EvidenceOf;
    RepostValid(v, n, c);
    RepostMax(v, n, c);
    RepostRecords(v, n, c, MaxSeq(v));
    hide MaxSeq;
    forall f ensures Reported(With(v, c), f) <==> Reported(v, f) { RepostFindings(v, n, c, f); }
  }

  // ---- an intact chain, in terms of comments alone ----

  /** No other claim of the number has another body or was posted before. */
  ghost predicate Foremost(v: View, id: string, n: nat)
    requires id in v.pool
  {
    forall other :: Claims(v, other, n) ==>
      var c, d := v.pool[id], v.pool[other];
      && d.body == c.body && !Less(d.created, c.created)
      && (d.created == c.created ==> |id| < |other| || (|id| == |other| && Leq(id, other)))
  }

  /** The comments, one for each number from 1: unedited, foremost, and linked by the hash of the body before. */
  ghost predicate PlainRecord(v: View, ids: seq<string>, i: nat)
    requires i < |ids|
  {
    && Claims(v, ids[i], i + 1) && Foremost(v, ids[i], i + 1)
    && v.pool[ids[i]].updated == v.pool[ids[i]].created
    && var p := v.scheme.parse(v.pool[ids[i]].body).payload;
    && (p.auditPrev.Some? ==> p.auditPrev.value == i)
    && (if i == 0 then p.prev.None?
        else ids[i - 1] in v.pool && p.prev == Some(v.scheme.hash(v.pool[ids[i - 1]].body)))
  }

  ghost predicate PlainChain(v: View, ids: seq<string>) {
    && |ids| >= v.checkpoint.highWater
    && (forall i: nat :: i < |ids| ==> PlainRecord(v, ids, i))
    && (forall id, n: nat :: Claims(v, id, n) ==> 1 <= n <= |ids|)
    && (forall id :: id in v.pool ==> !v.scheme.parse(v.pool[id].body).Irregular?)
    && (forall id :: id in v.pool && v.scheme.parse(v.pool[id].body).Marked?
                     && v.scheme.parse(v.pool[id].body).payload.run == v.scheme.run ==>
                       v.scheme.trusted(v.pool[id].author))
    && (forall k :: k in v.checkpoint.known ==>
          k.id in v.pool && k.id !in v.missing && v.scheme.hash(v.pool[k.id].body) == k.bodyHash)
  }

  lemma ClaimsAre(v: View)
    ensures forall id, n: nat :: Claims(v, id, n) <==> InGroup(v, n, id)
  {}

  lemma LinkedPlainly(v: View, n: nat)
    requires ValidView(v) && n >= 1 && Linked(v, n)
    ensures Group(v, n) != {} && Claims(v, Chosen(v, n), n) && Foremost(v, Chosen(v, n), n)
    ensures CommentAt(v, n).updated == CommentAt(v, n).created
  {
    hide ValidCheckpoint;
    ClaimsAre(v);
    assert IsChosen(v, n, Chosen(v, n));
    forall other | Claims(v, other, n)
      ensures var c, d := CommentAt(v, n), v.pool[other];
              && d.body == c.body && !Less(d.created, c.created)
              && (d.created == c.created ==>
                    |c.id| < |other| || (|c.id| == |other| && Leq(c.id, other)))
    {
      assert InGroup(v, n, other);
      assert Signature(v.scheme, v.pool[other]) == Signature(v.scheme, CommentAt(v, n));
      LessOrder(v.pool[other].created, CommentAt(v, n).created, v.pool[other].created);
    }
  }

  ghost function ChosenIds(v: View): (ids: seq<string>)
    ensures |ids| == MaxSeq(v)
    ensures forall i: nat :: i < |ids| && Group(v, i + 1) != {} ==> ids[i] == Chosen(v, i + 1)
  {
    seq(MaxSeq(v), i requires 0 <= i < MaxSeq(v) => if Group(v, i + 1) != {} then Chosen(v, i + 1) else "")
  }

  lemma ChosenPlain(v: View, i: nat)
    requires ValidView(v) && i < MaxSeq(v) && Linked(v, i + 1) && (i > 0 ==> Linked(v, i))
    ensures PlainRecord(v, ChosenIds(v), i)
  {
    hide ValidView;
    hide Conflict;
    hide Edited;
    hide Foremost;
    hide MaxSeq;
    hide ChosenIds;
    LinkedPlainly(v, i + 1);
    if i > 0 { LinkedPlainly(v, i); }
  }

  lemma ClaimsWithin(v: View)
    requires ValidView(v)
    ensures forall id, n: nat :: Claims(v, id, n) ==> 1 <= n <= MaxSeq(v)
  {
    hide ValidView;
    hide MaxSeq;
    ClaimsAre(v);
    forall id, n: nat | Claims(v, id, n) ensures 1 <= n <= MaxSeq(v) {
      assert id in Group(v, n);
      GroupsBounded(v, n);
    }
  }

  lemma WholePlainly(v: View)
    requires ValidView(v) && WholeChain(v)
    ensures PlainChain(v, ChosenIds(v))
  {
    hide ValidView;
    hide Linked;
    hide PlainRecord;
    hide Claims;
    ClaimsWithin(v);
    hide MaxSeq;
    hide ChosenIds;
    forall i: nat | i < MaxSeq(v) ensures PlainRecord(v, ChosenIds(v), i) { ChosenPlain(v, i); }
  }

  lemma PlainStands(v: View, ids: seq<string>, i: nat)
    requires ValidView(v) && PlainChain(v, ids) && i < |ids|
    ensures Reliable(v, i + 1) && Chosen(v, i + 1) == ids[i]
  {
    hide ValidCheckpoint;
    ClaimsAre(v);
    var id := ids[i];
    assert PlainRecord(v, ids, i);
    assert id in Group(v, i + 1);
    forall other | InGroup(v, i + 1, other)
      ensures Earlier(v.pool[id], v.pool[other]) && v.pool[other].body == v.pool[id].body
    {
      assert Claims(v, other, i + 1);
      LessOrder(v.pool[id].created, v.pool[other].created, v.pool[id].created);
    }
    assert IsChosen(v, i + 1, id);
    ChosenUnique(v, i + 1, id, Chosen(v, i + 1));
  }

  lemma PlainMax(v: View, ids: seq<string>)
    requires ValidView(v) && PlainChain(v, ids)
    ensures MaxSeq(v) == |ids|
  {
    hide ValidView;
    hide PlainRecord;
    ClaimsAre(v);
    forall n | n in Observed(v) ensures n <= |ids| {
      var id :| id in v.pool && Candidate(v.scheme, v.pool[id]) && PayloadOf(v.scheme, v.pool[id]).number == n;
      assert Claims(v, id, n);
    }
    if ids != [] {
      assert PlainRecord(v, ids, |ids| - 1);
      LastClaimed(v, ids, |ids| - 1);
    } else {
      assert Observed(v) == {} by {
        if n :| n in Observed(v) {
          var id :| id in v.pool && Candidate(v.scheme, v.pool[id]) && PayloadOf(v.scheme, v.pool[id]).number == n;
          assert Claims(v, id, n);
        }
      }
    }
    MaxUnique(Observed(v), |ids|);
  }

  lemma LastClaimed(v: View, ids: seq<string>, i: nat)
    requires i < |ids| && PlainRecord(v, ids, i)
    ensures i + 1 in Observed(v)
  {}

  lemma PlainWhole(v: View, ids: seq<string>)
    requires ValidView(v) && PlainChain(v, ids)
    ensures WholeChain(v)
  {
    hide ValidView;
    hide Reliable;
    hide Foremost;
    PlainMax(v, ids);
    hide MaxSeq;
    forall n: nat | 1 <= n <= |ids| ensures Linked(v, n) {
      assert PlainRecord(v, ids, n - 1);
      PlainStands(v, ids, n - 1);
      if n > 1 { PlainStands(v, ids, n - 2); }
      ReliableHasGroup(v);
    }
  }

  /** The verification finds nothing exactly if the comments form such a chain. */
  lemma IntactPlainly(v: View)
    requires ValidView(v)
    ensures Intact(v) <==> exists ids :: PlainChain(v, ids)
  {
    hide ValidView;
    hide Intact;
    hide WholeChain;
    hide PlainChain;
    IntactMeaning(v);
    if WholeChain(v) { WholePlainly(v); }
    if ids :| PlainChain(v, ids) { PlainWhole(v, ids); }
  }
}
