/**
 * From a reissued record to its recognition: posted once, verified in the chain, and found there by the next decision.
 */
module Reissue {
  import opened Vocabulary
  import opened MarkerEscape
  import opened MarkerText
  import opened RecordMarkers
  import opened MarkerReading
  import opened RecordChain
  import opened ChainVerifier
  import opened PendingPosts
  import Posting

  /** A verified record as the decision sees it. */
  function Seen(scheme: Scheme, r: VerifiedRecord): Record {
    Record(r.number, r.payload.key, scheme.hash(r.comment.body))
  }

  function SeenAll(scheme: Scheme, rs: seq<VerifiedRecord>): seq<Record> {
    if rs == [] then [] else SeenAll(scheme, rs[..|rs| - 1]) + [Seen(scheme, rs[|rs| - 1])]
  }

  /** What a verification of a view hands to the decision. */
  ghost function Verified(v: View): seq<Record> {
    SeenAll(v.scheme, Records(v, MaxSeq(v)))
  }

  lemma SeenNext(scheme: Scheme, rs: seq<VerifiedRecord>, r: VerifiedRecord)
    ensures ByNumber(SeenAll(scheme, rs + [r])) == ByNumber(SeenAll(scheme, rs))[r.number := Seen(scheme, r)]
  {
    assert (rs + [r])[..|rs|] == rs;
    var all := SeenAll(scheme, rs);
    assert (all + [Seen(scheme, r)])[..|all|] == all;
  }

  ghost predicate KnowsSound(v: View, top: nat, m: map<nat, Record>) {
    forall n: nat :: (n in m <==> 1 <= n <= top && Sound(v, n)) && (n in m ==> m[n] == Seen(v.scheme, RecordOf(v, n)))
  }

  lemma KnowsNext(v: View, top: nat, m: map<nat, Record>)
    requires KnowsSound(v, top, m)
    ensures KnowsSound(v, top + 1, if Sound(v, top + 1) then m[top + 1 := Seen(v.scheme, RecordOf(v, top + 1))] else m)
  {
    hide Reliable;
    hide Broken;
    hide Tampered;
    hide Seen;
    hide RecordOf;
  }

  /** The decision looks up exactly the sound records. */
  lemma {:induction false} SeenByNumber(v: View, top: nat)
    ensures KnowsSound(v, top, ByNumber(SeenAll(v.scheme, Records(v, top))))
  {
    hide Reliable;
    hide Broken;
    hide Tampered;
    hide Seen;
    hide ByNumber;
    if top == 0 {
      NothingByNumber();
    } else {
      hide KnowsSound;
      SeenByNumber(v, top - 1);
      KnowsNext(v, top - 1, ByNumber(SeenAll(v.scheme, Records(v, top - 1))));
      if Sound(v, top) {
        SeenNext(v.scheme, Records(v, top - 1), RecordOf(v, top));
      } else {
        assert Records(v, top) == Records(v, top - 1);
      }
    }
  }

  lemma NothingByNumber()
    ensures ByNumber([]) == map[]
  {}

  // ---- the body of a reissue ----

  /** The payload that a reissue composes, where it is decided. */
  function ReissuePayload(t: Transaction, run: string, records: seq<Record>): Payload {
    var link := Previous(t, ByNumber(records));
    PayloadFor(t, run, if link.Link? then link.previous else None)
  }

  /**
   * What the producer of the interrupted record has to see to: a projection of its kind, and no reserved token in it.
   */
  ghost predicate Readable(f: Format, t: Transaction, p: Payload) {
    ProjectionFits(f.coding, t.kind, t.projection) && !Visible(t.text) && TokenFreeValues(RawOf(p))
  }

  /** The body of a reissue is read as its payload exactly if it is readable, and is irregular otherwise. */
  lemma ReissueReads(f: Format, t: Transaction, run: string, records: seq<Record>)
    requires Evaluate(f, t, run, records).ReissueRequired?
    ensures var p, m := ReissuePayload(t, run, records), ReadMarker(f.coding, Evaluate(f, t, run, records).body);
            if Readable(f, t, p) then m == Marked(p) else m.Irregular?
  {
    hide Previous;
    hide Compose;
    hide Attach;
    hide ReadMarker;
    hide ProjectionFits;
    hide TokenFreeValues;
    hide Visible;
    hide RawOf;
    hide ByNumber;
    AttachedReads(f.coding, ReissuePayload(t, run, records), t.text);
  }

  // ---- the record of a reissue ----

  /** Posts that claim one number without a conflict have one body. */
  lemma ChosenSame(v: View, n: nat, id: string)
    requires ValidView(v) && Reliable(v, n) && InGroup(v, n, id)
    ensures CommentAt(v, n).body == v.pool[id].body && At(v, n) == PayloadOf(v.scheme, v.pool[id])
  {
    hide Edited;
    hide Earlier;
    assert Signature(v.scheme, v.pool[Chosen(v, n)]) == Signature(v.scheme, v.pool[id]);
  }

  /** The last record that the decision knows below a number is the one an incident may be anchored to. */
  lemma LastBelowIsAnchor(v: View, n: nat)
    requires ValidView(v)
    ensures LastBelow(ByNumber(Verified(v)), n) == Anchor(v, n)
  {
    hide ValidView;
    hide Verified;
    hide ByNumber;
    hide Conflict;
    hide Edited;
    hide InGroup;
    hide Broken;
    hide Tampered;
    var sound := set m: nat | m < n && Reliable(v, m) && !Broken(v, m) && !Tampered(v, CommentAt(v, m).id) :: m;
    var last := LastBelow(ByNumber(Verified(v)), n);
    forall m: nat ensures m in ByNumber(Verified(v)) <==> Sound(v, m) { VerifiedAt(v, m); }
    assert forall m: nat :: m in sound <==> m < n && Sound(v, m);
    if sound != {} {
      var m :| m in sound;
      SoundPositive(v, m);
    }
    MaxUnique(sound, last);
  }

  lemma SoundPositive(v: View, n: nat)
    requires ValidView(v) && Sound(v, n)
    ensures n >= 1
  {
    hide ValidView;
    ReliableBounded(v, n);
  }

  lemma VerifiedAt(v: View, n: nat)
    requires ValidView(v)
    ensures n in ByNumber(Verified(v)) <==> Sound(v, n)
    ensures Sound(v, n) ==> ByNumber(Verified(v))[n] == Seen(v.scheme, RecordOf(v, n))
  {
    hide ValidView;
    hide Reliable;
    hide Broken;
    hide Tampered;
    hide ByNumber;
    hide Seen;
    hide Records;
    SeenByNumber(v, MaxSeq(v));
    if Sound(v, n) { ReliableBounded(v, n); }
  }

  lemma ReissueLinked(f: Format, t: Transaction, run: string, records: seq<Record>)
    requires Evaluate(f, t, run, records).ReissueRequired?
    ensures Previous(t, ByNumber(records)).Link?
  {
    hide Previous;
    hide Compose;
  }

  /** The link of the reissued record stands: it names the very predecessor that the verification finds. */
  lemma ReissueUnbroken(f: Format, t: Transaction, run: string, before: seq<Record>, v: View)
    requires Evaluate(f, t, run, before).ReissueRequired? && SameBefore(before, Verified(v), t.number)
    requires ValidView(v) && Reliable(v, t.number)
    requires At(v, t.number) == ReissuePayload(t, run, before)
    ensures !Broken(v, t.number)
  {
    hide Evaluate;
    hide ValidView;
    hide Verified;
    hide ByNumber;
    hide Reliable;
    hide Tampered;
    hide Anchor;
    hide LastBelow;
    ReissueLinked(f, t, run, before);
    SamePrevious(t, ByNumber(before), ByNumber(Verified(v)));
    LastBelowIsAnchor(v, t.number);
    VerifiedAt(v, Anchor(v, t.number));
    if t.number >= 1 { VerifiedAt(v, t.number - 1); }
  }

  /**
   * Once the reissued body stands in the conversation, uncontested and unedited, its record is sound, link and all, and
   * the next decision is that it is posted.
   */
  lemma StandingIsRecognised(f: Format, t: Transaction, run: string, before: seq<Record>, v: View, id: string)
    requires Evaluate(f, t, run, before).ReissueRequired?
    requires Readable(f, t, ReissuePayload(t, run, before))
    requires forall body :: v.scheme.parse(body) == ReadMarker(f.coding, body)
    requires v.scheme.run == run && v.scheme.hash == f.hash && ValidView(v)
    requires id in v.pool && v.pool[id].body == Evaluate(f, t, run, before).body && v.scheme.trusted(v.pool[id].author)
    requires Reliable(v, t.number) && !Tampered(v, CommentAt(v, t.number).id)
        && SameBefore(before, Verified(v), t.number)
    ensures Sound(v, t.number)
    ensures var posted := Record(t.number, t.binding, Evaluate(f, t, run, before).digest);
            Evaluate(f, t, run, Verified(v)) == AlreadyPosted(posted)
  {
    hide Evaluate;
    hide Readable;
    hide ReadMarker;
    hide SameBefore;
    hide ByNumber;
    hide Verified;
    hide ValidView;
    hide Conflict;
    hide Group;
    hide Edited;
    hide Broken;
    hide Tampered;
    hide Previous;
    ReissueReads(f, t, run, before);
    ReissueIsUnposted(f, t, run, before);
    ChosenSame(v, t.number, id);
    ReissueUnbroken(f, t, run, before, v);
    VerifiedAt(v, t.number);
    PostedIsRecognised(f, t, run, before, Verified(v));
  }

  /**
   * The whole way: after any history of interrupted and repeated calls, a call that ends verified has made the one
   * copy; and where a verification sees that copy, uncontested and unedited, the interrupted record counts as posted
   * and is never posted again.
   */
  lemma PostedOnceAndRecognised(f: Format, t: Transaction, run: string, before: seq<Record>, s: Posting.Server,
                                moves: seq<Posting.Move>, since: nat, attempts: nat, weather: Posting.Weather,
                                v: View, id: string)
    requires Evaluate(f, t, run, before).ReissueRequired?
    requires Readable(f, t, ReissuePayload(t, run, before))
    requires forall body :: v.scheme.parse(body) == ReadMarker(f.coding, body)
    requires var w := Posting.Wanted(t.binding, Evaluate(f, t, run, before).digest, since);
             && Posting.ValidServer(s) && Posting.Covers(s, w) && Posting.Count(s.posts, w) <= 1
             && Posting.FairPlay(s, w, moves) && attempts >= 1
             && var (_, out) := Posting.Ensure(Posting.Play(s, w, moves), w, attempts, weather);
             out.PostVerified? && id in v.pool && v.scheme.hash(v.pool[id].body) == out.post.hash
    requires v.scheme.run == run && v.scheme.hash == f.hash && ValidView(v) && v.scheme.trusted(v.pool[id].author)
    requires Reliable(v, t.number) && !Tampered(v, CommentAt(v, t.number).id)
        && SameBefore(before, Verified(v), t.number)
    ensures var w := Posting.Wanted(t.binding, Evaluate(f, t, run, before).digest, since);
            Posting.Count(Posting.Ensure(Posting.Play(s, w, moves), w, attempts, weather).0.posts, w) == 1
    ensures var posted := Record(t.number, t.binding, Evaluate(f, t, run, before).digest);
            Evaluate(f, t, run, Verified(v)) == AlreadyPosted(posted)
  {
    hide Evaluate;
    hide Readable;
    hide ReadMarker;
    hide SameBefore;
    hide Verified;
    hide Reliable;
    hide Tampered;
    hide Previous;
    hide Posting.Ensure;
    hide Posting.Play;
    hide Posting.Count;
    hide Posting.Covers;
    hide Posting.FairPlay;
    var w := Posting.Wanted(t.binding, Evaluate(f, t, run, before).digest, since);
    Posting.VerifiedMeansExactlyOne(s, w, moves, attempts, weather);
    ReissueIsUnposted(f, t, run, before);
    StandingIsRecognised(f, t, run, before, v, id);
  }
}
