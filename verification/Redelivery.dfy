/** One observation per comment ID out of a redelivered, unordered bag: the latest update wins. */
module Redelivery {
  import opened Text
  import opened RecordChain

  /** A later observation replaces an earlier one only if its update time is strictly greater. */
  function Dedupe(cs: seq<Comment>): map<string, Comment> {
    if cs == [] then map[] else
      var pool := Dedupe(cs[..|cs| - 1]);
      var c := cs[|cs| - 1];
      if c.id !in pool || Less(pool[c.id].updated, c.updated) then pool[c.id := c] else pool
  }

  /** The comments of an ID that no observation supersedes. */
  ghost predicate Latest(cs: seq<Comment>, c: Comment) {
    c in cs && forall d :: d in cs && d.id == c.id ==> Leq(d.updated, c.updated)
  }

  lemma {:induction false} DedupeLatest(cs: seq<Comment>)
    ensures forall id :: id in Dedupe(cs) <==> exists c :: c in cs && c.id == id
    ensures forall id :: id in Dedupe(cs) ==> Dedupe(cs)[id].id == id && Latest(cs, Dedupe(cs)[id])
  {
    if cs != [] {
      var init, c := cs[..|cs| - 1], cs[|cs| - 1];
      assert cs == init + [c];
      DedupeLatest(init);
      var pool, next := Dedupe(init), Dedupe(cs);
      assert forall d :: d in cs <==> d in init || d == c;
      forall id | id in next ensures next[id].id == id && Latest(cs, next[id]) {
        if id == c.id {
          LeqReflexive(c.updated);
          if id in pool {
            LessOrder(pool[id].updated, c.updated, c.updated);
            forall d | d in init && d.id == id ensures Leq(d.updated, next[id].updated) {
              if next[id] == c { LeqTransitive(d.updated, pool[id].updated, c.updated); }
            }
          }
        }
      }
      forall id ensures id in next <==> exists d :: d in cs && d.id == id {
        if exists d :: d in cs && d.id == id {
          var d :| d in cs && d.id == id;
          if d != c { assert d in init; }
        }
        if id in next && id != c.id {
          var d :| d in init && d.id == id;
          assert d in cs;
        }
      }
    }
  }

  /** No ID has two latest observations that differ. */
  ghost predicate LatestUnique(cs: seq<Comment>) {
    forall a, b :: Latest(cs, a) && Latest(cs, b) && a.id == b.id ==> a == b
  }

  ghost predicate SameComments(a: seq<Comment>, b: seq<Comment>) {
    forall c :: c in a <==> c in b
  }

  lemma SameLatest(a: seq<Comment>, b: seq<Comment>, c: Comment)
    requires SameComments(a, b)
    ensures Latest(a, c) <==> Latest(b, c)
  {}

  lemma LatestMember(cs: seq<Comment>, c: Comment)
    requires Latest(cs, c)
    ensures c in cs
  {}

  lemma DedupeOrderFree(a: seq<Comment>, b: seq<Comment>)
    requires SameComments(a, b) && LatestUnique(a)
    ensures Dedupe(a) == Dedupe(b)
  {
    hide Dedupe;
    hide Latest;
    DedupeLatest(a);
    DedupeLatest(b);
    var p, q := Dedupe(a), Dedupe(b);
    forall id ensures (id in p <==> id in q) && (id in p ==> p[id] == q[id]) {
      if id in p {
        LatestMember(a, p[id]);
        SameLatest(a, b, q[id]);
      }
      if id in q { LatestMember(b, q[id]); }
    }
    assert p.Keys == q.Keys;
  }

  lemma {:induction false} FirstWins(x: Comment, cs: seq<Comment>)
    requires forall d :: d in cs && d.id == x.id ==> Leq(d.updated, x.updated)
    ensures x.id in Dedupe([x] + cs) && Dedupe([x] + cs)[x.id] == x
  {
    var all := [x] + cs;
    if cs == [] {
      assert all[..0] == [];
    } else {
      var init, c := cs[..|cs| - 1], cs[|cs| - 1];
      assert all[..|all| - 1] == [x] + init;
      assert c in cs;
      FirstWins(x, init);
      if c.id == x.id {
        LessOrder(x.updated, c.updated, c.updated);
        LeqTotal(c.updated, x.updated);
        LessOrder(c.updated, x.updated, x.updated);
      }
    }
  }

  lemma AmbiguousLatest(cs: seq<Comment>, a: Comment, b: Comment)
    requires Latest(cs, a) && Latest(cs, b) && a.id == b.id && a != b
    ensures SameComments(cs, [a] + cs) && SameComments(cs, [b] + cs)
    ensures Dedupe([a] + cs) != Dedupe([b] + cs)
  {
    hide Dedupe;
    FirstWins(a, cs);
    FirstWins(b, cs);
  }

  /** Any permutation and duplication gives the same pool exactly when no ID has two different latest observations. */
  lemma RedeliveryIndependence(cs: seq<Comment>)
    ensures LatestUnique(cs) <==> forall other :: SameComments(cs, other) ==> Dedupe(other) == Dedupe(cs)
  {
    hide Dedupe;
    hide Latest;
    hide SameComments;
    if LatestUnique(cs) {
      forall other | SameComments(cs, other) ensures Dedupe(other) == Dedupe(cs) {
        DedupeOrderFree(cs, other);
      }
    } else {
      var a, b :| Latest(cs, a) && Latest(cs, b) && a.id == b.id && a != b;
      AmbiguousLatest(cs, a, b);
    }
  }

  /** The loop over the observations, against the specification; the order of first sight is kept for later loops. */
  method Collect(cs: seq<Comment>) returns (pool: map<string, Comment>, order: seq<string>)
    ensures pool == Dedupe(cs)
    ensures forall id :: id in order <==> id in pool
    ensures forall i, j :: 0 <= i < j < |order| ==> order[i] != order[j]
  {
    pool, order := map[], [];
    for i := 0 to |cs|
      invariant pool == Dedupe(cs[..i])
      invariant forall id :: id in order <==> id in pool
      invariant forall i, j :: 0 <= i < j < |order| ==> order[i] != order[j]
    {
      assert cs[..i + 1][..i] == cs[..i];
      var c := cs[i];
      if c.id !in pool {
        order := order + [c.id];
        pool := pool[c.id := c];
      } else if Less(pool[c.id].updated, c.updated) {
        pool := pool[c.id := c];
      }
    }
    assert cs[..|cs|] == cs;
  }
}
