/** The code-point order on strings that sorting and timestamp comparison rely on. */
module Text {

  predicate Leq(a: string, b: string) {
    a == [] || (b != [] && (a[0] < b[0] || (a[0] == b[0] && Leq(a[1..], b[1..]))))
  }

  predicate Less(a: string, b: string) {
    Leq(a, b) && a != b
  }

  lemma {:induction false} LeqReflexive(a: string)
    ensures Leq(a, a)
  {
    if a != [] { LeqReflexive(a[1..]); }
  }

  lemma {:induction false} LeqTotal(a: string, b: string)
    ensures Leq(a, b) || Leq(b, a)
  {
    if a != [] && b != [] { LeqTotal(a[1..], b[1..]); }
  }

  lemma {:induction false} LeqAntisymmetric(a: string, b: string)
    requires Leq(a, b) && Leq(b, a)
    ensures a == b
  {
    if a != [] && b != [] {
      LeqAntisymmetric(a[1..], b[1..]);
      assert a == [a[0]] + a[1..] && b == [b[0]] + b[1..];
    }
  }

  lemma {:induction false} LeqTransitive(a: string, b: string, c: string)
    requires Leq(a, b) && Leq(b, c)
    ensures Leq(a, c)
  {
    if a != [] && b != [] && c != [] && a[0] == b[0] && b[0] == c[0] {
      LeqTransitive(a[1..], b[1..], c[1..]);
    }
  }

  /** Less is a strict total order; the three facts sorting needs of a triple. */
  lemma LessOrder(a: string, b: string, c: string)
    ensures !Less(a, a)
    ensures a == b || Less(a, b) || Less(b, a)
    ensures !(Less(a, b) && Less(b, a))
    ensures Less(a, b) && Less(b, c) ==> Less(a, c)
  {
    LeqTotal(a, b);
    if Leq(a, b) && Leq(b, a) { LeqAntisymmetric(a, b); }
    if Leq(a, b) && Leq(b, c) {
      LeqTransitive(a, b, c);
      if a == c { LeqAntisymmetric(a, b); }
    }
  }

  /** A nonempty finite set of strings has exactly one least member. */
  lemma {:induction false} LeastExists(ks: set<string>) returns (least: string)
    requires ks != {}
    ensures least in ks && forall k :: k in ks ==> Leq(least, k)
    decreases |ks|
  {
    var k :| k in ks;
    var rest := ks - {k};
    LeqReflexive(k);
    if rest == {} {
      assert ks == {k};
      least := k;
    } else {
      var m := LeastExists(rest);
      LeqTotal(k, m);
      if Leq(k, m) {
        least := k;
        forall j | j in ks ensures Leq(k, j) {
          if j != k { LeqTransitive(k, m, j); }
        }
      } else {
        least := m;
      }
    }
  }

  function Least(ks: set<string>): (least: string)
    requires ks != {}
    ensures least in ks && forall k :: k in ks ==> Leq(least, k)
  {
    LeastUnique(ks);
    var least :| least in ks && forall k :: k in ks ==> Leq(least, k);
    least
  }

  lemma LeastUnique(ks: set<string>)
    requires ks != {}
    ensures exists least :: least in ks && forall k :: k in ks ==> Leq(least, k)
    ensures forall a, b ::
              (a in ks && b in ks && (forall k :: k in ks ==> Leq(a, k)) && (forall k :: k in ks ==> Leq(b, k)))
              ==> a == b
  {
    var least := LeastExists(ks);
    forall a, b | a in ks && b in ks && (forall k :: k in ks ==> Leq(a, k)) && (forall k :: k in ks ==> Leq(b, k))
      ensures a == b
    {
      LeqAntisymmetric(a, b);
    }
  }

  ghost predicate Ascending(keys: seq<string>) {
    forall i, j :: 0 <= i < j < |keys| ==> Less(keys[i], keys[j])
  }

  /** The keys of a dictionary in ascending order. */
  function Sorted(ks: set<string>): (keys: seq<string>)
    ensures forall k :: k in keys <==> k in ks
    ensures |keys| == |ks|
    decreases |ks|
  {
    if ks == {} then [] else
      var k := Least(ks);
      var rest := Sorted(ks - {k});
      assert forall x :: x in [k] + rest <==> x == k || x in rest;
      [k] + rest
  }

  lemma {:induction false} SortedAscends(ks: set<string>)
    ensures Ascending(Sorted(ks))
    decreases |ks|
  {
    if ks != {} {
      var k := Least(ks);
      var rest := Sorted(ks - {k});
      SortedAscends(ks - {k});
      forall i, j | 0 <= i < j < |Sorted(ks)| ensures Less(Sorted(ks)[i], Sorted(ks)[j]) {
        if i == 0 {
          assert rest[j - 1] in rest;
        }
      }
    }
  }

  /** An ascending sequence is determined by its members. */
  lemma {:induction false} AscendingUnique(a: seq<string>, b: seq<string>)
    requires Ascending(a) && Ascending(b)
    requires forall k :: k in a <==> k in b
    ensures a == b
  {
    assert (a != [] ==> a[0] in a) && (b != [] ==> b[0] in b);
    if a != [] && b != [] {
      var i :| 0 <= i < |b| && b[i] == a[0];
      var j :| 0 <= j < |a| && a[j] == b[0];
      LessOrder(a[0], b[0], a[0]);
      assert a[0] == b[0];
      forall k ensures k in a[1..] <==> k in b[1..] {
        MemberOfTail(a, k);
        MemberOfTail(b, k);
      }
      AscendingUnique(a[1..], b[1..]);
      assert a == [a[0]] + a[1..] && b == [b[0]] + b[1..];
    }
  }

  lemma MemberOfTail(a: seq<string>, k: string)
    requires Ascending(a) && a != []
    ensures k in a[1..] <==> k in a && k != a[0]
  {
    assert a == [a[0]] + a[1..];
    if k in a[1..] {
      var i :| 0 <= i < |a[1..]| && a[1..][i] == k;
      assert a[i + 1] == k;
      LessOrder(a[0], a[i + 1], a[0]);
    }
  }
}
