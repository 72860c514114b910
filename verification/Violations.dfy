/** Sets of integrity violations in canonical form: one entry per binding, bindings ascending. */
module Violations {
  import opened Vocabulary
  import opened Text

  function Bindings(vs: seq<Violation>): (bs: seq<Binding>)
    ensures |bs| == |vs|
    ensures forall i :: 0 <= i < |vs| ==> bs[i] == vs[i].binding
  {
    seq(|vs|, i requires 0 <= i < |vs| => vs[i].binding)
  }

  ghost function BindingSet(vs: seq<Violation>): set<Binding> {
    set v | v in vs :: v.binding
  }

  /** The evidence kept for a binding: the first one reported. */
  function FirstByBinding(vs: seq<Violation>): map<Binding, Violation> {
    if vs == [] then map[] else
      var m := FirstByBinding(vs[..|vs| - 1]);
      var last := vs[|vs| - 1];
      if last.binding in m then m else m[last.binding := last]
  }

  lemma {:induction false} FirstFacts(vs: seq<Violation>)
    ensures forall b :: b in FirstByBinding(vs) ==> FirstByBinding(vs)[b] in vs && FirstByBinding(vs)[b].binding == b
    ensures forall v :: v in vs ==> v.binding in FirstByBinding(vs)
  {
    if vs != [] {
      var init, last := vs[..|vs| - 1], vs[|vs| - 1];
      assert vs == init + [last];
      FirstFacts(init);
    }
  }

  /** Specification of the canonical form. */
  function Canon(vs: seq<Violation>): (c: seq<Violation>) {
    var m := FirstByBinding(vs);
    var keys := Sorted(m.Keys);
    seq(|keys|, i requires 0 <= i < |keys| => m[keys[i]])
  }

  ghost predicate Canonical(vs: seq<Violation>) {
    Ascending(Bindings(vs))
  }

  lemma CanonBindings(vs: seq<Violation>)
    ensures Bindings(Canon(vs)) == Sorted(FirstByBinding(vs).Keys)
    ensures Canonical(Canon(vs))
    ensures forall b :: b in Bindings(Canon(vs)) <==> b in BindingSet(vs)
  {
    var m := FirstByBinding(vs);
    SortedAscends(m.Keys);
    FirstFacts(vs);
    forall b ensures b in m <==> b in BindingSet(vs) {}
  }

  lemma CanonMembers(vs: seq<Violation>, v: Violation)
    ensures v in Canon(vs) <==> v.binding in FirstByBinding(vs) && FirstByBinding(vs)[v.binding] == v
  {
    var m := FirstByBinding(vs);
    var keys := Sorted(m.Keys);
    FirstFacts(vs);
    if v.binding in m && m[v.binding] == v {
      var i :| 0 <= i < |keys| && keys[i] == v.binding;
      assert Canon(vs)[i] == v;
    }
  }

  /** A canonical sequence is fixed by the map from bindings to evidence. */
  lemma CanonicalUnique(a: seq<Violation>, b: seq<Violation>)
    requires Canonical(a) && Canonical(b)
    requires forall v :: v in a <==> v in b
    ensures a == b
  {
    forall k ensures k in Bindings(a) <==> k in Bindings(b) {
      if k in Bindings(a) {
        var i :| 0 <= i < |a| && Bindings(a)[i] == k;
        assert a[i] in b;
      }
      if k in Bindings(b) {
        var i :| 0 <= i < |b| && Bindings(b)[i] == k;
        assert b[i] in a;
      }
    }
    AscendingUnique(Bindings(a), Bindings(b));
    DistinctBindings(b);
    forall i | 0 <= i < |a| ensures a[i] == b[i] {
      assert a[i] in b;
      var j :| 0 <= j < |b| && b[j] == a[i];
      assert b[j].binding == Bindings(a)[i] == Bindings(b)[i] == b[i].binding;
    }
  }

  lemma DistinctBindings(vs: seq<Violation>)
    requires Canonical(vs)
    ensures forall i, j :: 0 <= i < j < |vs| ==> vs[i].binding != vs[j].binding
  {
    forall i, j | 0 <= i < j < |vs| ensures vs[i].binding != vs[j].binding {
      assert Less(Bindings(vs)[i], Bindings(vs)[j]);
    }
  }

  /** With distinct bindings every entry is its own first report. */
  lemma {:induction false} FirstOfDistinct(vs: seq<Violation>)
    requires forall i, j :: 0 <= i < j < |vs| ==> vs[i].binding != vs[j].binding
    ensures forall v :: v in vs ==> v.binding in FirstByBinding(vs) && FirstByBinding(vs)[v.binding] == v
  {
    if vs != [] {
      var init := vs[..|vs| - 1];
      var last := vs[|vs| - 1];
      assert vs == init + [last];
      FirstOfDistinct(init);
      FirstFacts(init);
      assert last.binding !in FirstByBinding(init);
    }
  }

  /** Canonical sequences are exactly the fixed points of the canonicalisation. */
  lemma CanonFixedPoint(vs: seq<Violation>)
    ensures Canon(vs) == vs <==> Canonical(vs)
  {
    CanonBindings(vs);
    if Canonical(vs) {
      DistinctBindings(vs);
      FirstOfDistinct(vs);
      forall v ensures v in Canon(vs) <==> v in vs {
        CanonMembers(vs, v);
      }
      CanonicalUnique(Canon(vs), vs);
    }
  }

  lemma CanonIdempotent(vs: seq<Violation>)
    ensures Canon(Canon(vs)) == Canon(vs)
  {
    CanonBindings(vs);
    CanonFixedPoint(Canon(vs));
  }

  lemma FirstOfAppend(vs: seq<Violation>, v: Violation)
    ensures FirstByBinding(vs + [v]) ==
            if v.binding in FirstByBinding(vs) then FirstByBinding(vs) else FirstByBinding(vs)[v.binding := v]
  {
    assert (vs + [v])[..|vs + [v]| - 1] == vs;
  }

  /** Left-biased union commutes with a first-wins insertion. */
  lemma UnionInsert(m: map<Binding, Violation>, n: map<Binding, Violation>, k: Binding, v: Violation)
    ensures k in m + n && k !in m ==> m[k := v] + n == m + n
    ensures k !in m + n ==> m[k := v] + n == (m + n)[k := v]
  {}

  /** First-wins lookup over a concatenation prefers the left part. */
  lemma {:induction false} FirstOfConcat(a: seq<Violation>, b: seq<Violation>)
    ensures FirstByBinding(a + b) == FirstByBinding(b) + FirstByBinding(a)
  {
    if b == [] {
      assert a + b == a;
    } else {
      var init, last := b[..|b| - 1], b[|b| - 1];
      assert b == init + [last] && a + b == (a + init) + [last];
      FirstOfConcat(a, init);
      FirstOfAppend(a + init, last);
      FirstOfAppend(init, last);
      UnionInsert(FirstByBinding(init), FirstByBinding(a), last.binding, last);
    }
  }

  lemma FirstOfCanonAt(vs: seq<Violation>, b: Binding)
    ensures b in FirstByBinding(Canon(vs)) <==> b in FirstByBinding(vs)
    ensures b in FirstByBinding(vs) ==> FirstByBinding(Canon(vs))[b] == FirstByBinding(vs)[b]
  {
    hide Canon;
    hide FirstByBinding;
    var c := Canon(vs);
    if b in FirstByBinding(vs) {
      var v := FirstByBinding(vs)[b];
      assert v.binding == b by { FirstFacts(vs); }
      CanonMembers(vs, v);
      assert v in c;
      CanonBindings(vs);
      DistinctBindings(c);
      FirstOfDistinct(c);
    }
    if b in FirstByBinding(c) {
      var v := FirstByBinding(c)[b];
      assert v in c && v.binding == b by { FirstFacts(c); }
      CanonMembers(vs, v);
    }
  }

  lemma FirstOfCanon(vs: seq<Violation>)
    ensures FirstByBinding(Canon(vs)) == FirstByBinding(vs)
  {
    hide Canon;
    hide FirstByBinding;
    var m, n := FirstByBinding(Canon(vs)), FirstByBinding(vs);
    forall b ensures (b in m <==> b in n) && (b in n ==> m[b] == n[b]) {
      FirstOfCanonAt(vs, b);
    }
    assert m.Keys == n.Keys;
  }

  /** Canonicalising a part first changes nothing: unions may be taken one detection at a time. */
  lemma CanonAbsorbs(a: seq<Violation>, b: seq<Violation>)
    ensures Canon(Canon(a) + b) == Canon(a + b)
  {
    FirstOfConcat(Canon(a), b);
    FirstOfConcat(a, b);
    FirstOfCanon(a);
  }

  /** The binding sequence depends on the set of bindings alone. */
  lemma CanonBindingsFixedBySet(a: seq<Violation>, b: seq<Violation>)
    ensures BindingSet(a) == BindingSet(b) <==> Bindings(Canon(a)) == Bindings(Canon(b))
  {
    CanonBindings(a);
    CanonBindings(b);
    if BindingSet(a) == BindingSet(b) {
      AscendingUnique(Bindings(Canon(a)), Bindings(Canon(b)));
    } else {
      forall k ensures k in BindingSet(a) <==> k in Bindings(Canon(a)) {}
      forall k ensures k in BindingSet(b) <==> k in Bindings(Canon(b)) {}
    }
  }

  lemma BindingSetOfAppend(vs: seq<Violation>, v: Violation)
    ensures BindingSet(vs + [v]) == BindingSet(vs) + {v.binding}
  {
    forall b ensures b in BindingSet(vs + [v]) <==> b in BindingSet(vs) || b == v.binding {
      if b in BindingSet(vs) {
        var w :| w in vs && w.binding == b;
        assert w in vs + [v];
      }
      assert v in vs + [v];
    }
  }

  /** A further report of a binding already present is dropped. */
  lemma CanonKeeps(vs: seq<Violation>, v: Violation)
    requires Canonical(vs) && v.binding in BindingSet(vs)
    ensures Canon(vs + [v]) == vs
  {
    hide Canonical;
    CanonFixedPoint(vs);
    FirstOfAppend(vs, v);
    FirstFacts(vs);
    var w :| w in vs && w.binding == v.binding;
    assert w.binding in FirstByBinding(vs);
  }

  /** Adding one detection to a canonical set: the first evidence for a binding is kept. */
  lemma CanonAdd(vs: seq<Violation>, v: Violation)
    requires Canonical(vs)
    ensures Canonical(Canon(vs + [v]))
    ensures BindingSet(Canon(vs + [v])) == BindingSet(vs) + {v.binding}
    ensures Canon(vs + [v]) == vs <==> v.binding in BindingSet(vs)
    ensures Bindings(Canon(vs + [v])) == Bindings(vs) <==> v.binding in BindingSet(vs)
  {
    hide Canon;
    hide FirstByBinding;
    hide Canonical;
    hide BindingSet;
    var c := Canon(vs + [v]);
    CanonBindings(vs + [v]);
    BindingSetOfBindings(c);
    BindingSetOfBindings(vs);
    BindingSetOfAppend(vs, v);
    assert v.binding in Bindings(c);
    if v.binding in BindingSet(vs) {
      CanonKeeps(vs, v);
    }
  }

  lemma BindingSetOfBindings(vs: seq<Violation>)
    ensures forall b :: b in BindingSet(vs) <==> b in Bindings(vs)
  {
    forall b ensures b in BindingSet(vs) <==> b in Bindings(vs) {
      if b in BindingSet(vs) {
        var v :| v in vs && v.binding == b;
        var i :| 0 <= i < |vs| && vs[i] == v;
        assert Bindings(vs)[i] == b;
      }
    }
  }

  /** When a binding fixes its evidence, canonicalising drops repetitions only. */
  lemma {:induction false} FirstOfFunctional(vs: seq<Violation>)
    requires forall a, b :: a in vs && b in vs && a.binding == b.binding ==> a == b
    ensures forall v :: v in vs ==> v.binding in FirstByBinding(vs) && FirstByBinding(vs)[v.binding] == v
  {
    FirstFacts(vs);
  }

  lemma CanonKeepsMembers(vs: seq<Violation>)
    requires forall a, b :: a in vs && b in vs && a.binding == b.binding ==> a == b
    ensures forall v :: v in Canon(vs) <==> v in vs
  {
    hide Canon;
    hide FirstByBinding;
    FirstFacts(vs);
    FirstOfFunctional(vs);
    forall v ensures v in Canon(vs) <==> v in vs {
      CanonMembers(vs, v);
    }
  }

  /** The entries whose binding is not among those recorded, in order. */
  function Unrecorded(vs: seq<Violation>, recorded: set<Binding>): (rest: seq<Violation>)
    ensures forall v :: v in rest <==> v in vs && v.binding !in recorded
  {
    if vs == [] then [] else
      var tail := Unrecorded(vs[1..], recorded);
      assert vs == [vs[0]] + vs[1..];
      if vs[0].binding in recorded then tail else [vs[0]] + tail
  }

  lemma {:induction false} UnrecordedCanonical(vs: seq<Violation>, recorded: set<Binding>)
    requires Canonical(vs)
    ensures Canonical(Unrecorded(vs, recorded))
    ensures BindingSet(Unrecorded(vs, recorded)) == BindingSet(vs) - recorded
  {
    if vs != [] {
      var tail := Unrecorded(vs[1..], recorded);
      CanonicalTail(vs);
      UnrecordedCanonical(vs[1..], recorded);
      if vs[0].binding !in recorded {
        var rest := [vs[0]] + tail;
        forall i, j | 0 <= i < j < |rest| ensures Less(Bindings(rest)[i], Bindings(rest)[j]) {
          if i == 0 {
            assert tail[j - 1] in vs[1..];
            var k :| 0 <= k < |vs[1..]| && vs[1..][k] == tail[j - 1];
            assert Less(Bindings(vs)[0], Bindings(vs)[k + 1]);
          } else {
            assert Less(Bindings(tail)[i - 1], Bindings(tail)[j - 1]);
          }
        }
      }
    }
  }

  lemma CanonicalTail(vs: seq<Violation>)
    requires Canonical(vs) && vs != []
    ensures Canonical(vs[1..])
  {
    assert Bindings(vs[1..]) == Bindings(vs)[1..];
  }

  /** The dictionary loop of the canonicalisation, against the specification. */
  method Canonicalize(refs: seq<Violation>) returns (canonical: seq<Violation>)
    ensures canonical == Canon(refs)
  {
    var unique: map<Binding, Violation> := map[];
    for i := 0 to |refs|
      invariant unique == FirstByBinding(refs[..i])
    {
      assert refs[..i + 1][..i] == refs[..i];
      if refs[i].binding !in unique {
        unique := unique[refs[i].binding := refs[i]];
      }
    }
    assert refs[..|refs|] == refs;
    var keys := Sorted(unique.Keys);
    canonical := seq(|keys|, i requires 0 <= i < |keys| => unique[keys[i]]);
  }
}
