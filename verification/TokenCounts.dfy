/**
 * How often the reserved token occurs in an upper-cased text: the count by which a marker is told from a quotation of
 * it.
 */
module TokenCounts {
  import opened MarkerEscape

  /** One pass from the left over non-overlapping occurrences. */
  function CountIn(u: string): nat {
    if u == "" then 0 else if From(Exactly, u, 0) then 1 + CountIn(u[LENGTH..]) else CountIn(u[1..])
  }

  function TokenCount(s: string): nat {
    CountIn(UpperText(s))
  }

  lemma {:induction false} CountIsOccurrence(u: string)
    ensures CountIn(u) > 0 <==> exists i :: Occurs(Exactly, u, i)
  {
    if u == "" {
    } else if From(Exactly, u, 0) {
      assert u[0..] == u;
      assert Occurs(Exactly, u, 0);
    } else {
      CountIsOccurrence(u[1..]);
      if i :| Occurs(Exactly, u, i) {
        assert u[0..] == u;
        assert u[i..] == u[1..][i - 1..];
        assert Occurs(Exactly, u[1..], i - 1);
      }
      if i :| Occurs(Exactly, u[1..], i) {
        assert u[1..][i..] == u[i + 1..];
        assert Occurs(Exactly, u, i + 1);
      }
    }
  }

  /** The count is positive exactly if the text is taken for one that carries a marker. */
  lemma CountIsVisible(s: string)
    ensures TokenCount(s) > 0 <==> Visible(s)
  {
    CountIsOccurrence(UpperText(s));
  }

  predicate TokenLetter(c: char) {
    exists k :: 0 <= k < LENGTH && c == TokenAt(k)
  }

  /** A character that is no letter of the token separates the counts. */
  lemma {:induction false} CountSplit(a: string, x: char, b: string)
    requires !TokenLetter(x)
    ensures CountIn(a + [x] + b) == CountIn(a) + CountIn(b)
    decreases |a|
  {
    hide TokenAt;
    var s := a + [x] + b;
    if a == "" {
      assert s == [x] + b && s[1..] == b && s[0] == x;
      assert !Exactly(0, s[0]);
    } else {
      FromSplit(a, x, b);
      if From(Exactly, a, 0) {
        assert s[LENGTH..] == a[LENGTH..] + [x] + b;
        CountSplit(a[LENGTH..], x, b);
      } else {
        assert s[1..] == a[1..] + [x] + b;
        CountSplit(a[1..], x, b);
      }
    }
  }

  lemma FromSplit(a: string, x: char, b: string)
    requires !TokenLetter(x)
    ensures From(Exactly, a + [x] + b, 0) <==> From(Exactly, a, 0)
  {
    hide TokenAt;
    var s := a + [x] + b;
    if From(Exactly, s, 0) {
      assert |a| < LENGTH ==> s[|a|] == x && Exactly(0 + |a|, s[|a|]);
      assert forall i :: 0 <= i < LENGTH ==> a[i] == s[i];
    }
    if From(Exactly, a, 0) {
      assert forall i :: 0 <= i < LENGTH ==> s[i] == a[i];
    }
  }

  // ---- upper-casing and joining ----

  lemma {:induction false} UpperJoin(a: string, b: string)
    ensures UpperText(a + b) == UpperText(a) + UpperText(b)
  {
    if a == "" {
      assert a + b == b;
    } else {
      assert (a + b)[1..] == a[1..] + b;
      UpperJoin(a[1..], b);
    }
  }

  /** A character that stands for itself in upper case and is no letter of the token. */
  predicate Separator(x: char) {
    Upper(x) == [x] && !TokenLetter(x)
  }

  lemma UpperOne(x: char)
    ensures UpperText([x]) == Upper(x)
  {
    assert [x][1..] == "";
  }

  lemma TokenCountSplit(a: string, x: char, b: string)
    requires Separator(x)
    ensures TokenCount(a + [x] + b) == TokenCount(a) + TokenCount(b)
  {
    hide Upper;
    hide UpperText;
    hide TokenLetter;
    UpperJoin(a + [x], b);
    UpperJoin(a, [x]);
    UpperOne(x);
    CountSplit(UpperText(a), x, UpperText(b));
  }

  /** Texts without a letter of the token, or too short for it, hold none. */
  lemma {:induction false} ShortCount(u: string)
    requires |u| < LENGTH
    ensures CountIn(u) == 0
  {
    if u != "" { ShortCount(u[1..]); }
  }

  /** A part of a text that holds the token makes the whole hold it. */
  lemma PartCounts(a: string, b: string, c: string)
    requires TokenCount(b) > 0
    ensures TokenCount(a + b + c) > 0
  {
    hide TokenCount;
    hide UpperText;
    CountIsVisible(b);
    CountIsVisible(a + b + c);
    var u, v, w := UpperText(a), UpperText(b), UpperText(c);
    UpperJoin(a + b, c);
    UpperJoin(a, b);
    var i :| Occurs(Exactly, v, i);
    var s := u + v + w;
    assert forall k :: 0 <= k < LENGTH ==> s[|u| + i..][k] == v[i..][k];
    assert Occurs(Exactly, s, |u| + i);
  }
}
