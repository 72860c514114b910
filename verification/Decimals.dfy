/** Decimal numbers as text. */
module Decimals {
  import opened Text

  function Digit(d: nat): char
    requires d < 10
  {
    ('0' as int + d) as char
  }

  function Digits(n: nat): (s: string)
    ensures |s| >= 1
  {
    if n < 10 then [Digit(n)] else Digits(n / 10) + [Digit(n % 10)]
  }

  /** The number a string of digits denotes. */
  function ValueOf(s: string): int {
    if s == "" then 0 else 10 * ValueOf(s[..|s| - 1]) + (s[|s| - 1] as int - '0' as int)
  }

  lemma {:induction false} DigitsValue(n: nat)
    ensures ValueOf(Digits(n)) == n
  {
    if n >= 10 {
      DigitsValue(n / 10);
      assert Digits(n)[..|Digits(n)| - 1] == Digits(n / 10);
    } else {
      assert Digits(n)[..0] == "";
    }
  }

  predicate IsDigit(c: char) {
    '0' <= c <= '9'
  }

  /** The number of digits a text begins with. */
  function Span(s: string): nat {
    if s != "" && IsDigit(s[0]) then 1 + Span(s[1..]) else 0
  }

  lemma SpanOfDigits(n: nat, x: string)
    requires x == "" || !IsDigit(x[0])
    ensures Span(Digits(n) + x) == |Digits(n)|
  {
    DigitsAre(n);
    SpanOf(Digits(n), x);
  }

  lemma {:induction false} DigitsAre(n: nat)
    ensures forall i :: 0 <= i < |Digits(n)| ==> IsDigit(Digits(n)[i])
  {
    if n >= 10 { DigitsAre(n / 10); }
  }

  lemma {:induction false} SpanOf(d: string, x: string)
    requires forall i :: 0 <= i < |d| ==> IsDigit(d[i])
    requires x == "" || !IsDigit(x[0])
    ensures Span(d + x) == |d|
  {
    if d == "" {
      assert d + x == x;
    } else {
      assert (d + x)[1..] == d[1..] + x;
      SpanOf(d[1..], x);
    }
  }

  /** An integer as a decimal text, with a sign if it is negative. */
  function IntText(n: int): string {
    if n < 0 then "-" + Digits(-n) else Digits(n)
  }

  lemma SignShown(n: int, x: string)
    ensures IntText(n) != "" && ((IntText(n) + x)[0] == '-' <==> n < 0)
    ensures IsDigit(IntText(n)[0]) || IntText(n)[0] == '-'
  {
    if n >= 0 { DigitsAre(n); }
    assert (IntText(n) + x)[0] == IntText(n)[0];
  }

  lemma DigitsEnd(k: nat, l: nat, x: string, y: string)
    requires Digits(k) + x == Digits(l) + y
    requires (x == "" || !IsDigit(x[0])) && (y == "" || !IsDigit(y[0]))
    ensures k == l && x == y
  {
    hide Digits;
    SpanOfDigits(k, x);
    SpanOfDigits(l, y);
    var a := Digits(k) + x;
    assert Digits(k) == a[..|Digits(k)|] == Digits(l);
    assert x == a[|Digits(k)|..] == y;
    DigitsValue(k);
    DigitsValue(l);
  }

  /** An integer that is not followed by a digit can be read off the text, and so can what follows. */
  lemma IntTextEnds(m: int, n: int, x: string, y: string)
    requires IntText(m) + x == IntText(n) + y
    requires (x == "" || !IsDigit(x[0])) && (y == "" || !IsDigit(y[0]))
    ensures m == n && x == y
  {
    hide Digits;
    SignShown(m, x);
    SignShown(n, y);
    if m < 0 {
      assert (IntText(m) + x)[1..] == Digits(-m) + x && (IntText(n) + y)[1..] == Digits(-n) + y;
      DigitsEnd(-m, -n, x, y);
    } else {
      DigitsEnd(m, n, x, y);
    }
  }

  // ---- order ----

  lemma {:induction false} LeqLast(x: string, y: string, c: char, d: char)
    requires |x| == |y|
    ensures Leq(x + [c], y + [d]) <==> (Leq(x, y) && x != y) || (x == y && c <= d)
  {
    if x == "" {
      assert [c][1..] == "" && [d][1..] == "" && x + [c] == [c] && y + [d] == [d];
    } else {
      assert (x + [c])[1..] == x[1..] + [c] && (y + [d])[1..] == y[1..] + [d];
      assert x == [x[0]] + x[1..] && y == [y[0]] + y[1..];
      LeqLast(x[1..], y[1..], c, d);
    }
  }

  lemma DigitsSame(m: nat, n: nat)
    ensures Digits(m) == Digits(n) <==> m == n
  {
    DigitsValue(m);
    DigitsValue(n);
  }

  /** Shorter first and then by characters: on decimal numbers that is the order of the numbers. */
  lemma {:induction false} DigitsOrder(m: nat, n: nat)
    ensures |Digits(m)| < |Digits(n)| || (|Digits(m)| == |Digits(n)| && Leq(Digits(m), Digits(n))) <==> m <= n
    decreases m
  {
    if m >= 10 && n >= 10 {
      var x, y := Digits(m / 10), Digits(n / 10);
      DigitsOrder(m / 10, n / 10);
      DigitsSame(m / 10, n / 10);
      if |x| == |y| { LeqLast(x, y, Digit(m % 10), Digit(n % 10)); }
    } else if m < 10 && n < 10 {
      assert Digits(m)[1..] == "" && Digits(n)[1..] == "";
      LeqLast("", "", Digit(m), Digit(n));
      assert "" + Digits(m) == Digits(m) && "" + Digits(n) == Digits(n);
    }
  }
}
