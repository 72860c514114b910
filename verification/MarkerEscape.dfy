/** Escaping the reserved marker token in text written by an agent. */
module MarkerEscape {

  const LENGTH: nat := 14

  /** The reserved token, character by character. */
  function TokenAt(k: nat): char {
    if k <= 1 then 'C' else if k == 2 then '_' else if k == 3 then 'R' else if k == 4 then 'E' else if k == 5 then 'V'
    else if k == 6 then 'I' else if k == 7 then 'E' else if k == 8 then 'W' else if k == 9 then '_'
    else if k == 10 then 'M'
    else if k == 11 then 'E' else if k == 12 then 'T' else 'A'
  }

  function EscapedAt(k: nat): char {
    if TokenAt(k) == '_' then '~' else TokenAt(k)
  }

  function Token(): string {
    seq(LENGTH, (k: nat) => TokenAt(k))
  }

  function Escaped(): string {
    seq(LENGTH, (k: nat) => EscapedAt(k))
  }

  lemma TokenText()
    ensures Token() == "CC_REVIEW_META" && Escaped() == "CC~REVIEW~META"
  {}

  /** Case-insensitive matching: ASCII letters, and the dotted and the dotless i as an I. */
  function Fold(c: char): char {
    if 'a' <= c <= 'z' then (c as int - 'a' as int + 'A' as int) as char
    else if c == '\U{0130}' || c == '\U{0131}' then 'I'
    else c
  }

  predicate Fits(k: nat, c: char) {
    Fold(c) == TokenAt(k)
  }

  /** A string that begins with the rest of a pattern of the token's length, from its k-th character on. */
  predicate From(fits: (nat, char) -> bool, s: string, k: nat) {
    k <= LENGTH && |s| >= LENGTH - k && forall i :: 0 <= i < LENGTH - k ==> fits(k + i, s[i])
  }

  predicate Here(s: string) {
    From(Fits, s, 0)
  }

  lemma DropPast(head: string, tail: string, i: nat)
    requires |head| <= i <= |head| + |tail|
    ensures (head + tail)[i..] == tail[i - |head|..]
  {}

  /** One pass from the left over non-overlapping matches. */
  function Sanitize(s: string): (out: string)
    ensures |out| == |s|
  {
    if s == "" then ""
    else if Here(s) then Escaped() + Sanitize(s[LENGTH..])
    else [s[0]] + Sanitize(s[1..])
  }

  function EscapedCount(s: string): nat {
    if s == "" then 0 else if Here(s) then 1 + EscapedCount(s[LENGTH..]) else EscapedCount(s[1..])
  }

  ghost predicate Occurs(fits: (nat, char) -> bool, s: string, i: int) {
    0 <= i <= |s| && From(fits, s[i..], 0)
  }

  /** A pattern that starts like the token: two letters C, then an underscore, and no C afterwards. */
  ghost predicate StartsLikeToken(fits: (nat, char) -> bool) {
    && (forall c :: fits(0, c) ==> c == 'C' || c == 'c')
    && (forall c :: fits(1, c) ==> c == 'C' || c == 'c')
    && (forall c :: fits(2, c) <==> c == '_')
    && (forall k: nat, c :: 2 <= k < LENGTH && fits(k, c) ==> c != 'C' && c != 'c')
  }

  lemma TokenStartsLikeToken()
    ensures StartsLikeToken(Fits)
  {}

  /** The replacement gives no part of itself to a match that begins earlier: whatever follows was there before. */
  lemma {:induction false} NothingNewFollows(fits: (nat, char) -> bool, s: string, k: nat)
    requires StartsLikeToken(fits) && 1 <= k
    ensures From(fits, Sanitize(s), k) <==> From(fits, s, k)
    decreases |s|
  {
    if k < LENGTH && s != "" {
      if Here(s) {
        assert Sanitize(s)[0] == 'C' && Sanitize(s)[1] == 'C';
        assert Fits(0, s[0]) && Fits(1, s[1]);
      } else {
        NothingNewFollows(fits, s[1..], k + 1);
        FromStep(fits, s, k);
        FromStep(fits, Sanitize(s), k);
        assert Sanitize(s)[1..] == Sanitize(s[1..]);
      }
    }
  }

  lemma FromStep(fits: (nat, char) -> bool, s: string, k: nat)
    requires k < LENGTH && s != ""
    ensures From(fits, s, k) <==> fits(k, s[0]) && From(fits, s[1..], k + 1)
  {
    if fits(k, s[0]) && From(fits, s[1..], k + 1) {
      forall i | 0 <= i < LENGTH - k ensures fits(k + i, s[i]) {
        if i > 0 { assert s[i] == s[1..][i - 1]; }
      }
    }
    if From(fits, s, k) {
      forall i | 0 <= i < LENGTH - (k + 1) ensures fits(k + 1 + i, s[1..][i]) {
        assert s[1..][i] == s[i + 1];
      }
    }
  }

  /** No occurrence of such a pattern reaches into a replacement, nor into the token it replaced. */
  lemma BlockExcludes(fits: (nat, char) -> bool, block: string, rest: string, i: int)
    requires StartsLikeToken(fits) && |block| == LENGTH && 0 <= i < LENGTH
    requires (forall k :: 0 <= k < LENGTH ==> Fits(k, block[k])) || block == Escaped()
    ensures (i == 0 && block != Escaped()) || !Occurs(fits, block + rest, i)
  {
    var s := block + rest;
    if Occurs(fits, s, i) {
      assert s[i..][0] == block[i] && fits(0, s[i..][0]);
      assert i <= 1;
      assert s[i..][1] == block[i + 1] && fits(1, s[i..][1]);
      assert s[i..][2] == block[i + 2] && fits(2, s[i..][2]);
    }
  }

  /**
   * Escaping neither creates nor destroys an occurrence of a pattern that starts like the token and is not the token.
   */
  lemma {:induction false} OccurrencesKept(fits: (nat, char) -> bool, s: string, i: int)
    requires StartsLikeToken(fits)
    ensures Occurs(fits, Sanitize(s), i) ==> Occurs(fits, s, i)
    decreases |s|
  {
    hide Fits;
    hide StartsLikeToken;
    if s != "" && 0 <= i <= |s| {
      if Here(s) {
        if i < LENGTH {
          BlockExcludes(fits, Escaped(), Sanitize(s[LENGTH..]), i);
        } else {
          OccurrencesKept(fits, s[LENGTH..], i - LENGTH);
          DropPast(Escaped(), Sanitize(s[LENGTH..]), i);
          assert s[i..] == s[LENGTH..][i - LENGTH..];
        }
      } else if i > 0 {
        OccurrencesKept(fits, s[1..], i - 1);
        DropPast([s[0]], Sanitize(s[1..]), i);
        assert s[i..] == s[1..][i - 1..];
      } else {
        assert Sanitize(s)[0..] == Sanitize(s) && s[0..] == s;
        FromStep(fits, s, 0);
        FromStep(fits, Sanitize(s), 0);
        assert Sanitize(s)[1..] == Sanitize(s[1..]);
        NothingNewFollows(fits, s[1..], 1);
      }
    }
  }

  // ---- the fixed point ----

  ghost predicate TokenFree(s: string) {
    forall i :: !Occurs(Fits, s, i)
  }

  lemma {:induction false} NoTokenAt(s: string, i: int)
    ensures !Occurs(Fits, Sanitize(s), i)
    decreases |s|
  {
    hide Fits;
    TokenStartsLikeToken();
    hide StartsLikeToken;
    if s != "" && 0 <= i <= |s| {
      if Here(s) {
        if i < LENGTH {
          BlockExcludes(Fits, Escaped(), Sanitize(s[LENGTH..]), i);
        } else {
          NoTokenAt(s[LENGTH..], i - LENGTH);
          DropPast(Escaped(), Sanitize(s[LENGTH..]), i);
        }
      } else if i > 0 {
        NoTokenAt(s[1..], i - 1);
        DropPast([s[0]], Sanitize(s[1..]), i);
      } else {
        assert Sanitize(s)[0..] == Sanitize(s);
        FromStep(Fits, s, 0);
        FromStep(Fits, Sanitize(s), 0);
        assert Sanitize(s)[1..] == Sanitize(s[1..]);
        NothingNewFollows(Fits, s[1..], 1);
      }
    }
  }

  /** No reserved token is left in any letter case, not even across the borders of replacements. */
  lemma NoTokenLeft(s: string)
    ensures TokenFree(Sanitize(s))
  {
    forall i ensures !Occurs(Fits, Sanitize(s), i) {
      NoTokenAt(s, i);
    }
  }

  lemma {:induction false} FreeUnchanged(s: string)
    requires TokenFree(s)
    ensures Sanitize(s) == s && EscapedCount(s) == 0
  {
    if s != "" {
      assert s[0..] == s && !Occurs(Fits, s, 0);
      forall i ensures !Occurs(Fits, s[1..], i) {
        if 0 <= i <= |s[1..]| {
          assert s[1..][i..] == s[i + 1..];
          assert !Occurs(Fits, s, i + 1);
        }
      }
      FreeUnchanged(s[1..]);
    }
  }

  lemma {:induction false} CountNoticesTokens(s: string)
    requires EscapedCount(s) == 0
    ensures Sanitize(s) == s
  {
    if s != "" && !Here(s) { CountNoticesTokens(s[1..]); }
  }

  /** A text is left alone exactly if it holds no token, and the count says so. */
  lemma UnchangedMeaning(s: string)
    ensures Sanitize(s) == s <==> TokenFree(s)
    ensures EscapedCount(s) == 0 <==> TokenFree(s)
  {
    NoTokenLeft(s);
    if TokenFree(s) { FreeUnchanged(s); }
    if EscapedCount(s) == 0 { CountNoticesTokens(s); }
  }

  lemma SanitizeIdempotent(s: string)
    ensures Sanitize(Sanitize(s)) == Sanitize(s)
  {
    NoTokenLeft(s);
    UnchangedMeaning(Sanitize(s));
  }

  /** What escaping does to a character: at most its case changes, or an underscore becomes a tilde. */
  lemma {:induction false} SanitizePointwise(s: string, i: int)
    requires 0 <= i < |s|
    ensures Fold(Sanitize(s)[i]) == Fold(s[i]) || (s[i] == '_' && Sanitize(s)[i] == '~')
    decreases |s|
  {
    if Here(s) {
      if i < LENGTH {
        assert Sanitize(s)[i] == EscapedAt(i) && Fits(i, s[i]);
      } else {
        SanitizePointwise(s[LENGTH..], i - LENGTH);
      }
    } else if i > 0 {
      SanitizePointwise(s[1..], i - 1);
    }
  }

  // ---- how later stages look for the token: in the upper-cased text ----

  /**
   * The upper-case form of a character, as far as it can hold a letter of the token: besides the ASCII letters and the
   * dotless i these are the characters whose upper-case form is several characters long.
   */
  function Upper(c: char): (u: string)
    ensures u != ""
  {
    if 'a' <= c <= 'z' then [(c as int - 'a' as int + 'A' as int) as char]
    else if c == '\U{0131}' then ['I']
    else if c == '\U{1E9A}' then ['A', '\U{02BE}']
    else if c == '\U{1E97}' then ['T', '\U{0308}']
    else if c == '\U{1E98}' then ['W', '\U{030A}']
    else if c == '\U{FB01}' then ['F', 'I']
    else if c == '\U{FB03}' then ['F', 'F', 'I']
    else if c == '\U{FB05}' || c == '\U{FB06}' then ['S', 'T']
    else [c]
  }

  function UpperText(s: string): string {
    if s == "" then "" else Upper(s[0]) + UpperText(s[1..])
  }

  /** The token as it is found in an upper-cased text. */
  predicate Exactly(k: nat, c: char) {
    c == TokenAt(k)
  }

  ghost predicate Visible(s: string) {
    exists i :: Occurs(Exactly, UpperText(s), i)
  }

  /** A character that shows as this one of the token once upper-cased. */
  predicate Shows(k: nat, c: char) {
    if k == LENGTH - 1 && c == '\U{1E9A}' then true else c != '\U{0130}' && Fits(k, c)
  }

  lemma {:induction false} ShowsFrom(s: string, k: nat)
    requires k <= LENGTH
    ensures From(Exactly, UpperText(s), k) <==> From(Shows, s, k)
    decreases |s|
  {
    if k < LENGTH && s != "" {
      var u := UpperText(s);
      FromStep(Shows, s, k);
      FromStep(Exactly, u, k);
      ShowsFrom(s[1..], k + 1);
      if |Upper(s[0])| == 1 {
        assert u[1..] == UpperText(s[1..]);
      } else if k + 1 < LENGTH {
        FromStep(Exactly, u[1..], k + 1);
        assert u[1..][0] == Upper(s[0])[1];
      }
    }
  }

  lemma {:induction false} UpperedOccurrence(s: string, j: int)
    requires Occurs(Exactly, UpperText(s), j)
    ensures exists i :: Occurs(Shows, s, i)
    decreases |s|
  {
    var u := UpperText(s);
    if j == 0 {
      assert u[0..] == u && s[0..] == s;
      ShowsFrom(s, 0);
      assert Occurs(Shows, s, 0);
    } else {
      var n := |Upper(s[0])|;
      assert u[j..][0] == u[j] && Exactly(0, u[j..][0]);
      assert j >= n;
      assert u[j..] == UpperText(s[1..])[j - n..];
      UpperedOccurrence(s[1..], j - n);
      var i :| Occurs(Shows, s[1..], i);
      assert s[1..][i..] == s[i + 1..];
      assert Occurs(Shows, s, i + 1);
    }
  }

  lemma {:induction false} ShownOccurrence(s: string, i: int)
    requires Occurs(Shows, s, i)
    ensures Visible(s)
    decreases |s|
  {
    if i == 0 {
      assert UpperText(s)[0..] == UpperText(s) && s[0..] == s;
      ShowsFrom(s, 0);
      assert Occurs(Exactly, UpperText(s), 0);
    } else {
      assert s[i..] == s[1..][i - 1..];
      ShownOccurrence(s[1..], i - 1);
      var j :| Occurs(Exactly, UpperText(s[1..]), j);
      var n := |Upper(s[0])|;
      assert UpperText(s)[j + n..] == UpperText(s[1..])[j..];
      assert Occurs(Exactly, UpperText(s), j + n);
    }
  }

  /**
   * The token without its last letter, and then the one character that upper-cases to that letter and something more.
   */
  predicate NearToken(k: nat, c: char) {
    if k == LENGTH - 1 then c == '\U{1E9A}' else c != '\U{0130}' && Fits(k, c)
  }

  lemma NearStartsLikeToken()
    ensures StartsLikeToken(NearToken)
  {}

  lemma NearIsNotToken(s: string)
    ensures !(From(NearToken, s, 0) && Here(s))
  {
    assert From(NearToken, s, 0) ==> s[LENGTH - 1] == '\U{1E9A}';
  }

  lemma HereFits(s: string)
    requires Here(s)
    ensures forall k :: 0 <= k < LENGTH ==> Fits(k, s[..LENGTH][k])
  {
    hide Fits;
    forall k | 0 <= k < LENGTH ensures Fits(k, s[..LENGTH][k]) {
      assert Fits(0 + k, s[k]);
    }
  }

  lemma NearNotInBlock(s: string, i: int)
    requires Here(s) && 0 <= i < LENGTH
    ensures !Occurs(NearToken, s, i)
  {
    hide Fits;
    hide NearToken;
    hide StartsLikeToken;
    NearStartsLikeToken();
    assert s == s[..LENGTH] + s[LENGTH..] && s[0..] == s;
    HereFits(s);
    BlockExcludes(NearToken, s[..LENGTH], s[LENGTH..], i);
    NearIsNotToken(s);
  }

  lemma NearAtStart(s: string)
    requires s != "" && !Here(s) && Occurs(NearToken, s, 0)
    ensures Occurs(NearToken, Sanitize(s), 0)
  {
    hide Fits;
    hide NearToken;
    hide StartsLikeToken;
    NearStartsLikeToken();
    assert Sanitize(s)[0..] == Sanitize(s) && s[0..] == s;
    FromStep(NearToken, s, 0);
    FromStep(NearToken, Sanitize(s), 0);
    assert Sanitize(s)[1..] == Sanitize(s[1..]);
    NothingNewFollows(NearToken, s[1..], 1);
  }

  lemma {:induction false} NearSurvives(s: string, i: int)
    requires Occurs(NearToken, s, i)
    ensures Occurs(NearToken, Sanitize(s), i)
    decreases |s|
  {
    hide From;
    hide Escaped;
    if s != "" {
      if Here(s) {
        if i < LENGTH {
          NearNotInBlock(s, i);
        } else {
          HereIsLong(s);
          assert s[i..] == s[LENGTH..][i - LENGTH..];
          NearSurvives(s[LENGTH..], i - LENGTH);
          DropPast(Escaped(), Sanitize(s[LENGTH..]), i);
        }
      } else if i > 0 {
        assert s[i..] == s[1..][i - 1..];
        NearSurvives(s[1..], i - 1);
        DropPast([s[0]], Sanitize(s[1..]), i);
      } else {
        NearAtStart(s);
      }
    }
  }

  lemma HereIsLong(s: string)
    requires Here(s)
    ensures |s| >= LENGTH && |Escaped()| == LENGTH
  {}

  lemma ShownIsNear(s: string)
    requires From(Shows, s, 0) && !Here(s)
    ensures From(NearToken, s, 0)
  {
    assert forall i :: 0 <= i < LENGTH ==> Shows(i, s[i]);
  }

  lemma NearIsShown(s: string)
    requires From(NearToken, s, 0)
    ensures From(Shows, s, 0)
  {
    assert forall i :: 0 <= i < LENGTH ==> NearToken(0 + i, s[i]);
  }

  /**
   * An escaped text is taken for one that carries a marker exactly if the text held the token with its last letter
   * replaced by the one character whose upper-case form merely begins with that letter: escaping does not match it.
   */
  lemma EscapedTextVisible(s: string)
    ensures Visible(Sanitize(s)) <==> exists i :: Occurs(NearToken, s, i)
  {
    hide Fits;
    hide From;
    hide NearToken;
    hide Shows;
    hide UpperText;
    var out := Sanitize(s);
    if Visible(out) {
      var j :| Occurs(Exactly, UpperText(out), j);
      UpperedOccurrence(out, j);
      var i :| Occurs(Shows, out, i);
      NoTokenAt(s, i);
      ShownIsNear(out[i..]);
      NearStartsLikeToken();
      OccurrencesKept(NearToken, s, i);
    }
    if i :| Occurs(NearToken, s, i) {
      NearSurvives(s, i);
      NearIsShown(out[i..]);
      ShownOccurrence(out, i);
    }
  }

  /** Such a text, one character long enough to hold the token. */
  function NearText(): string {
    "CC_REVIEW_MET\U{1E9A}"
  }

  lemma NearTextOccurs()
    ensures |NearText()| == LENGTH && Occurs(NearToken, NearText(), 0)
  {
    var s := NearText();
    assert s[0..] == s;
    assert forall i :: 0 <= i < LENGTH ==> NearToken(0 + i, s[i]);
  }

  /** Escaping leaves it as it is, and its upper-cased form holds the whole token. */
  lemma VisibleAfterEscape()
    ensures Sanitize(NearText()) == NearText() && Visible(Sanitize(NearText()))
  {
    hide NearText;
    hide NearToken;
    hide Fits;
    hide Sanitize;
    hide UpperText;
    hide Visible;
    var s := NearText();
    NearTextOccurs();
    EscapedTextVisible(s);
    NearIsNotToken(s);
    assert s[0..] == s;
    UnchangedMeaning(s);
  }
}
