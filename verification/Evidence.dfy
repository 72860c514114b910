/** The evidence of a finding: a binding that does not depend on when or in which order it was detected. */
module Evidence {
  import opened Vocabulary
  import opened Decimals
  import opened Violations
  import opened RecordMarkers
  import opened RecordChain

  // ---- zero-padded decimal numbers ----

  function Zeros(k: nat): (s: string)
    ensures |s| == k
  {
    if k == 0 then "" else Zeros(k - 1) + "0"
  }

  /** At least eight digits, as a fixed-width decimal format prints them. */
  function Padded(n: nat): string {
    var d := Digits(n);
    if |d| >= 8 then d else Zeros(8 - |d|) + d
  }

  lemma {:induction false} ZerosValue(k: nat)
    ensures ValueOf(Zeros(k)) == 0
  {
    if k > 0 {
      ZerosValue(k - 1);
      assert Zeros(k)[..k - 1] == Zeros(k - 1);
    }
  }

  lemma {:induction false} LeadingZeros(k: nat, s: string)
    ensures ValueOf(Zeros(k) + s) == ValueOf(s)
  {
    if s == "" {
      ZerosValue(k);
      assert Zeros(k) + s == Zeros(k);
    } else {
      LeadingZeros(k, s[..|s| - 1]);
      assert (Zeros(k) + s)[..|Zeros(k) + s| - 1] == Zeros(k) + s[..|s| - 1];
    }
  }

  lemma PaddedValue(n: nat)
    ensures ValueOf(Padded(n)) == n
  {
    DigitsValue(n);
    if |Digits(n)| < 8 { LeadingZeros(8 - |Digits(n)|, Digits(n)); }
  }

  // ---- bindings ----

  function Condition(f: Finding): string {
    match f
    case IrregularMarker(_, _) => "marker"
    case BadActor(_, _) => "actor"
    case SeqConflict(_, _) => "seqconflict"
    case EditedRecord(_, _) => "edited"
    case Gap(_, _) => "gap"
    case MissingRecord(_, _) => "missing"
    case TamperedRecord(_, _, _, _) => "tamper"
    case BadAnchorLink(_, _, _) => "chain"
    case BadPrevLink(_, _, _) => "chain"
  }

  /** Findings about a comment carry its ID, findings about a number the padded number. */
  function Subject(f: Finding): string {
    match f
    case IrregularMarker(id, _) => "c" + id
    case BadActor(id, _) => "c" + id
    case EditedRecord(id, _) => "c" + id
    case MissingRecord(id, _) => "c" + id
    case TamperedRecord(id, _, _, _) => "c" + id
    case SeqConflict(n, _) => "s" + Padded(n)
    case Gap(n, _) => "s" + Padded(n)
    case BadAnchorLink(n, _, _) => "s" + Padded(n)
    case BadPrevLink(n, _, _) => "s" + Padded(n)
  }

  function BindingOf(run: string, f: Finding): string {
    "iv:" + Condition(f) + ":" + run + ":" + Subject(f)
  }

  /** Whether two findings have the same binding text decides the condition and the subject. */
  lemma BindingInjective(run: string, f: Finding, g: Finding)
    requires BindingOf(run, f) == BindingOf(run, g)
    ensures Condition(f) == Condition(g) && Subject(f) == Subject(g)
  {
    hide Subject;
    var b, c := BindingOf(run, f), BindingOf(run, g);
    assert b[3] == Condition(f)[0] && c[3] == Condition(g)[0];
    assert b[4] == Condition(f)[1] && c[4] == Condition(g)[1];
    assert |Condition(f)| == |Condition(g)| && Condition(f) == Condition(g);
    var k := 3 + |Condition(f)| + 1 + |run| + 1;
    assert b[k..] == Subject(f) && c[k..] == Subject(g);
  }

  /** Findings about a comment: equal subjects mean the same comment. */
  predicate AboutComment(f: Finding) {
    f.IrregularMarker? || f.BadActor? || f.EditedRecord? || f.MissingRecord? || f.TamperedRecord?
  }

  lemma SubjectsDetermine(f: Finding, g: Finding)
    requires Subject(f) == Subject(g)
    ensures AboutComment(f) == AboutComment(g)
    ensures if AboutComment(f) then f.id == g.id else f.number == g.number
  {
    hide Padded;
    assert Subject(f)[0] == Subject(g)[0];
    assert Subject(f)[1..] == Subject(g)[1..];
    if AboutComment(f) && AboutComment(g) {
      assert Subject(f)[1..] == f.id && Subject(g)[1..] == g.id;
    } else if !AboutComment(f) && !AboutComment(g) {
      assert Subject(f)[1..] == Padded(f.number) && Subject(g)[1..] == Padded(g.number);
      PaddedValue(f.number);
      PaddedValue(g.number);
    }
  }

  predicate SameCondition(f: Finding, g: Finding) {
    match f
    case IrregularMarker(_, _) => g.IrregularMarker?
    case BadActor(_, _) => g.BadActor?
    case SeqConflict(_, _) => g.SeqConflict?
    case EditedRecord(_, _) => g.EditedRecord?
    case Gap(_, _) => g.Gap?
    case MissingRecord(_, _) => g.MissingRecord?
    case TamperedRecord(_, _, _, _) => g.TamperedRecord?
    case BadAnchorLink(_, _, _) => g.BadAnchorLink? || g.BadPrevLink?
    case BadPrevLink(_, _, _) => g.BadAnchorLink? || g.BadPrevLink?
  }

  lemma ConditionsDetermine(f: Finding, g: Finding)
    requires Condition(f) == Condition(g)
    ensures SameCondition(f, g)
  {
    assert |Condition(f)| == |Condition(g)|;
    assert Condition(f)[0] == Condition(g)[0] && Condition(f)[1] == Condition(g)[1];
  }

  /** What is reported about one comment, or one number, under one condition is a single finding. */
  lemma CommentFindingUnique(v: View, f: Finding, g: Finding)
    requires ValidView(v) && Reported(v, f) && Reported(v, g)
    requires SameCondition(f, g) && AboutComment(f) && AboutComment(g) && f.id == g.id
    ensures f == g
  {
    hide ValidScheme;
    hide Conflict;
    hide Edited;
    hide Candidate;
  }

  lemma NumberFindingUnique(v: View, f: Finding, g: Finding)
    requires ValidView(v) && Reported(v, f) && Reported(v, g)
    requires SameCondition(f, g) && !AboutComment(f) && !AboutComment(g) && f.number == g.number
    ensures f == g
  {
    hide ValidScheme;
    hide Conflict;
    hide Edited;
    hide Candidate;
    hide InGroup;
    hide Anchor;
  }

  /** No two reported findings share a binding: canonicalising the evidence drops nothing. */
  lemma BindingsDistinct(v: View, f: Finding, g: Finding)
    requires ValidView(v) && Reported(v, f) && Reported(v, g)
        && BindingOf(v.scheme.run, f) == BindingOf(v.scheme.run, g)
    ensures f == g
  {
    hide ValidView;
    hide Reported;
    hide BindingOf;
    hide Condition;
    hide Subject;
    BindingInjective(v.scheme.run, f, g);
    SubjectsDetermine(f, g);
    ConditionsDetermine(f, g);
    if AboutComment(f) {
      CommentFindingUnique(v, f, g);
    } else {
      NumberFindingUnique(v, f, g);
    }
  }

  /** The evidence kept for a finding; the descriptor encoding is left abstract. */
  function EvidenceOf(run: string, head: string, encode: Finding -> string, f: Finding): Violation {
    Violation(BindingOf(run, f), encode(f), head)
  }
}
