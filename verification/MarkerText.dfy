/**
 * The canonical text of a marker payload: JSON with sorted keys and no spaces, from which the payload can be read back.
 */
module MarkerText {
  import opened Text
  import opened Decimals
  import opened MarkerEscape
  import opened TokenCounts

  /** The names in a marker: seven structural ones, nine of the projection, and any other. */
  datatype Key =
    | KeyKey | KindKey | RunKey | HeadKey | SeqKey | PrevKey | AuditPrevKey
    | ResultKey | RoundKey | TurnKey | FingerprintKey | SubjectKey | TargetKey | PayKey | DigestKey | CountKey
    | OtherKey(name: string)

  /** A scalar as decoded from the marker: a string, an integer, or any other JSON value. */
  datatype Scalar = Str(s: string) | Int(n: int) | OtherValue

  type Raw = map<Key, Scalar>

  predicate Structural(k: Key) {
    k.KeyKey? || k.KindKey? || k.RunKey? || k.HeadKey? || k.SeqKey? || k.PrevKey? || k.AuditPrevKey?
  }

  predicate Projected(k: Key) {
    !Structural(k) && !k.OtherKey?
  }

  /** A marker is attached only with known names and with strings and integers as values. */
  predicate Attachable(raw: Raw) {
    forall k :: k in raw ==> !k.OtherKey? && !raw[k].OtherValue?
  }

  function KeyName(k: Key): string {
    match k
    case AuditPrevKey => "audit_prev"
    case CountKey => "cnt"
    case DigestKey => "dig"
    case FingerprintKey => "fp"
    case HeadKey => "head"
    case KeyKey => "key"
    case KindKey => "kind"
    case PayKey => "pay"
    case PrevKey => "prev"
    case ResultKey => "res"
    case RoundKey => "round"
    case RunKey => "run"
    case SeqKey => "seq"
    case SubjectKey => "sid"
    case TargetKey => "tgt"
    case TurnKey => "turn"
    case OtherKey(name) => name
  }

  const KNOWN_KEYS: nat := 16

  /** The known names in ascending order. */
  function KeyAt(i: nat): Key {
    if i == 0 then AuditPrevKey else if i == 1 then CountKey else if i == 2 then DigestKey
    else if i == 3 then FingerprintKey else if i == 4 then HeadKey else if i == 5 then KeyKey
    else if i == 6 then KindKey else if i == 7 then PayKey else if i == 8 then PrevKey
    else if i == 9 then ResultKey else if i == 10 then RoundKey else if i == 11 then RunKey
    else if i == 12 then SeqKey else if i == 13 then SubjectKey else if i == 14 then TargetKey else TurnKey
  }

  lemma NamesAscend(i: nat)
    requires i + 1 < KNOWN_KEYS
    ensures Less(KeyName(KeyAt(i)), KeyName(KeyAt(i + 1)))
  {}

  // ---- strings ----

  function HexAt(d: nat): char
    requires d < 16
  {
    if d < 10 then ('0' as int + d) as char else ('a' as int + d - 10) as char
  }

  /** Quotes, backslashes and control characters are escaped, everything else stands for itself. */
  function EscapedChar(c: char): (e: string)
    ensures e != "" && e[0] != '"'
  {
    if c == '"' then "\\\""
    else if c == '\\' then "\\\\"
    else if c == '\n' then "\\n"
    else if c == '\r' then "\\r"
    else if c == '\t' then "\\t"
    else if c as int == 8 then "\\b"
    else if c as int == 12 then "\\f"
    else if c as int < 32 then ['\\', 'u', '0', '0', HexAt(c as int / 16), HexAt(c as int % 16)]
    else [c]
  }

  function EscapedText(s: string): string {
    if s == "" then "" else EscapedChar(s[0]) + EscapedText(s[1..])
  }

  function Quoted(s: string): string {
    "\"" + EscapedText(s) + "\""
  }

  lemma EscapedCharEnds(c: char, d: char, x: string, y: string)
    requires EscapedChar(c) + x == EscapedChar(d) + y
    ensures c == d && x == y
  {
    var a, b := EscapedChar(c) + x, EscapedChar(d) + y;
    assert a[0] == EscapedChar(c)[0] && b[0] == EscapedChar(d)[0];
    assert |EscapedChar(c)| > 1 ==> a[1] == EscapedChar(c)[1];
    assert |EscapedChar(d)| > 1 ==> b[1] == EscapedChar(d)[1];
    assert |EscapedChar(c)| == |EscapedChar(d)|;
    assert a[..|EscapedChar(c)|] == EscapedChar(c) && b[..|EscapedChar(d)|] == EscapedChar(d);
    assert a[|EscapedChar(c)|..] == x && b[|EscapedChar(d)|..] == y;
    if |EscapedChar(c)| == 6 {
      assert EscapedChar(c)[4] == EscapedChar(d)[4] && EscapedChar(c)[5] == EscapedChar(d)[5];
    }
  }

  /** A string and what follows its closing quote can be read off the text. */
  lemma {:induction false} EscapedTextEnds(s: string, t: string, x: string, y: string)
    requires EscapedText(s) + "\"" + x == EscapedText(t) + "\"" + y
    ensures s == t && x == y
    decreases |s|
  {
    hide EscapedChar;
    var a, b := EscapedText(s) + "\"" + x, EscapedText(t) + "\"" + y;
    assert s != "" ==> a[0] == EscapedChar(s[0])[0];
    assert t != "" ==> b[0] == EscapedChar(t[0])[0];
    assert s == "" ==> a[0] == '"';
    assert t == "" ==> b[0] == '"';
    if s == "" {
      assert a[1..] == x && b[1..] == y;
    } else {
      assert a == EscapedChar(s[0]) + (EscapedText(s[1..]) + "\"" + x);
      assert b == EscapedChar(t[0]) + (EscapedText(t[1..]) + "\"" + y);
      EscapedCharEnds(s[0], t[0], EscapedText(s[1..]) + "\"" + x, EscapedText(t[1..]) + "\"" + y);
      EscapedTextEnds(s[1..], t[1..], x, y);
      assert s == [s[0]] + s[1..] && t == [t[0]] + t[1..];
    }
  }

  lemma QuotedEnds(s: string, t: string, x: string, y: string)
    requires Quoted(s) + x == Quoted(t) + y
    ensures s == t && x == y
  {
    assert (Quoted(s) + x)[1..] == EscapedText(s) + "\"" + x;
    assert (Quoted(t) + y)[1..] == EscapedText(t) + "\"" + y;
    EscapedTextEnds(s, t, x, y);
  }

  // ---- values and members ----

  function ValueText(v: Scalar): string {
    match v
    case Str(s) => Quoted(s)
    case Int(n) => IntText(n)
    case OtherValue => "null"
  }

  datatype Member = Member(key: Key, value: Scalar)

  predicate Plain(m: Member) {
    !m.key.OtherKey? && !m.value.OtherValue?
  }

  function MemberText(m: Member): string {
    Quoted(KeyName(m.key)) + ":" + ValueText(m.value)
  }

  /** The members separated by commas, up to the closing brace. */
  function BodyText(ms: seq<Member>, first: bool): string {
    if ms == [] then "}" else (if first then "" else ",") + MemberText(ms[0]) + BodyText(ms[1..], false)
  }

  function MembersFrom(raw: Raw, i: nat): seq<Member>
    requires i <= KNOWN_KEYS
    decreases KNOWN_KEYS - i
  {
    if i == KNOWN_KEYS then [] else
      (if KeyAt(i) in raw then [Member(KeyAt(i), raw[KeyAt(i)])] else []) + MembersFrom(raw, i + 1)
  }

  /** The canonical text of an attachable payload. */
  function Canonical(raw: Raw): string {
    "{" + BodyText(MembersFrom(raw, 0), true)
  }

  lemma ValueEnds(v: Scalar, w: Scalar, x: string, y: string)
    requires ValueText(v) + x == ValueText(w) + y && !v.OtherValue? && !w.OtherValue?
    requires x != "" && y != "" && !IsDigit(x[0]) && !IsDigit(y[0])
    ensures v == w && x == y
  {
    hide IntText;
    hide EscapedText;
    var a, b := ValueText(v) + x, ValueText(w) + y;
    if v.Int? { SignShown(v.n, x); }
    if w.Int? { SignShown(w.n, y); }
    assert a[0] == ValueText(v)[0] && b[0] == ValueText(w)[0];
    if v.Str? && w.Str? {
      QuotedEnds(v.s, w.s, x, y);
    } else if v.Int? && w.Int? {
      IntTextEnds(v.n, w.n, x, y);
    }
  }

  lemma KeyNamesDistinct(a: Key, b: Key)
    requires KeyName(a) == KeyName(b) && !a.OtherKey? && !b.OtherKey?
    ensures a == b
  {
    assert |KeyName(a)| == |KeyName(b)|;
    assert KeyName(a)[0] == KeyName(b)[0] && KeyName(a)[1] == KeyName(b)[1];
    assert |KeyName(a)| > 2 ==> KeyName(a)[2] == KeyName(b)[2];
    assert |KeyName(a)| > 3 ==> KeyName(a)[3] == KeyName(b)[3];
  }

  lemma MemberEnds(m: Member, n: Member, x: string, y: string)
    requires MemberText(m) + x == MemberText(n) + y && Plain(m) && Plain(n)
    requires x != "" && y != "" && !IsDigit(x[0]) && !IsDigit(y[0])
    ensures m == n && x == y
  {
    hide KeyName;
    hide Quoted;
    hide ValueText;
    var a, b := KeyName(m.key), KeyName(n.key);
    assert MemberText(m) + x == Quoted(a) + (":" + ValueText(m.value) + x);
    assert MemberText(n) + y == Quoted(b) + (":" + ValueText(n.value) + y);
    QuotedEnds(a, b, ":" + ValueText(m.value) + x, ":" + ValueText(n.value) + y);
    KeyNamesDistinct(m.key, n.key);
    assert (":" + ValueText(m.value) + x)[1..] == ValueText(m.value) + x;
    assert (":" + ValueText(n.value) + y)[1..] == ValueText(n.value) + y;
    ValueEnds(m.value, n.value, x, y);
  }

  lemma BodyStarts(ms: seq<Member>, first: bool)
    ensures BodyText(ms, first) != ""
    ensures BodyText(ms, first)[0] == if ms == [] then '}' else if first then '"' else ','
  {
    if ms != [] {
      var m := MemberText(ms[0]);
      assert m[0] == '"';
      assert BodyText(ms, first) == (if first then "" else ",") + m + BodyText(ms[1..], false);
    }
  }

  /** The text of the members determines them. */
  lemma {:induction false} BodyDetermines(ms: seq<Member>, ns: seq<Member>, first: bool)
    requires BodyText(ms, first) == BodyText(ns, first)
    requires (forall m :: m in ms ==> Plain(m)) && (forall n :: n in ns ==> Plain(n))
    ensures ms == ns
    decreases |ms|
  {
    hide MemberText;
    BodyStarts(ms, first);
    BodyStarts(ns, first);
    if ms != [] && ns != [] {
      var head := if first then "" else ",";
      var x, y := BodyText(ms[1..], false), BodyText(ns[1..], false);
      BodyStarts(ms[1..], false);
      BodyStarts(ns[1..], false);
      assert BodyText(ms, first)[|head|..] == MemberText(ms[0]) + x;
      assert BodyText(ns, first)[|head|..] == MemberText(ns[0]) + y;
      MemberEnds(ms[0], ns[0], x, y);
      BodyDetermines(ms[1..], ns[1..], false);
      assert ms == [ms[0]] + ms[1..] && ns == [ns[0]] + ns[1..];
    }
  }

  lemma KeyListed(k: Key) returns (i: nat)
    requires !k.OtherKey?
    ensures i < KNOWN_KEYS && KeyAt(i) == k
  {
    i := match k
      case AuditPrevKey => 0 case CountKey => 1 case DigestKey => 2 case FingerprintKey => 3 case HeadKey => 4
      case KeyKey => 5 case KindKey => 6 case PayKey => 7 case PrevKey => 8 case ResultKey => 9 case RoundKey => 10
      case RunKey => 11 case SeqKey => 12 case SubjectKey => 13 case TargetKey => 14 case TurnKey => 15;
  }

  lemma {:induction false} MembersOf(raw: Raw, i: nat)
    requires i <= KNOWN_KEYS
    ensures forall m :: m in MembersFrom(raw, i) <==>
                    m.key in raw && m.value == raw[m.key] && exists j :: i <= j < KNOWN_KEYS && KeyAt(j) == m.key
    decreases KNOWN_KEYS - i
  {
    hide KeyAt;
    if i < KNOWN_KEYS {
      MembersOf(raw, i + 1);
    }
  }

  /** The members of an attachable payload are all of it. */
  lemma MembersExact(raw: Raw)
    requires Attachable(raw)
    ensures forall k :: k in raw ==> Member(k, raw[k]) in MembersFrom(raw, 0)
    ensures forall m :: m in MembersFrom(raw, 0) ==> Plain(m) && m.key in raw && m.value == raw[m.key]
  {
    hide KeyAt;
    MembersOf(raw, 0);
    forall k | k in raw ensures Member(k, raw[k]) in MembersFrom(raw, 0) {
      var i := KeyListed(k);
    }
  }

  /** The canonical text determines the payload: no two of them share a marker. */
  lemma CanonicalDetermines(a: Raw, b: Raw)
    requires Attachable(a) && Attachable(b) && Canonical(a) == Canonical(b)
    ensures a == b
  {
    hide MembersFrom;
    MembersExact(a);
    MembersExact(b);
    var ms, ns := MembersFrom(a, 0), MembersFrom(b, 0);
    assert Canonical(a)[1..] == BodyText(ms, true) && Canonical(b)[1..] == BodyText(ns, true);
    BodyDetermines(ms, ns, true);
    forall k ensures (k in a <==> k in b) && (k in a ==> a[k] == b[k]) {
      if k in a { assert Member(k, a[k]) in ns; }
      if k in b { assert Member(k, b[k]) in ms; }
    }
  }

  lemma {:induction false} BodyEnds(ms: seq<Member>, first: bool)
    ensures var t := BodyText(ms, first); t != "" && t[|t| - 1] == '}'
  {
    if ms != [] { BodyEnds(ms[1..], false); }
  }

  lemma CanonicalBraces(raw: Raw)
    ensures var t := Canonical(raw); |t| >= 2 && t[0] == '{' && t[|t| - 1] == '}'
  {
    BodyEnds(MembersFrom(raw, 0), true);
  }

  // ---- the token in a canonical text ----

  /** A value whose text holds the reserved token. */
  predicate HoldsToken(v: Scalar) {
    v.Str? && TokenCount(EscapedText(v.s)) > 0
  }

  lemma Separators()
    ensures forall c :: (IsDigit(c) || c in "-\",:{} \n<>!") ==> Separator(c)
  {}

  lemma {:induction false} SeparatorsCount(s: string)
    requires forall i :: 0 <= i < |s| ==> Separator(s[i])
    ensures TokenCount(s) == 0
  {
    hide Separator;
    if s == "" {
    } else {
      assert s == "" + [s[0]] + s[1..];
      TokenCountSplit("", s[0], s[1..]);
      SeparatorsCount(s[1..]);
      assert TokenCount("") == 0;
    }
  }

  lemma {:induction false} PlainLength(s: string)
    requires forall i :: 0 <= i < |s| ==> s[i] as int < 128
    ensures |UpperText(s)| == |s|
  {
    if s != "" { PlainLength(s[1..]); }
  }

  lemma NameCount(k: Key)
    requires !k.OtherKey?
    ensures TokenCount(EscapedText(KeyName(k))) == 0
  {
    NameEscapes(k);
    NameChars(k);
    PlainLength(KeyName(k));
    ShortCount(UpperText(KeyName(k)));
  }

  lemma NameChars(k: Key)
    requires !k.OtherKey?
    ensures |KeyName(k)| <= 10
    ensures forall i :: 0 <= i < |KeyName(k)| ==> 'a' <= KeyName(k)[i] <= 'z' || KeyName(k)[i] == '_'
  {}

  /** A text of characters that need no escape stands for itself. */
  lemma {:induction false} EscapesNothing(s: string)
    requires forall i :: 0 <= i < |s| ==> s[i] as int >= 32 && s[i] != '"' && s[i] != '\\'
    ensures EscapedText(s) == s
  {
    if s != "" {
      EscapesNothing(s[1..]);
      assert s == [s[0]] + s[1..];
    }
  }

  lemma NameEscapes(k: Key)
    requires !k.OtherKey?
    ensures EscapedText(KeyName(k)) == KeyName(k)
  {
    NameChars(k);
    EscapesNothing(KeyName(k));
  }

  lemma QuotedCount(s: string)
    ensures TokenCount(Quoted(s)) == TokenCount(EscapedText(s))
  {
    hide TokenCount;
    hide EscapedText;
    hide Separator;
    Separators();
    var e := EscapedText(s);
    assert Quoted(s) == "" + ['"'] + (e + ['"'] + "");
    TokenCountSplit("", '"', e + ['"'] + "");
    TokenCountSplit(e, '"', "");
    SeparatorsCount("");
  }

  lemma ValueCount(v: Scalar)
    requires !v.OtherValue?
    ensures TokenCount(ValueText(v)) > 0 <==> HoldsToken(v)
  {
    hide TokenCount;
    hide EscapedText;
    hide Separator;
    hide IntText;
    match v
    case Str(s) => QuotedCount(s);
    case Int(n) =>
      Separators();
      IntChars(n);
      SeparatorsCount(IntText(n));
  }

  lemma IntChars(n: int)
    ensures forall i :: 0 <= i < |IntText(n)| ==> IsDigit(IntText(n)[i]) || IntText(n)[i] == '-'
  {
    DigitsAre(if n < 0 then -n else n);
  }

  lemma MemberCount(m: Member)
    requires Plain(m)
    ensures TokenCount(MemberText(m)) > 0 <==> HoldsToken(m.value)
  {
    hide TokenCount;
    hide Quoted;
    hide HoldsToken;
    hide Separator;
    hide ValueText;
    Separators();
    TokenCountSplit(Quoted(KeyName(m.key)), ':', ValueText(m.value));
    QuotedCount(KeyName(m.key));
    NameCount(m.key);
    ValueCount(m.value);
  }

  lemma {:induction false} BodyCount(ms: seq<Member>, first: bool)
    requires forall m :: m in ms ==> Plain(m)
    ensures TokenCount(BodyText(ms, first)) > 0 <==> exists m :: m in ms && HoldsToken(m.value)
    decreases |ms|, if first then 0 else 1
  {
    hide TokenCount;
    hide MemberText;
    hide HoldsToken;
    hide Separator;
    Separators();
    if ms == [] {
      SeparatorsCount("}");
    } else if !first {
      assert BodyText(ms, false) == "" + [','] + BodyText(ms, true);
      TokenCountSplit("", ',', BodyText(ms, true));
      SeparatorsCount("");
      BodyCount(ms, true);
    } else {
      assert ms == [ms[0]] + ms[1..];
      BodyCount(ms[1..], false);
      BodyStarts(ms[1..], false);
      var m, rest := MemberText(ms[0]), BodyText(ms[1..], false);
      var c := rest[0];
      assert rest == "" + [c] + rest[1..] && BodyText(ms, true) == m + [c] + rest[1..];
      TokenCountSplit(m, c, rest[1..]);
      TokenCountSplit("", c, rest[1..]);
      SeparatorsCount("");
      MemberCount(ms[0]);
    }
  }

  /** The canonical text holds the token exactly if the text of one of its string values does. */
  lemma CanonicalCount(raw: Raw)
    requires Attachable(raw)
    ensures TokenCount(Canonical(raw)) > 0 <==> exists k :: k in raw && HoldsToken(raw[k])
  {
    hide TokenCount;
    hide MembersFrom;
    hide HoldsToken;
    hide Separator;
    hide BodyText;
    Separators();
    var ms := MembersFrom(raw, 0);
    MembersExact(raw);
    BodyCount(ms, true);
    assert Canonical(raw) == "" + ['{'] + BodyText(ms, true);
    TokenCountSplit("", '{', BodyText(ms, true));
    SeparatorsCount("");
    if k :| k in raw && HoldsToken(raw[k]) {
      assert Member(k, raw[k]) in ms;
    }
  }

  // ---- bytes ----

  function Bytes(s: string): nat {
    if s == "" then 0 else
      var c := s[0] as int;
      (if c < 0x80 then 1 else if c < 0x800 then 2 else if c < 0x10000 then 3 else 4) + Bytes(s[1..])
  }

  /** The length of the canonical text in bytes. */
  function Size(raw: Raw): nat {
    Bytes(Canonical(raw))
  }

  lemma {:induction false} BytesJoin(a: string, b: string)
    ensures Bytes(a + b) == Bytes(a) + Bytes(b)
  {
    if a == "" {
      assert a + b == b;
    } else {
      assert (a + b)[1..] == a[1..] + b;
      BytesJoin(a[1..], b);
    }
  }

  lemma {:induction false} BytesPlain(s: string)
    requires forall i :: 0 <= i < |s| ==> s[i] as int < 128
    ensures Bytes(s) == |s|
  {
    if s != "" { BytesPlain(s[1..]); }
  }

  /** A value of at most 64 bytes between its quotes. */
  predicate Short(v: Scalar) {
    Bytes(ValueText(v)) <= 66
  }

  lemma {:induction false} BodyBytes(ms: seq<Member>, first: bool)
    requires forall m :: m in ms ==> Plain(m) && Short(m.value)
    ensures Bytes(BodyText(ms, first)) <= 1 + 80 * |ms|
    decreases |ms|
  {
    hide ValueText;
    hide Quoted;
    hide KeyName;
    hide Bytes;
    if ms == [] {
      BytesPlain("}");
    } else {
      var head, m, rest := if first then "" else ",", MemberText(ms[0]), BodyText(ms[1..], false);
      BodyBytes(ms[1..], false);
      BytesJoin(head + m, rest);
      BytesJoin(head, m);
      BytesPlain(head);
      BytesJoin(Quoted(KeyName(ms[0].key)) + ":", ValueText(ms[0].value));
      BytesJoin(Quoted(KeyName(ms[0].key)), ":");
      BytesPlain(":");
      NameBytes(ms[0].key);
    }
  }

  lemma NameBytes(k: Key)
    requires !k.OtherKey?
    ensures Bytes(Quoted(KeyName(k))) <= 12
  {
    hide KeyName;
    NameEscapes(k);
    NameChars(k);
    BytesPlain(Quoted(KeyName(k)));
  }

  lemma {:induction false} MembersBound(raw: Raw, i: nat)
    requires i <= KNOWN_KEYS
    ensures |MembersFrom(raw, i)| <= KNOWN_KEYS - i
    decreases KNOWN_KEYS - i
  {
    if i < KNOWN_KEYS { MembersBound(raw, i + 1); }
  }

  /** Short values keep any payload well within the limit of a marker. */
  lemma ShortSize(raw: Raw)
    requires Attachable(raw) && forall k :: k in raw ==> Short(raw[k])
    ensures Size(raw) <= 1282
  {
    hide MembersFrom;
    hide Short;
    hide BodyText;
    hide Bytes;
    MembersExact(raw);
    MembersBound(raw, 0);
    BodyBytes(MembersFrom(raw, 0), true);
    BytesJoin("{", BodyText(MembersFrom(raw, 0), true));
    BytesPlain("{");
  }

  lemma PlainShort(s: string)
    requires |s| <= 64 && forall i :: 0 <= i < |s| ==> 32 <= s[i] as int < 128 && s[i] != '"' && s[i] != '\\'
    ensures Short(Str(s))
  {
    hide EscapedText;
    EscapesNothing(s);
    BytesPlain(Quoted(s));
  }
}
