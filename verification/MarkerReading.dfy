/** Attaching a marker to a text, and reading it back out of the body of a comment. */
module MarkerReading {
  import opened Vocabulary
  import opened Names
  import opened MarkerEscape
  import opened TokenCounts
  import opened MarkerText
  import opened RecordMarkers
  import opened RecordChain

  // ---- attaching ----

  function TrimNewlines(s: string): string {
    if s != "" && s[|s| - 1] == '\n' then TrimNewlines(s[..|s| - 1]) else s
  }

  function Opening(): string {
    "<!-- " + Token() + ":v1 "
  }

  function Line(json: string): string {
    Opening() + json + " -->"
  }

  /** The marker is the last line of the body, after an empty one. */
  function Attach(text: string, raw: Raw): string {
    TrimNewlines(text) + "\n\n" + Line(Canonical(raw))
  }

  // ---- reading ----

  predicate Blank(c: char) {
    || 9 <= c as int <= 13 || 28 <= c as int <= 32 || c as int == 0x85 || c as int == 0xA0 || c as int == 0x1680
    || 0x2000 <= c as int <= 0x200A || c as int == 0x2028 || c as int == 0x2029 || c as int == 0x202F
    || c as int == 0x205F || c as int == 0x3000
  }

  function TrimEnd(s: string): string {
    if s != "" && Blank(s[|s| - 1]) then TrimEnd(s[..|s| - 1]) else s
  }

  /** A trimmed body from its marker on: the opening, braces, and the end of the HTML comment. */
  predicate Opens(s: string) {
    && |s| >= |Opening()| + 6
    && s[..|Opening()| + 1] == Opening() + "{" && s[|s| - 5..] == "} -->"
  }

  /** The text between the braces of the first marker that reaches to the end. */
  function FindJson(s: string): Option<string> {
    if s == "" then None else if Opens(s) then Some(s[|Opening()|..|s| - 4]) else FindJson(s[1..])
  }

  function Extract(body: string): Option<string> {
    FindJson(TrimEnd(body))
  }

  /** The payload of which this is the canonical text; every other JSON text is irregular. */
  ghost function Decoded(json: string): (r: Option<Raw>)
    ensures r.Some? ==> Attachable(r.value) && Canonical(r.value) == json
    ensures r.None? ==> forall raw :: Attachable(raw) ==> Canonical(raw) != json
  {
    if exists raw :: Attachable(raw) && Canonical(raw) == json then
      var raw :| Attachable(raw) && Canonical(raw) == json;
      Some(raw)
    else None
  }

  predicate EndsInLine(body: string, json: string) {
    var line := "\n" + Line(json);
    |line| <= |body| && body[|body| - |line|..] == line
  }

  /**
   * The marker of a body, in the order the checks run: no token, no marker, more than one token, and then the payload.
   */
  ghost function ReadMarker(c: Coding, body: string): Marker {
    if TokenCount(body) == 0 then Unmarked
    else match Extract(body)
         case None => Irregular(c.describe(NoMarker))
         case Some(json) =>
           if TokenCount(body) != 1 then Irregular(c.describe(TokenElsewhere))
           else match Decoded(json)
                case None => Irregular(c.describe(NotCanonical))
                case Some(raw) =>
                  if Size(raw) > MAX_PAYLOAD_BYTES then Irregular(c.describe(TooLong))
                  else if !EndsInLine(body, json) then Irregular(c.describe(NotLastLine))
                  else match Parse(c, raw)
                       case Refused(why) => Irregular(c.describe(why))
                       case Done(p) => Marked(p)
  }

  // ---- the tokens of a body ----

  predicate Braced(json: string) {
    |json| >= 2 && json[0] == '{' && json[|json| - 1] == '}'
  }

  predicate Capital(c: char) {
    'A' <= c <= 'Z' || c == '_'
  }

  lemma CapitalStands(c: char)
    requires Capital(c)
    ensures Upper(c) == [c]
  {}

  lemma {:induction false} CapitalsStand(s: string)
    requires forall i :: 0 <= i < |s| ==> Capital(s[i])
    ensures UpperText(s) == s
  {
    hide Capital;
    hide Upper;
    if s != "" {
      CapitalStands(s[0]);
      CapitalsStand(s[1..]);
      assert s == [s[0]] + s[1..];
    }
  }

  lemma TokenLetters()
    ensures |Token()| == LENGTH && forall i :: 0 <= i < LENGTH ==> Token()[i] == TokenAt(i) && Capital(Token()[i])
  {}

  lemma TokenOnce()
    ensures TokenCount(Token()) == 1
  {
    hide Token;
    hide TokenAt;
    hide Capital;
    hide UpperText;
    TokenLetters();
    CapitalsStand(Token());
    assert Token()[LENGTH..] == "";
    assert forall i :: 0 <= i < LENGTH ==> Exactly(0 + i, Token()[i]);
  }

  lemma VersionCount()
    ensures TokenCount("v1") == 0
  {
    hide UpperText;
    PlainLength("v1");
    ShortCount(UpperText("v1"));
  }

  lemma PartsCount()
    ensures TokenCount("") == 0 && TokenCount("<!--") == 0 && TokenCount("v1") == 0 && TokenCount("-->") == 0
  {
    hide TokenCount;
    hide Separator;
    Separators();
    SeparatorsCount("");
    SeparatorsCount("<!--");
    SeparatorsCount("-->");
    VersionCount();
  }

  /** A marker line adds one token to those of its text. */
  lemma LineCount(json: string)
    ensures TokenCount(Line(json)) == 1 + TokenCount(json)
  {
    hide TokenCount;
    hide Token;
    hide Separator;
    Separators();
    PartsCount();
    TokenOnce();
    var d := json + [' '] + "-->";
    var e := "v1" + [' '] + d;
    var f := Token() + [':'] + e;
    assert Line(json) == "<!--" + [' '] + f;
    TokenCountSplit("<!--", ' ', f);
    TokenCountSplit(Token(), ':', e);
    TokenCountSplit("v1", ' ', d);
    TokenCountSplit(json, ' ', "-->");
  }

  lemma BodyTokens(before: string, json: string)
    ensures TokenCount(before + "\n" + Line(json)) == TokenCount(before) + 1 + TokenCount(json)
  {
    hide TokenCount;
    hide Line;
    hide Separator;
    Separators();
    LineCount(json);
    TokenCountSplit(before, '\n', Line(json));
  }

  lemma {:induction false} TrimKeepsTokens(text: string)
    ensures TokenCount(TrimNewlines(text) + "\n") == TokenCount(text)
    decreases |text|
  {
    hide TokenCount;
    hide Separator;
    Separators();
    PartsCount();
    if text != "" && text[|text| - 1] == '\n' {
      var init := text[..|text| - 1];
      assert text == init + ['\n'] + "";
      TokenCountSplit(init, '\n', "");
      TrimKeepsTokens(init);
    } else {
      assert text + "\n" == text + ['\n'] + "";
      TokenCountSplit(text, '\n', "");
    }
  }

  // ---- finding the line again ----

  lemma OpeningShows(before: string, rest: string)
    requires Opens(before + "\n" + rest)
    ensures Occurs(Shows, before, 5)
  {
    hide Token;
    hide Fits;
    hide Shows;
    var s, o := before + "\n" + rest, Opening() + "{";
    OpeningChars();
    assert forall i :: 0 <= i < |o| ==> s[i] == o[i];
    assert s[|before|] == '\n';
    assert |before| >= |o|;
    assert forall i :: 0 <= i < LENGTH ==> before[5..][i] == s[5 + i] == Token()[i];
    TokenShows();
  }

  /** A text without the token holds no marker that could reach past its last line. */
  lemma NoOpening(before: string, rest: string)
    requires forall i :: !Occurs(Shows, before, i)
    ensures !Opens(before + "\n" + rest)
  {
    hide Opens;
    hide Occurs;
    if Opens(before + "\n" + rest) {
      OpeningShows(before, rest);
    }
  }

  lemma OpeningChars()
    ensures |Token()| == LENGTH && |Opening()| == 23
    ensures forall i :: 0 <= i < LENGTH ==> Opening()[5 + i] == Token()[i]
    ensures forall i :: 0 <= i < |Opening()| ==> Opening()[i] != '\n'
  {
    var o := Opening();
    assert |o| == 23;
    assert forall i :: 0 <= i < LENGTH ==> o[5 + i] == Token()[i] && Token()[i] == TokenAt(i);
  }

  lemma TokenShows()
    ensures forall i :: 0 <= i < LENGTH ==> Shows(0 + i, Token()[i])
  {}

  lemma LineOpens(json: string)
    requires Braced(json)
    ensures Opens(Line(json)) && Line(json)[|Opening()|..|Line(json)| - 4] == json
  {
    hide Token;
    OpeningChars();
    var l, o := Line(json), Opening();
    assert l == o + (json + " -->");
    assert forall i :: 0 <= i < |json| ==> l[|o| + i] == json[i];
    assert l[..|o| + 1] == o + "{";
    assert l[|l| - 5..] == "} -->";
    assert l[|o|..|l| - 4] == json;
  }

  lemma {:induction false} FindInLine(before: string, json: string)
    requires Braced(json) && forall i :: !Occurs(Shows, before, i)
    ensures FindJson(before + "\n" + Line(json)) == Some(json)
    decreases |before|
  {
    hide Line;
    hide Opens;
    hide Opening;
    hide Occurs;
    var s := before + "\n" + Line(json);
    NoOpening(before, Line(json));
    if before == "" {
      LineOpens(json);
      assert s[1..] == Line(json);
      assert Line(json) != "" by { LineNonempty(json); }
    } else {
      assert s[1..] == before[1..] + "\n" + Line(json);
      TailShowsNothing(before);
      FindInLine(before[1..], json);
    }
  }

  lemma LineNonempty(json: string)
    ensures Line(json) != "" && Line(json)[|Line(json)| - 1] == '>'
  {}

  lemma TailShowsNothing(s: string)
    requires s != "" && forall i :: !Occurs(Shows, s, i)
    ensures forall i :: !Occurs(Shows, s[1..], i)
  {
    forall i ensures !Occurs(Shows, s[1..], i) {
      assert 0 <= i <= |s[1..]| ==> s[1..][i..] == s[i + 1..];
      assert !Occurs(Shows, s, i + 1);
    }
  }

  lemma TokenFreeShowsNothing(s: string)
    requires TokenCount(s) == 0
    ensures forall i :: !Occurs(Shows, s, i)
  {
    hide TokenCount;
    CountIsVisible(s);
    hide Visible;
    forall i ensures !Occurs(Shows, s, i) {
      if Occurs(Shows, s, i) { ShownOccurrence(s, i); }
    }
  }

  lemma LineExtracted(before: string, json: string)
    requires Braced(json) && TokenCount(before) == 0
    ensures Extract(before + "\n" + Line(json)) == Some(json)
    ensures EndsInLine(before + "\n" + Line(json), json)
  {
    hide TokenCount;
    hide Line;
    hide FindJson;
    var body := before + "\n" + Line(json);
    TokenFreeShowsNothing(before);
    FindInLine(before, json);
    LineNonempty(json);
    assert body[|body| - 1] == '>';
    assert body == before + ("\n" + Line(json));
  }

  lemma DecodedCanonical(raw: Raw)
    requires Attachable(raw)
    ensures Decoded(Canonical(raw)) == Some(raw)
  {
    hide Canonical;
    CanonicalDetermines(raw, Decoded(Canonical(raw)).value);
  }

  // ---- what is read ----

  /** The values of a payload do not hold the reserved token. */
  ghost predicate TokenFreeValues(raw: Raw) {
    forall k :: k in raw ==> !HoldsToken(raw[k])
  }

  /** A body that ends in a marker line: read as the parse of its payload exactly without the token anywhere else. */
  lemma LineReads(c: Coding, before: string, raw: Raw)
    requires Attachable(raw)
    ensures var m := ReadMarker(c, before + "\n" + Line(Canonical(raw)));
            if TokenCount(before) == 0 && TokenFreeValues(raw) then
              m == match Parse(c, raw) case Done(p) => Marked(p) case Refused(why) => Irregular(c.describe(why))
            else m.Irregular?
  {
    hide TokenCount;
    hide Canonical;
    hide Line;
    hide Extract;
    hide EndsInLine;
    hide Decoded;
    hide HoldsToken;
    hide Size;
    hide ParseFields;
    var json := Canonical(raw);
    BodyTokens(before, json);
    CanonicalCount(raw);
    CanonicalBraces(raw);
    if TokenCount(before) == 0 && TokenFreeValues(raw) {
      LineExtracted(before, json);
      DecodedCanonical(raw);
    }
  }

  /**
   * Regular bodies: any text without the token, and as last line the marker of a composable payload without the token.
   */
  ghost predicate Regular(c: Coding, body: string, p: Payload, before: string) {
    && Compose(p).Done? && ProjectionFits(c, p.kind, p.projection)
    && TokenCount(before) == 0 && TokenFreeValues(RawOf(p)) && body == before + "\n" + Line(Canonical(RawOf(p)))
  }

  lemma MarkedIsRegular(c: Coding, body: string) returns (before: string)
    requires ReadMarker(c, body).Marked?
    ensures Regular(c, body, ReadMarker(c, body).payload, before)
  {
    hide TokenCount;
    hide Canonical;
    hide Line;
    hide Parse;
    hide Compose;
    hide RawOf;
    hide Extract;
    hide HoldsToken;
    hide ProjectionFits;
    var json := Extract(body).value;
    var raw := Decoded(json).value;
    var line := "\n" + Line(json);
    before := body[..|body| - |line|];
    assert body == before + "\n" + Line(json);
    BodyTokens(before, json);
    CanonicalCount(raw);
    ParsedComposes(c, raw);
    ComposeAccepts(ReadMarker(c, body).payload);
  }

  lemma RegularIsMarked(c: Coding, body: string, p: Payload, before: string)
    requires Regular(c, body, p, before)
    ensures ReadMarker(c, body) == Marked(p)
  {
    hide TokenCount;
    hide Canonical;
    hide Line;
    hide Parse;
    hide Compose;
    hide RawOf;
    hide ReadMarker;
    hide ProjectionFits;
    hide TokenFreeValues;
    ComposeAccepts(p);
    ComposedParses(c, p);
    LineReads(c, before, RawOf(p));
  }

  /**
   * The verifier takes a body for the marker of a payload exactly if it is regular: the two validators accept the same.
   */
  lemma MarkedExactly(c: Coding, body: string, p: Payload)
    ensures ReadMarker(c, body) == Marked(p) <==> exists before :: Regular(c, body, p, before)
  {
    hide ReadMarker;
    hide Regular;
    if ReadMarker(c, body) == Marked(p) {
      var before := MarkedIsRegular(c, body);
    }
    if before :| Regular(c, body, p, before) {
      RegularIsMarked(c, body, p, before);
    }
  }

  /**
   * What was composed and attached is read back as itself exactly if the projection is one of its kind and neither the
   * text nor a value holds the reserved token; in every other case the verifier takes it for an irregular marker.
   */
  lemma AttachedReads(c: Coding, p: Payload, text: string)
    requires Compose(p).Done?
    ensures var m := ReadMarker(c, Attach(text, Compose(p).value));
            if ProjectionFits(c, p.kind, p.projection) && !Visible(text) && TokenFreeValues(RawOf(p)) then
              m == Marked(p)
            else m.Irregular?
  {
    hide TokenCount;
    hide Visible;
    hide Canonical;
    hide Line;
    hide TrimNewlines;
    hide Parse;
    hide Compose;
    hide RawOf;
    hide ReadMarker;
    hide ProjectionFits;
    hide TokenFreeValues;
    var raw := RawOf(p);
    ComposeAccepts(p);
    ComposedParses(c, p);
    TrimKeepsTokens(text);
    CountIsVisible(text);
    var before := TrimNewlines(text) + "\n";
    assert Attach(text, raw) == before + "\n" + Line(Canonical(raw));
    LineReads(c, before, raw);
  }

  // ---- the two ways in which a composed marker is not read back ----

  function ZeroHash(): string {
    seq(64, (i: nat) => '0')
  }

  lemma ShortTexts()
    ensures Short(Str("k")) && Short(Str("r")) && Short(Str("h")) && Short(Str(KindName(FinalReport))) && Short(Int(1))
    ensures Short(Str(ZeroHash())) && Short(Str(Token())) && HashText(ZeroHash())
  {
    hide Short;
    PlainShort("k");
    PlainShort("r");
    PlainShort("h");
    PlainShort(KindName(FinalReport));
    PlainShort(ZeroHash());
    PlainShort(Token());
    IntShort();
  }

  lemma IntShort()
    ensures Short(Int(1))
  {
    BytesPlain("1");
  }

  /** A report without any projection. */
  function BareReport(): Payload {
    Payload("k", FinalReport, "r", "h", 1, None, None, map[])
  }

  /** A report of a run that is named like the token. */
  function TokenRun(): Payload {
    Payload("k", FinalReport, Token(), "h", 1, None, None, map[PayKey := Str(ZeroHash())])
  }

  lemma BareComposes()
    ensures Compose(BareReport()).Done?
  {
    hide Size;
    hide Short;
    ShortTexts();
    ShortSize(RawOf(BareReport()));
    ComposeAccepts(BareReport());
  }

  lemma TokenRunComposes()
    ensures Compose(TokenRun()).Done?
  {
    hide Size;
    hide Short;
    hide ZeroHash;
    hide HashText;
    hide Token;
    hide KindName;
    ShortTexts();
    TokenLetters();
    ShortSize(RawOf(TokenRun()));
    ComposeAccepts(TokenRun());
  }

  lemma TokenRunFits(c: Coding)
    ensures ProjectionFits(c, TokenRun().kind, TokenRun().projection)
  {
    hide ZeroHash;
    hide HashText;
    hide Short;
    hide Token;
    ShortTexts();
  }

  lemma TokenRunHolds()
    ensures !TokenFreeValues(RawOf(TokenRun()))
  {
    hide Token;
    hide ZeroHash;
    hide HoldsToken;
    hide KindName;
    TokenHeld();
    assert RawOf(TokenRun())[RunKey] == Str(Token());
  }

  /** A projection left empty is composed, but refused by every reader, whatever the text it is attached to. */
  lemma EmptyProjectionRefused(c: Coding, text: string)
    ensures Compose(BareReport()).Done? && Parse(c, Compose(BareReport()).value).Refused?
    ensures ReadMarker(c, Attach(text, Compose(BareReport()).value)).Irregular?
  {
    hide ReadMarker;
    hide Attach;
    hide Compose;
    hide Parse;
    BareComposes();
    PayRequired(FinalReport);
    ComposedParses(c, BareReport());
    AttachedReads(c, BareReport(), text);
  }

  /** A run named like the token is composed and its payload parses, but the body holds the token twice: irregular. */
  lemma TokenInRunRefused(c: Coding, text: string)
    ensures TokenRun().run == "CC_REVIEW_META" && Compose(TokenRun()).Done?
    ensures Parse(c, Compose(TokenRun()).value) == Done(TokenRun())
    ensures ReadMarker(c, Attach(text, Compose(TokenRun()).value)).Irregular?
  {
    hide ReadMarker;
    hide Attach;
    hide Compose;
    hide Parse;
    hide ProjectionFits;
    hide TokenFreeValues;
    hide RawOf;
    TokenText();
    TokenRunComposes();
    TokenRunFits(c);
    TokenRunHolds();
    ComposedParses(c, TokenRun());
    AttachedReads(c, TokenRun(), text);
  }

  lemma TokenHeld()
    ensures HoldsToken(Str(Token()))
  {
    hide Token;
    hide TokenCount;
    hide EscapedText;
    TokenLetters();
    EscapesNothing(Token());
    TokenOnce();
  }

  /** A text that escaping leaves as it is: whatever marker is attached to it, the body is irregular. */
  lemma EscapedTextRefused(c: Coding, p: Payload)
    requires Compose(p).Done?
    ensures ReadMarker(c, Attach(Sanitize(NearText()), Compose(p).value)).Irregular?
  {
    hide ReadMarker;
    hide Attach;
    hide Compose;
    hide Visible;
    hide NearText;
    VisibleAfterEscape();
    AttachedReads(c, p, Sanitize(NearText()));
  }

  // ---- the reader as part of a scheme ----

  /** With this reader and an injective hash the premises of the record chain hold. */
  lemma ReaderIsValid(c: Coding, s: Scheme)
    requires (forall body :: s.parse(body) == ReadMarker(c, body)) && (forall a, b :: s.hash(a) == s.hash(b) ==> a == b)
    ensures ValidScheme(s)
  {
    hide ReadMarker;
    forall body | s.parse(body).Marked? ensures WellFormed(s.parse(body).payload) {
      var before := MarkedIsRegular(c, body);
      ComposeAccepts(s.parse(body).payload);
    }
  }
}
