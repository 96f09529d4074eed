/** What the redaction is for: in no spelling does a forbidden attribute survive, what survives
    is within the limit, and nothing disappears without a record. */
module Forbidden {
  import opened Model
  import opened Utf8
  import opened Truncation
  import opened Names
  import opened TidyNames
  import opened Redaction
  import SchemaPreserved
  import Summaries
  import TwoStages

  // ----- A field marker leaves its words in the canonical name.

  /** A byte below 0x80 is never inside a rune. */
  lemma {:induction false} AsciiStartsRune(s: string, i: nat)
    requires i < |s| && Within(s[i], 0x00, 0x7F)
    ensures RuneStart(s, i)
    decreases |s|
  {
    if i > 0 {
      assert Width(s) <= i;
      AsciiStartsRune(s[Width(s)..], i - Width(s));
    }
  }

  lemma Associates<T>(a: seq<T>, b: seq<T>, c: seq<T>)
    ensures a + (b + c) == a + b + c
  {
  }

  lemma CutBefore(a: string, rest: string)
    requires rest != "" && Within(rest[0], 0x00, 0x7F)
    ensures Runes(a + rest) == Runes(a) + Runes(rest)
  {
    var s := a + rest;
    assert s[|a|] == rest[0] && s[..|a|] == a && s[|a|..] == rest;
    AsciiStartsRune(s, |a|);
    RunesOfCut(s, |a|);
  }

  lemma RunesAround(a: string, middle: string, b: string)
    requires middle != "" && Ascii(middle)
    ensures Runes(a + middle + b) == Runes(a) + Codes(middle) + Runes(b)
  {
    CutBefore(a, middle + b);
    assert a + (middle + b) == a + middle + b;
    RunesAfterAscii(middle, b);
    Associates(Runes(a), Codes(middle), Runes(b));
  }

  const WORD := "summary"

  lemma WordThenRest(word: seq<int>, mark: int, rest: seq<int>)
    requires Separator(mark) && Piece(word)
    ensures Pieces(word + [mark] + rest) == [word] + Pieces(rest)
  {
    PiecesOfSplit(word, mark, rest);
    WordPieces(word);
  }

  lemma Between(a: seq<int>, mark: int, word: seq<int>, rest: seq<int>)
    ensures a + ([mark] + word + [mark]) + rest == a + [mark] + (word + [mark] + rest)
  {
  }

  lemma WordAmongRunes(a: seq<int>, mark: int, word: seq<int>, rest: seq<int>)
    requires Separator(mark) && Piece(word)
    ensures Pieces(a + ([mark] + word + [mark]) + rest) == Pieces(a) + [word] + Pieces(rest)
  {
    Between(a, mark, word, rest);
    PiecesOfSplit(a, mark, word + [mark] + rest);
    WordThenRest(word, mark, rest);
    Associates(Pieces(a), [word], Pieces(rest));
  }

  lemma SummaryWord()
    ensures Piece(Codes(WORD)) && Ascii(".summary.") && Codes(".summary.") == ['.' as int] + Codes(WORD) + ['.' as int]
  {
  }

  /** A text with `.summary.` in it has the piece `summary`. */
  lemma MarkerPieces(a: string, rest: string) returns (more: seq<seq<int>>)
    ensures Pieces(Runes(a + ".summary." + rest)) == Pieces(Runes(a)) + [Codes(WORD)] + more
  {
    SummaryWord();
    RunesAround(a, ".summary.", rest);
    WordAmongRunes(Runes(a), '.' as int, Codes(WORD), Runes(rest));
    more := Pieces(Runes(rest));
  }

  lemma {:induction false} JoinHas(ps: seq<seq<int>>, j: nat) returns (at: nat)
    requires j < |ps|
    ensures at + |ps[j]| <= |Join(ps)| && Join(ps)[at..at + |ps[j]|] == ps[j]
  {
    if j == 0 {
      at := 0;
    } else {
      var inner := JoinHas(ps[1..], j - 1);
      at := |ps[0]| + 1 + inner;
      assert Join(ps)[at..at + |ps[j]|] == Join(ps[1..])[inner..inner + |ps[j]|];
    }
  }

  /** The canonical name, as runes. */
  lemma CanonicalIsJoined(k: string)
    requires Ascii(Canonical(k))
    ensures Codes(Canonical(k)) == Join(Pieces(Runes(TrimSpace(k))))
  {
    CanonicalPieces(k);
    TrimmingKeepsPieces(k);
    RunesOfAscii(Canonical(k));
  }

  lemma SplitAtMarker(s: string, i: nat)
    requires i + 16 <= |s| && s[i..i + 16] == DOTTED_FIELDS
    ensures s == s[..i] + ".summary." + s[i + 9..]
  {
    assert s[i..i + 9] == s[i..i + 16][..9] == ".summary.";
  }

  /** Only a key whose canonical name has two m's in a row can have a field marker. */
  lemma NoDottedMarker(k: string)
    requires Ascii(Canonical(k)) && NoDoubleM(Canonical(k))
    ensures IndexOf(TrimSpace(k), DOTTED_FIELDS) == -1
  {
    var s := TrimSpace(k);
    var i := IndexOf(s, DOTTED_FIELDS);
    if i >= 0 {
      var a, rest := s[..i], s[i + 9..];
      SplitAtMarker(s, i);
      var more := MarkerPieces(a, rest);
      CanonicalIsJoined(k);
      MarkerHasDoubleM(Canonical(k), Pieces(Runes(a)), more);
    }
  }

  lemma MarkerHasDoubleM(c: string, before: seq<seq<int>>, after: seq<seq<int>>)
    requires Codes(c) == Join(before + [Codes(WORD)] + after)
    ensures !NoDoubleM(c)
  {
    var ps := before + [Codes(WORD)] + after;
    assert ps[|before|] == Codes(WORD);
    var at := JoinHas(ps, |before|);
    assert Codes(c)[at..at + 7][2] == Codes(c)[at + 2] && Codes(c)[at..at + 7][3] == Codes(c)[at + 3];
    assert c[at + 2] == 'm' && c[at + 3] == 'm';
  }

  lemma CanonicalOfTrimmed(k: string)
    ensures Canonical(TrimSpace(k)) == Canonical(k)
  {
    TrimmingKeepsPieces(k);
    CanonicalLaws(TrimSpace(k), k);
  }

  lemma NoFields(k: string, trimmed: string)
    requires trimmed == TrimSpace(k)
    requires IndexOf(trimmed, DOTTED_FIELDS) == -1 && IndexOf(Canonical(trimmed), CANONICAL_FIELDS) == -1
    ensures SummaryField(k) == None
  {
  }

  lemma NotAField(k: string)
    requires Ascii(Canonical(k)) && NoDoubleM(Canonical(k))
    ensures SummaryField(k) == None
  {
    NoDottedMarker(k);
    CanonicalOfTrimmed(k);
    SchemaPreserved.NotMarked(Canonical(k), CANONICAL_FIELDS);
    NoFields(k, TrimSpace(k));
  }

  // ----- Forbidden names.

  /** A sensitive name in canonical form. */
  predicate Secret(s: string) { s in SENSITIVE || IsEncryptedCanonical(s) }

  /** Enough of the shape of those names. */
  predicate Plainly(s: string) { Tidy(s) && NoDoubleM(s) && forall i :: 0 <= i < |s| ==> s[i] != '.' }

  lemma Authorization(s: string) requires s == "authorization" ensures Plainly(s) {}
  lemma ApiKey(s: string) requires s == "api_key" ensures Plainly(s) {}
  lemma Apikey(s: string) requires s == "apikey" ensures Plainly(s) {}
  lemma XApiKey(s: string) requires s == "x_api_key" ensures Plainly(s) {}
  lemma AccessToken(s: string) requires s == "access_token" ensures Plainly(s) {}
  lemma RefreshToken(s: string) requires s == "refresh_token" ensures Plainly(s) {}
  lemma BearerToken(s: string) requires s == "bearer_token" ensures Plainly(s) {}
  lemma Token(s: string) requires s == "token" ensures Plainly(s) {}
  lemma Password(s: string) requires s == "password" ensures Plainly(s) {}
  lemma SecretWord(s: string) requires s == "secret" ensures Plainly(s) {}
  lemma ClientSecret(s: string) requires s == "client_secret" ensures Plainly(s) {}
  lemma Cookie(s: string) requires s == "cookie" ensures Plainly(s) {}
  lemma SetCookie(s: string) requires s == "set_cookie" ensures Plainly(s) {}
  lemma EncryptedReasoning(s: string) requires s == "encrypted_reasoning" ensures Plainly(s) {}
  lemma ReasoningEncrypted(s: string) requires s == "reasoning_encrypted" ensures Plainly(s) {}

  lemma SecretsArePlain(s: string)
    requires Secret(s)
    ensures Plainly(s)
  {
    if s == "authorization" { Authorization(s); }
    else if s == "api_key" { ApiKey(s); }
    else if s == "apikey" { Apikey(s); }
    else if s == "x_api_key" { XApiKey(s); }
    else if s == "access_token" { AccessToken(s); }
    else if s == "refresh_token" { RefreshToken(s); }
    else if s == "bearer_token" { BearerToken(s); }
    else if s == "token" { Token(s); }
    else if s == "password" { Password(s); }
    else if s == "secret" { SecretWord(s); }
    else if s == "client_secret" { ClientSecret(s); }
    else if s == "cookie" { Cookie(s); }
    else if s == "set_cookie" { SetCookie(s); }
    else if s == "encrypted_reasoning" { EncryptedReasoning(s); }
    else { ReasoningEncrypted(s); }
  }

  lemma SecretIsSensitive(name: string, s: string)
    requires Secret(s) && Canonical(name) == Canonical(s)
    ensures IsSensitive(name)
  {
    SecretsArePlain(s);
    TidyCanonical(s);
    assert Underscored(s) == s;
  }

  const METADATA := "metadata"

  lemma MetadataWord()
    ensures Piece(Codes(METADATA))
  {
  }

  /** A name after `metadata` and a mark is the rest of the pieces. */
  lemma MetadataPieces(mark: string, rest: string)
    requires mark == "." || mark == "_"
    ensures Pieces(Runes(METADATA + mark + rest)) == [Codes(METADATA)] + Pieces(Runes(rest))
  {
    var m := mark[0] as int;
    assert Ascii(METADATA + mark) && Codes(METADATA + mark) == Codes(METADATA) + [m];
    RunesAfterAscii(METADATA + mark, rest);
    PiecesOfSplit(Codes(METADATA), m, Runes(rest));
    MetadataWord();
    WordPieces(Codes(METADATA));
  }

  lemma SamePieces(a: string, b: string, first: seq<int>)
    requires [first] + Pieces(Runes(a)) == [first] + Pieces(Runes(b))
    ensures Canonical(a) == Canonical(b)
  {
    assert Pieces(Runes(a)) == ([first] + Pieces(Runes(a)))[1..] == Pieces(Runes(b));
    CanonicalLaws(a, b);
  }

  lemma DottedNameIsSecret(trimmed: string, name: string, s: string)
    requires Secret(s) && trimmed == METADATA + "." + name && Canonical(trimmed) == METADATA + "_" + s
    ensures IsSensitive(name)
  {
    MetadataPieces(".", name);
    MetadataPieces("_", s);
    CanonicalPieces(trimmed);
    SamePieces(name, s, Codes(METADATA));
    SecretIsSensitive(name, s);
  }

  lemma DottedMetadata(k: string, trimmed: string, name: string)
    requires trimmed == TrimSpace(k) && trimmed == "metadata." + name
    ensures MetadataName(k) == Some(name)
  {
    assert trimmed[|"metadata."|..] == name;
  }

  lemma CanonicalMetadata(k: string, trimmed: string, name: string)
    requires trimmed == TrimSpace(k) && !("metadata." <= trimmed) && Canonical(trimmed) == "metadata_" + name
    ensures MetadataName(k) == Some(name)
  {
    assert ("metadata_" + name)[|"metadata_"|..] == name;
  }

  lemma DottedMetadataIsSecret(k: string, trimmed: string, name: string, s: string)
    requires Secret(s) && trimmed == TrimSpace(k) && trimmed == "metadata." + name &&
             Canonical(trimmed) == "metadata_" + s
    ensures MetadataName(k) == Some(name) && IsSensitive(name)
  {
    assert "metadata." == METADATA + "." && "metadata_" == METADATA + "_";
    DottedMetadata(k, trimmed, name);
    DottedNameIsSecret(trimmed, name, s);
  }

  /** Whatever the spelling of a metadata key, its name is read as the secret it is. */
  lemma MetadataNameIsSecret(k: string, s: string)
    requires Secret(s) && Canonical(k) == "metadata_" + s
    ensures MetadataName(k).Some? && IsSensitive(MetadataName(k).value)
  {
    var trimmed := TrimSpace(k);
    CanonicalOfTrimmed(k);
    if "metadata." <= trimmed {
      DottedMetadataIsSecret(k, trimmed, trimmed[|"metadata."|..], s);
    } else {
      CanonicalMetadata(k, trimmed, s);
      SecretIsSensitive(s, s);
    }
  }

  lemma MetadataShape(c: string, s: string)
    requires Secret(s) && c == "metadata_" + s
    ensures Ascii(c) && NoDoubleM(c) && CanonicalSide(c) == None
  {
    SecretsArePlain(s);
    assert c[0] == 'm' && c[8] == '_';
    forall i | 0 <= i < |c| ensures Within(c[i], 0x00, 0x7F) { if i >= 9 { assert c[i] == s[i - 9]; } }
    forall i | 0 <= i < |c| - 1 ensures c[i] == 'm' ==> c[i + 1] != 'm' {
      if i >= 9 { assert c[i] == s[i - 9] && c[i + 1] == s[i - 8]; }
    }
  }

  lemma DroppedPlain(k: string)
    requires SummarySide(k) == None && SummaryField(k) == None
    requires IsRawPayload(k) || (MetadataName(k).Some? && IsSensitive(MetadataName(k).value))
    ensures RuleFor(k).Plain? && RuleFor(k).rule.Drop?
  {
  }

  lemma EncryptedShape(c: string)
    requires IsEncryptedCanonical(c)
    ensures Ascii(c) && NoDoubleM(c) && CanonicalSide(c) == None
  {
    SecretsArePlain(c);
  }

  /** Encrypted reasoning, or a metadata entry with a sensitive name, in any spelling. */
  ghost predicate ForbiddenKey(k: string) {
    IsEncryptedCanonical(Canonical(k)) || exists s :: Secret(s) && Canonical(k) == "metadata_" + s
  }

  lemma ForbiddenIsDropped(k: string)
    requires ForbiddenKey(k)
    ensures RuleFor(k).Plain? && RuleFor(k).rule.Drop?
  {
    if IsEncryptedCanonical(Canonical(k)) {
      EncryptedShape(Canonical(k));
    } else {
      var s :| Secret(s) && Canonical(k) == "metadata_" + s;
      MetadataShape(Canonical(k), s);
      MetadataNameIsSecret(k, s);
    }
    NotAField(k);
    DroppedPlain(k);
  }

  lemma AllowedByStart(k: string)
    requires Canonical(k) != "" && Canonical(k)[0] == 's'
    ensures !ForbiddenKey(k)
  {
    assert forall s :: ("metadata_" + s)[0] == 'm';
  }

  lemma SequenceTidy(k: string) requires k == "sequence" ensures Tidy(k) && k[0] == 's' {}
  lemma EventSequenceTidy(k: string) requires k == "span_event_sequence" ensures Tidy(k) && k[0] == 's' {}

  /** The keys a recorder writes are not forbidden. */
  lemma SequenceAllowed(k: string)
    requires k == "sequence" || k == "span_event_sequence"
    ensures !ForbiddenKey(k)
  {
    if k == "sequence" { SequenceTidy(k); } else { EventSequenceTidy(k); }
    TidyCanonical(k);
    AllowedByStart(k);
  }

  lemma DropOmits(rules: Rules, attrs: Attributes, opts: Options, k: string)
    requires rules(k).Plain? && rules(k).rule.Drop?
    ensures k !in Redacted(rules, attrs, opts)
  {
  }

  /** No forbidden attribute survives, with any options. */
  lemma ForbiddenNeverSurvives(attrs: Attributes, opts: Options, k: string)
    requires ForbiddenKey(k)
    ensures k !in Redacted(RuleFor, attrs, opts)
  {
    ForbiddenIsDropped(k);
    DropOmits(RuleFor, attrs, opts, k);
  }

  predicate EncryptedError(e: Option<ErrorInfo>) {
    e.Some? && (IsEncryptedReasoning(e.value.kind) || IsEncryptedReasoning(e.value.operation))
  }

  lemma EncryptedMessage(e: Option<ErrorInfo>)
    requires EncryptedError(e)
    ensures ErrorOf(e).value.message == "" && EncryptedError(ErrorOf(e))
    ensures |ErrorNotes(e)| == if e.value.message == "" then 0 else 1
  {
  }

  /** A redacted span holds no forbidden attribute, neither itself nor in an event, and no
      message of an error about encrypted reasoning. */
  lemma SpanHoldsNothingForbidden(s: Span, opts: Options, out: Span, k: string, i: nat)
    requires out == RedactedSpan(RuleFor, s, opts) && ForbiddenKey(k)
    ensures k !in out.attributes && (EncryptedError(out.error) ==> out.error.value.message == "")
    ensures i < |out.events| ==>
              k !in out.events[i].attributes
              && (EncryptedError(out.events[i].error) ==> out.events[i].error.value.message == "")
  {
    ForbiddenNeverSurvives(s.attributes, opts, k);
    if EncryptedError(s.error) { EncryptedMessage(s.error); }
    if i < |out.events| {
      ForbiddenNeverSurvives(s.events[i].attributes, opts, k);
      if EncryptedError(s.events[i].error) { EncryptedMessage(s.events[i].error); }
    }
  }

  lemma FieldOmits(rules: Rules, attrs: Attributes, opts: Options, k: string, side: Side, name: string,
                   fallback: PlainRule)
    requires rules(k) == FieldText(side, NameRule(name), fallback)
    requires !Enabled(side, opts) || IsSensitive(name) || |name| > MAX_NAME_BYTES
    ensures k !in Redacted(rules, attrs, opts)
  {
  }

  /** A field of one of the library's summaries does not survive when its side is not captured
      or its name is sensitive or too long; nor does the summary itself when not captured. */
  lemma SummariesObeyCapture(kind: TwoStages.Attached, attrs: Attributes, opts: Options, name: string)
    requires TrimSpace(name) == name
    ensures var key, side := TwoStages.KeyOf(kind), TwoStages.SideOf(kind);
            && (!Enabled(side, opts) ==> key !in Redacted(RuleFor, attrs, opts))
            && (!Enabled(side, opts) || IsSensitive(name) || |name| > MAX_NAME_BYTES ==>
                  key + ".fields." + name !in Redacted(RuleFor, attrs, opts))
  {
    var key, side := TwoStages.KeyOf(kind), TwoStages.SideOf(kind);
    var k := key + ".fields." + name;
    TwoStages.LibraryKey(kind);
    TextOmits(RuleFor, attrs, opts, key, side);
    TwoStages.FieldKeyNoText(key, side, name);
    TwoStages.FieldKeyField(k, key, side, name);
    TwoStages.RuleOfField(k, side, name);
    if !Enabled(side, opts) || IsSensitive(name) || |name| > MAX_NAME_BYTES {
      FieldOmits(RuleFor, attrs, opts, k, side, name, PlainRuleFor(k));
    }
  }

  lemma TextOmits(rules: Rules, attrs: Attributes, opts: Options, key: string, side: Side)
    requires rules(key) == SummaryText(side)
    ensures !Enabled(side, opts) ==> key !in Redacted(rules, attrs, opts)
  {
  }

  // ----- What survives is within the limit.

  predicate Limited(rule: Rule) {
    match rule
    case SummaryText(_) => true
    case FieldText(_, named, _) => !named.Pass?
    case Plain(plain) => !plain.Pass?
  }

  lemma LimitedFate(rule: Rule, key: string, value: Value, opts: Options)
    requires ValidOptions(opts) && Limited(rule)
    ensures var fate := FateUnder(rule, key, value, opts);
            fate.Keep? && fate.value.Str? ==> |fate.value.text| <= Limit(opts)
  {
    if value.Str? { CutIsLongest(value.text, Limit(opts)); }
  }

  lemma TextRule(k: string)
    requires SummarySide(k).Some?
    ensures RuleFor(k) == SummaryText(SummarySide(k).value)
  {
  }

  lemma PlainKey(k: string)
    requires SummarySide(k) == None && SummaryField(k) == None
    ensures RuleFor(k) == Plain(PlainRuleFor(k))
  {
  }

  lemma NamesNeverPass(name: string)
    ensures !NameRule(name).Pass?
  {
  }

  lemma MetadataNeverPasses(k: string)
    requires MetadataName(k).Some?
    ensures !PlainRuleFor(k).Pass?
  {
    NamesNeverPass(MetadataName(k).value);
  }

  lemma TextsAreLimited(k: string)
    requires SummarySide(k).Some? || SummaryField(k).Some? || MetadataName(k).Some?
    ensures Limited(RuleFor(k))
  {
    if SummarySide(k).Some? {
      TextRule(k);
    } else if SummaryField(k).Some? {
      var (side, name) := SummaryField(k).value;
      TwoStages.RuleOfField(k, side, name);
      NamesNeverPass(name);
    } else {
      PlainKey(k);
      MetadataNeverPasses(k);
    }
  }

  /** A surviving text of a summary, a summary field or a metadata entry is within the limit. */
  lemma SurvivorsAreLimited(attrs: Attributes, opts: Options, k: string)
    requires ValidOptions(opts) && k in Redacted(RuleFor, attrs, opts)
    requires SummarySide(k).Some? || SummaryField(k).Some? || MetadataName(k).Some?
    ensures var value := Redacted(RuleFor, attrs, opts)[k];
            value.Str? ==> |value.text| <= Limit(opts)
  {
    TextsAreLimited(k);
    LimitedFate(RuleFor(k), k, attrs[k], opts);
  }

  // ----- Nothing disappears without a record.

  predicate HonestRule(rule: Rule) {
    match rule
    case SummaryText(_) => true
    case FieldText(_, named, fallback) => HonestPlain(named) && HonestPlain(fallback)
    case Plain(plain) => HonestPlain(plain)
  }

  predicate HonestPlain(rule: PlainRule) { rule.Drop? ==> rule.reason != SUMMARY_TRUNCATED }

  lemma ReasonsDiffer()
    ensures SUMMARY_TRUNCATED !in
      {SUMMARY_DISABLED, DEFAULT_OMITTED, ENCRYPTED_REASONING_FORBIDDEN, FIELD_LIMIT_EXCEEDED}
  {
    assert |SUMMARY_TRUNCATED| == 17 && |DEFAULT_OMITTED| == 15 && |SUMMARY_DISABLED| == 16;
    assert |ENCRYPTED_REASONING_FORBIDDEN| == 29 && |FIELD_LIMIT_EXCEEDED| == 20;
  }

  lemma NamesAreHonest(name: string)
    ensures HonestPlain(NameRule(name)) && OmissionReason(name) != SUMMARY_TRUNCATED
  {
    ReasonsDiffer();
  }

  lemma PlainRulesAreHonest(k: string)
    ensures HonestPlain(PlainRuleFor(k))
  {
    NamesAreHonest(k);
    if !IsRawPayload(k) && MetadataName(k).Some? { NamesAreHonest(MetadataName(k).value); }
  }

  lemma RulesAreHonest(k: string)
    ensures HonestRule(RuleFor(k))
  {
    PlainRulesAreHonest(k);
    if SummarySide(k).Some? {
      TextRule(k);
    } else if SummaryField(k).Some? {
      var (side, name) := SummaryField(k).value;
      TwoStages.RuleOfField(k, side, name);
      NamesAreHonest(name);
    } else {
      PlainKey(k);
    }
  }

  lemma OneNote(rule: Rule, key: string, value: Value, opts: Options, other: string)
    requires HonestRule(rule)
    ensures var fate := FateUnder(rule, key, value, opts);
            Summaries.Omissions(Notes(fate), other) == if fate.Omit? && other == key then 1 else 0
  {
    ReasonsDiffer();
    var notes := Notes(FateUnder(rule, key, value, opts));
    if notes != [] { assert notes[..|notes| - 1] == []; }
  }

  lemma {:induction false} RecordsAccount(rules: Rules, keys: seq<string>, attrs: Attributes, opts: Options, k: string)
    requires (forall x :: x in keys ==> x in attrs) && (forall i, j :: 0 <= i < j < |keys| ==> keys[i] != keys[j])
    requires forall x :: HonestRule(rules(x))
    ensures Summaries.Omissions(RecordsOf(rules, keys, attrs, opts), k)
         == if k in keys && AttributeFate(rules, k, attrs[k], opts).Omit? then 1 else 0
  {
    if keys != [] {
      var n := |keys| - 1;
      var init, last := keys[..n], keys[n];
      assert keys == init + [last] && last in keys;
      RecordsAccount(rules, init, attrs, opts, k);
      OneNote(rules(last), last, attrs[last], opts, k);
      Summaries.OmissionsAppend(
        RecordsOf(rules, init, attrs, opts), Notes(AttributeFate(rules, last, attrs[last], opts)), k);
      assert k in keys <==> k in init || k == last;
      assert last !in init;
    }
  }

  /** Every attribute either survives or has exactly one record of its omission, and there is
      no such record for anything else. */
  lemma OmissionsAreRecorded(attrs: Attributes, opts: Options, k: string)
    ensures Summaries.Omissions(Records(RuleFor, attrs, opts), k)
         == if k in attrs && k !in Redacted(RuleFor, attrs, opts) then 1 else 0
  {
    forall x ensures HonestRule(RuleFor(x)) { RulesAreHonest(x); }
    RecordsAccount(RuleFor, KeyOrder.SortedKeys(attrs.Keys), attrs, opts, k);
  }
}
