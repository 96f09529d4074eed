/** The whole redaction of an attribute, read off the words of its key. */
module RedactionInWords {
  import opened Model
  import opened Truncation
  import opened Redaction
  import opened KeyWords
  import opened RawPayloads
  import KeyOrder

  // ----- What happens to an attribute.

  function Why(name: string): string {
    if SpellsEncrypted(name) then "encrypted_reasoning_forbidden" else "default_omitted"
  }

  function Bytes(v: Value): nat {
    match v
    case Str(text) => |text|
    case Bytes(content) => |content|
    case _ => 0
  }

  /** A text is cut to the limit, 1024 bytes when none is set; a cut leaves a record of both lengths. */
  function Shortened(k: string, v: Value, opts: Options): Fate {
    if !v.Str? then Keep(v, None)
    else
      var kept := Truncated(v.text, if opts.maxSummaryBytes == 0 then 1024 else opts.maxSummaryBytes);
      Keep(Str(kept),
           if |kept| == |v.text| then None else Some(Record(k, "summary_truncated", |v.text|, |kept|)))
  }

  /** The name of a summary field or of a metadata entry decides. */
  function Named(k: string, name: string, v: Value, opts: Options): Fate {
    if SpellsSecret(name) then Omit(Record(k, Why(name), Bytes(v), 0))
    else if |name| > 128 then Omit(Record(k, "field_limit_exceeded", Bytes(v), 0))
    else Shortened(k, v, opts)
  }

  /** What is no summary and no field of one. */
  function Other(k: string, v: Value, opts: Options): Fate {
    if SpellsEncrypted(k) || (BeginsRaw(k) && !OfToolInputSummary(k)) then Omit(Record(k, Why(k), Bytes(v), 0))
    else
      match MetadataName(k)
      case Some(name) => Named(k, name, v, opts)
      case None => Keep(v, None)
  }

  function FateInWords(k: string, v: Value, opts: Options): Fate {
    var disabled := Omit(Record(k, "summary_disabled", 0, 0));
    if SpellsSummary(k, Input) then (if opts.captureInput then Shortened(k, v, opts) else disabled)
    else if SpellsSummary(k, Output) then (if opts.captureOutput then Shortened(k, v, opts) else disabled)
    else
      match SummaryField(k)
      case None => Other(k, v, opts)
      case Some((side, name)) =>
        if !(if side.Input? then opts.captureInput else opts.captureOutput) then disabled
        else if v.Str? || !GoodName(name) then Named(k, name, v, opts)
        else Other(k, v, opts)
  }

  // ----- It is what the rules do.

  lemma CutIs(k: string, v: Value, opts: Options)
    ensures PlainFate(Cut, k, v, opts) == Shortened(k, v, opts)
  {
  }

  lemma NamedIs(k: string, name: string, v: Value, opts: Options)
    ensures PlainFate(NameRule(name), k, v, opts) == Named(k, name, v, opts)
  {
    SensitiveIff(name);
    EncryptedIff(name);
    CutIs(k, v, opts);
  }

  lemma OtherIs(k: string, v: Value, opts: Options)
    ensures PlainFate(PlainRuleFor(k), k, v, opts) == Other(k, v, opts)
  {
    RawIff(k);
    EncryptedIff(k);
    if MetadataName(k).Some? { NamedIs(k, MetadataName(k).value, v, opts); }
  }

  lemma FieldIs(k: string, side: Side, name: string, v: Value, opts: Options)
    ensures FateUnder(FieldText(side, NameRule(name), PlainRuleFor(k)), k, v, opts)
         == if !(if side.Input? then opts.captureInput else opts.captureOutput) then
              Omit(Record(k, "summary_disabled", 0, 0))
            else if v.Str? || !GoodName(name) then Named(k, name, v, opts)
            else Other(k, v, opts)
  {
    GoodNamesAreCut(name);
    NamedIs(k, name, v, opts);
    OtherIs(k, v, opts);
  }

  /** The rules and the words agree on every attribute. */
  lemma RulesInWords(k: string, v: Value, opts: Options)
    ensures AttributeFate(RuleFor, k, v, opts) == FateInWords(k, v, opts)
  {
    RuleOf(k);
    CutIs(k, v, opts);
    match SummaryField(k)
    case None => OtherIs(k, v, opts);
    case Some((side, name)) => FieldIs(k, side, name, v, opts);
  }

  // ----- All attributes, and all records.

  /** Every attribute has its fate, and what it leaves is recorded. */
  lemma RedactedInWords(attrs: Attributes, opts: Options, k: string)
    requires k in attrs
    ensures match FateInWords(k, attrs[k], opts)
            case Keep(value, note) =>
              && k in Redacted(RuleFor, attrs, opts) && Redacted(RuleFor, attrs, opts)[k] == value
              && (note.Some? ==> note.value in Records(RuleFor, attrs, opts))
            case Omit(why) => k !in Redacted(RuleFor, attrs, opts) && why in Records(RuleFor, attrs, opts)
  {
    RulesInWords(k, attrs[k], opts);
    NotesHeld(RuleFor, KeyOrder.SortedKeys(attrs.Keys), attrs, opts, k);
  }

  lemma {:induction false} NotesHeld(rules: Rules, keys: seq<string>, attrs: Attributes, opts: Options, k: string)
    requires (forall x :: x in keys ==> x in attrs) && k in keys
    ensures forall r :: r in Notes(AttributeFate(rules, k, attrs[k], opts)) ==> r in RecordsOf(rules, keys, attrs, opts)
  {
    var n := |keys| - 1;
    if keys[n] != k {
      assert keys == keys[..n] + [keys[n]];
      NotesHeld(rules, keys[..n], attrs, opts, k);
    }
  }

  /** The record is one that the fate of an attribute leaves. */
  ghost predicate LeftBy(r: Record, k: string, attrs: Attributes, opts: Options) {
    k in attrs && match FateInWords(k, attrs[k], opts)
                  case Keep(_, note) => note == Some(r)
                  case Omit(why) => why == r
  }

  lemma {:induction false} Owner(rules: Rules, keys: seq<string>, attrs: Attributes, opts: Options, r: Record)
      returns (k: string)
    requires (forall x :: x in keys ==> x in attrs) && r in RecordsOf(rules, keys, attrs, opts)
    ensures k in attrs && r in Notes(AttributeFate(rules, k, attrs[k], opts))
  {
    var n := |keys| - 1;
    assert keys == keys[..n] + [keys[n]] && keys[n] in keys;
    if r in RecordsOf(rules, keys[..n], attrs, opts) {
      k := Owner(rules, keys[..n], attrs, opts, r);
    } else {
      k := keys[n];
    }
  }

  lemma NotesAre(fate: Fate, r: Record)
    requires r in Notes(fate)
    ensures match fate
            case Keep(_, note) => note == Some(r)
            case Omit(why) => why == r
  {
  }

  /** And there is no other record. */
  lemma RecordsInWords(attrs: Attributes, opts: Options, r: Record)
    requires r in Records(RuleFor, attrs, opts)
    ensures exists k :: LeftBy(r, k, attrs, opts)
  {
    var k := Owner(RuleFor, KeyOrder.SortedKeys(attrs.Keys), attrs, opts, r);
    RulesInWords(k, attrs[k], opts);
    NotesAre(FateInWords(k, attrs[k], opts), r);
    assert LeftBy(r, k, attrs, opts);
  }

  // ----- Spans and events.

  /** An error keeps all but a message about encrypted reasoning, which leaves a record. */
  ghost predicate ErrorRedacted(e: Option<ErrorInfo>, after: Option<ErrorInfo>, notes: seq<Record>) {
    var secret := e.Some? && e.value.message != ""
                  && (SpellsEncrypted(e.value.kind) || SpellsEncrypted(e.value.operation));
    && after == (if secret then Some(e.value.(message := "")) else e)
    && notes == if secret then [Record("error.message", "encrypted_reasoning_forbidden", 0, 0)] else []
  }

  lemma ErrorsRedacted(e: Option<ErrorInfo>)
    ensures ErrorRedacted(e, ErrorOf(e), ErrorNotes(e))
  {
    if e.Some? {
      EncryptedIff(e.value.kind);
      EncryptedIff(e.value.operation);
    }
  }

  /** Redaction changes the attributes, the error, the records and the events of a span, and nothing
      else; the records it was given come first, then those of its attributes, then that of its error. */
  lemma SpanRedacted(s: Span, opts: Options, out: Span, i: nat)
    requires out == RedactedSpan(RuleFor, s, opts)
    ensures out == s.(attributes := Redacted(RuleFor, s.attributes, opts), error := out.error,
                      redaction := out.redaction, events := out.events)
    ensures s.redaction + Records(RuleFor, s.attributes, opts) <= out.redaction
    ensures ErrorRedacted(s.error, out.error, out.redaction[|s.redaction + Records(RuleFor, s.attributes, opts)|..])
    ensures |out.events| == |s.events|
    ensures i < |s.events| ==> EventRedacted(s.events[i], opts, out.events[i])
  {
    ErrorsRedacted(s.error);
    if i < |s.events| { EventsRedacted(s.events[i], opts, out.events[i]); }
  }

  ghost predicate EventRedacted(e: Event, opts: Options, out: Event) {
    var records := e.redaction + Records(RuleFor, e.attributes, opts);
    && out == e.(attributes := Redacted(RuleFor, e.attributes, opts), error := out.error, redaction := out.redaction)
    && records <= out.redaction && ErrorRedacted(e.error, out.error, out.redaction[|records|..])
  }

  lemma EventsRedacted(e: Event, opts: Options, out: Event)
    requires out == RedactedEvent(RuleFor, e, opts)
    ensures EventRedacted(e, opts, out)
  {
    ErrorsRedacted(e.error);
  }
}
