/** What applying redaction once, twice, or with two sets of options does. */
module RedactionLaws {
  import opened Numbers
  import opened Model
  import opened Truncation
  import opened KeyOrder
  import opened Redaction

  /** Options that allow only what both allow. */
  function Meet(a: Options, b: Options): (m: Options)
    ensures ValidOptions(a) && ValidOptions(b) ==> ValidOptions(m) && Limit(m) == Min(Limit(a), Limit(b))
  {
    Options(a.captureInput && b.captureInput, a.captureOutput && b.captureOutput, Min(Limit(a), Limit(b)))
  }

  /** A kept attribute keeps its type; only the text of a string can be cut. */
  lemma FateKeepsType(rule: Rule, key: string, value: Value, opts: Options)
    requires FateUnder(rule, key, value, opts).Keep?
    ensures var kept := FateUnder(rule, key, value, opts).value;
            kept == value || (value.Str? && kept == Str(Truncated(value.text, Limit(opts))))
  {
  }

  /** For one attribute, two passes keep it exactly when the meet keeps it, with the same value. */
  lemma FatesCompose(rule: Rule, key: string, value: Value, a: Options, b: Options)
    requires ValidOptions(a) && ValidOptions(b)
    ensures var first := FateUnder(rule, key, value, a);
            var both := FateUnder(rule, key, value, Meet(a, b));
            if first.Keep? then
              var second := FateUnder(rule, key, first.value, b);
              second.Keep? == both.Keep? && (both.Keep? ==> second.value == both.value)
            else both.Omit?
  {
    if value.Str? { TruncateTwice(value.text, Limit(a), Limit(b)); }
  }

  /** Redaction passes compose to the meet of their options. */
  lemma PassesCompose(rules: Rules, attrs: Attributes, a: Options, b: Options)
    requires ValidOptions(a) && ValidOptions(b)
    ensures Redacted(rules, Redacted(rules, attrs, a), b) == Redacted(rules, attrs, Meet(a, b))
  {
    var once := Redacted(rules, attrs, a);
    var twice, meet := Redacted(rules, once, b), Redacted(rules, attrs, Meet(a, b));
    forall k | k in attrs
      ensures k in twice <==> k in meet
      ensures k in twice && k in meet ==> twice[k] == meet[k]
    {
      FatesCompose(rules(k), k, attrs[k], a, b);
    }
    assert twice.Keys == meet.Keys;
  }

  /** The order of two passes does not matter for the attributes. */
  lemma PassesCommute(rules: Rules, attrs: Attributes, a: Options, b: Options)
    requires ValidOptions(a) && ValidOptions(b)
    ensures Redacted(rules, Redacted(rules, attrs, a), b) == Redacted(rules, Redacted(rules, attrs, b), a)
  {
    PassesCompose(rules, attrs, a, b);
    PassesCompose(rules, attrs, b, a);
  }

  /** What a pass keeps, the same pass keeps unchanged and without a record. */
  lemma FateRepeats(rule: Rule, key: string, value: Value, opts: Options)
    requires ValidOptions(opts) && FateUnder(rule, key, value, opts).Keep?
    ensures var kept := FateUnder(rule, key, value, opts).value;
            FateUnder(rule, key, kept, opts) == Keep(kept, None)
  {
    if value.Str? { TruncateTwice(value.text, Limit(opts), Limit(opts)); }
  }

  lemma {:induction false} NoRecords(rules: Rules, keys: seq<string>, attrs: Attributes, opts: Options)
    requires forall k :: k in keys ==> k in attrs && AttributeFate(rules, k, attrs[k], opts) == Keep(attrs[k], None)
    ensures RecordsOf(rules, keys, attrs, opts) == []
  {
    if keys != [] {
      assert keys[|keys| - 1] in keys;
      NoRecords(rules, keys[..|keys| - 1], attrs, opts);
    }
  }

  /** A map on which every fate is to be kept as it is, is left alone without a record. */
  lemma Untouched(rules: Rules, attrs: Attributes, opts: Options)
    requires forall k :: k in attrs ==> AttributeFate(rules, k, attrs[k], opts) == Keep(attrs[k], None)
    ensures Redacted(rules, attrs, opts) == attrs && Records(rules, attrs, opts) == []
  {
    NoRecords(rules, SortedKeys(attrs.Keys), attrs, opts);
  }

  lemma AttributesRepeat(rules: Rules, attrs: Attributes, opts: Options)
    requires ValidOptions(opts)
    ensures Redacted(rules, Redacted(rules, attrs, opts), opts) == Redacted(rules, attrs, opts)
    ensures Records(rules, Redacted(rules, attrs, opts), opts) == []
  {
    var once := Redacted(rules, attrs, opts);
    forall k | k in once ensures AttributeFate(rules, k, once[k], opts) == Keep(once[k], None) {
      FateRepeats(rules(k), k, attrs[k], opts);
    }
    Untouched(rules, once, opts);
  }

  lemma ErrorRepeats(e: Option<ErrorInfo>)
    ensures ErrorOf(ErrorOf(e)) == ErrorOf(e) && ErrorNotes(ErrorOf(e)) == []
  {
  }

  lemma EventRedactionIdempotent(rules: Rules, e: Event, opts: Options)
    requires ValidOptions(opts)
    ensures RedactedEvent(rules, RedactedEvent(rules, e, opts), opts) == RedactedEvent(rules, e, opts)
  {
    AttributesRepeat(rules, e.attributes, opts);
    ErrorRepeats(e.error);
    var once := RedactedEvent(rules, e, opts);
    assert once.redaction + [] + [] == once.redaction;
  }

  /** Repeating the redaction of a span changes nothing and adds no record. */
  lemma SpanRedactionIdempotent(rules: Rules, s: Span, opts: Options)
    requires ValidOptions(opts)
    ensures RedactedSpan(rules, RedactedSpan(rules, s, opts), opts) == RedactedSpan(rules, s, opts)
  {
    var once := RedactedSpan(rules, s, opts);
    AttributesRepeat(rules, s.attributes, opts);
    ErrorRepeats(s.error);
    forall i | 0 <= i < |s.events| ensures RedactedEvent(rules, once.events[i], opts) == once.events[i] {
      EventRedactionIdempotent(rules, s.events[i], opts);
    }
    assert RedactedEvents(rules, once.events, opts) == once.events;
    assert once.redaction + [] + [] == once.redaction;
  }

  /** Two passes over a span give, for the span and for each event, the attributes and the
      error of one pass with the meet of the options. */
  lemma SpanPassesCompose(rules: Rules, s: Span, a: Options, b: Options)
    requires ValidOptions(a) && ValidOptions(b)
    ensures var two, one := RedactedSpan(rules, RedactedSpan(rules, s, a), b), RedactedSpan(rules, s, Meet(a, b));
            && two.attributes == one.attributes && two.error == one.error
            && |two.events| == |one.events|
            && forall i :: 0 <= i < |two.events| ==>
                 two.events[i].attributes == one.events[i].attributes && two.events[i].error == one.events[i].error
  {
    PassesCompose(rules, s.attributes, a, b);
    ErrorRepeats(s.error);
    var first := RedactedSpan(rules, s, a);
    forall i | 0 <= i < |s.events|
      ensures var two, one := RedactedEvent(rules, first.events[i], b), RedactedEvent(rules, s.events[i], Meet(a, b));
              two.attributes == one.attributes && two.error == one.error
    {
      PassesCompose(rules, s.events[i].attributes, a, b);
      ErrorRepeats(s.events[i].error);
    }
  }
}
