/** The exporter's pass over what the helpers' pass produced. */
module TwoStages {
  import opened Model
  import opened Utf8
  import opened Truncation
  import opened Names
  import opened TidyNames
  import opened Redaction
  import opened RedactionLaws
  import opened Summaries

  /** What the proofs need of a summary attribute key: it is tidy, ends in `.summary`, has
      its marker nowhere earlier, and its canonical name is one the redaction knows. */
  predicate SummaryKey(key: string, side: Side) {
    && Tidy(key) && 18 <= |key|
    && key[|key| - 8..] == ".summary" && SummarySide(key) == Some(side)
    && (forall j :: 0 <= j < |key| - 8 ==> key[j] == '.' ==> key[j + 1] != 's')
    && (forall j :: 0 <= j < |key| ==> key[j] != 'f')
    && key[0] != 'm'
  }

  // ----- Fields.

  lemma {:induction false} IndexAt(s: string, sub: string, i: nat)
    requires sub != "" && i + |sub| <= |s| && s[i..i + |sub|] == sub
    requires forall j :: 0 <= j < i ==> !(sub <= s[j..])
    ensures IndexOf(s, sub) == i
  {
    if i == 0 {
    } else {
      assert s[0..] == s && !(sub <= s[0..]);
      assert sub <= s <==> s[..|sub|] == sub;
      forall j | 0 <= j < i - 1 ensures !(sub <= s[1..][j..]) { assert s[1..][j..] == s[j + 1..]; }
      assert s[1..][i - 1..i - 1 + |sub|] == s[i..i + |sub|];
      IndexAt(s[1..], sub, i - 1);
    }
  }

  lemma MarkerAt(key: string, name: string, s: string)
    requires 8 <= |key| && key[|key| - 8..] == ".summary" && s == key + ".fields." + name
    ensures |s| >= |key| + 8 && s[|key| - 8..|key| + 8] == DOTTED_FIELDS
  {
    var i := |key| - 8;
    assert s[i..i + |DOTTED_FIELDS|] == key[i..] + ".fields.";
  }

  lemma MarkerNotAt(key: string, s: string, j: nat)
    requires j + 8 < |key| <= |s| && s[..|key|] == key && (key[j] == '.' ==> key[j + 1] != 's')
    ensures !(DOTTED_FIELDS <= s[j..])
  {
    assert s[j..][0] == key[j] && s[j..][1] == key[j + 1];
    if key[j] == '.' { NotPrefix(DOTTED_FIELDS, s[j..], 1); } else { NotPrefix(DOTTED_FIELDS, s[j..], 0); }
  }

  lemma FieldMarkerPosition(key: string, side: Side, name: string)
    requires SummaryKey(key, side)
    ensures IndexOf(key + ".fields." + name, DOTTED_FIELDS) == |key| - 8
  {
    var s := key + ".fields." + name;
    MarkerAt(key, name, s);
    forall j | 0 <= j < |key| - 8 ensures !(DOTTED_FIELDS <= s[j..]) { MarkerNotAt(key, s, j); }
    IndexAt(s, DOTTED_FIELDS, |key| - 8);
  }

  lemma LongNamesAreNoSummary(c: string)
    requires |c| > 22
    ensures CanonicalSide(c) == None
  {
  }

  lemma LongKeyNoText(key: string)
    requires |Canonical(key)| > 22
    ensures SummarySide(key) == None
  {
    LongNamesAreNoSummary(Canonical(key));
  }

  lemma AsciiJoin(a: string, b: string)
    requires Ascii(a) && Ascii(b)
    ensures Ascii(a + b)
  {
  }

  lemma FieldKeyTrimmed(key: string, side: Side, name: string)
    requires SummaryKey(key, side) && TrimSpace(name) == name
    ensures TrimSpace(key + ".fields." + name) == key + ".fields." + name
  {
    TidyIsAscii(key);
    var a := key + ".fields.";
    assert a[|a| - 1] == '.' && a[0] == key[0];
    AsciiJoin(key, ".fields.");
    TrimSpaceAfterPrefix(a, name);
  }

  lemma FieldKeyNoText(key: string, side: Side, name: string)
    requires SummaryKey(key, side)
    ensures SummarySide(key + ".fields." + name) == None
  {
    TidyFields(key);
    FieldsDot(key, name);
    DottedKeyNoText(key + ".fields", name, key + ".fields." + name);
  }

  lemma FieldsDot(key: string, name: string)
    ensures key + ".fields" + "." + name == key + ".fields." + name
  {
  }

  lemma DottedKeyNoText(a: string, name: string, k: string)
    requires Tidy(a) && |a| > 24 && k == a + "." + name
    ensures SummarySide(k) == None
  {
    CanonicalDotted(a, name);
    LongKeyNoText(k);
  }

  lemma TidyFields(key: string)
    requires Tidy(key)
    ensures Tidy(key + ".fields")
  {
    var a, b := key + ".fields", ".fields";
    assert NameChars(b) && SingleMarks(b);
    assert a[|a| - 1] == 's' && a[0] == key[0] && a[|key| - 1] == key[|key| - 1];
    forall i | 0 <= i < |a| ensures NameChar(a[i]) {
      if i >= |key| { assert a[i] == b[i - |key|]; } else { assert a[i] == key[i]; }
    }
    forall i | 0 <= i < |a| - 1 ensures Mark(a[i]) ==> !Mark(a[i + 1]) {
      if i >= |key| { assert a[i] == b[i - |key|] && a[i + 1] == b[i + 1 - |key|]; }
      else if i < |key| - 1 { assert a[i] == key[i] && a[i + 1] == key[i + 1]; }
    }
  }

  lemma FieldKeySlices(key: string, name: string)
    ensures var s := key + ".fields." + name;
            |s| == |key| + 8 + |name| && s[..|key|] == key && s[|key| + 8..] == name
  {
  }

  lemma FieldKeyAt(key: string, side: Side, name: string)
    requires 8 <= |key| && SummarySide(key) == Some(side) && TrimSpace(name) == name
    ensures |key + ".fields." + name| >= |key| + 8
    ensures FieldAt(key + ".fields." + name, |key| - 8, 8, 16) == Some((side, name))
  {
    FieldKeySlices(key, name);
    FieldAtIs(key + ".fields." + name, |key| - 8, 8, 16, side, name);
  }

  lemma FieldKeyFacts(k: string, key: string, side: Side, name: string)
    requires SummaryKey(key, side) && TrimSpace(name) == name && k == key + ".fields." + name
    ensures TrimSpace(k) == k && IndexOf(k, DOTTED_FIELDS) == |key| - 8
    ensures FieldAt(k, |key| - 8, 8, 16) == Some((side, name))
  {
    FieldKeyAt(key, side, name);
    FieldKeyTrimmed(key, side, name);
    FieldMarkerPosition(key, side, name);
  }

  lemma FieldKeyField(k: string, key: string, side: Side, name: string)
    requires SummaryKey(key, side) && TrimSpace(name) == name && k == key + ".fields." + name
    ensures SummaryField(k) == Some((side, name))
  {
    FieldKeyFacts(k, key, side, name);
    DottedFieldIs(k, |key| - 8, Some((side, name)));
  }

  lemma EligibleNameRule(name: string)
    ensures EntryRuleFor(name).Eligible? <==> NameRule(name) == Cut
  {
  }

  /** A field attribute of a summary is classified as a field of that side, under its name. */
  lemma FieldRule(key: string, side: Side, name: string)
    requires SummaryKey(key, side) && TrimSpace(name) == name && EntryRuleFor(name).Eligible?
    ensures RuleFor(key + ".fields." + name) == FieldText(side, Cut, PlainRuleFor(key + ".fields." + name))
  {
    FieldKeyNoText(key, side, name);
    FieldKeyField(key + ".fields." + name, key, side, name);
    EligibleNameRule(name);
    RuleOfField(key + ".fields." + name, side, name);
  }

  lemma RuleOfField(k: string, side: Side, name: string)
    requires SummarySide(k) == None && SummaryField(k) == Some((side, name))
    ensures RuleFor(k) == FieldText(side, NameRule(name), PlainRuleFor(k))
  {
  }

  // ----- The name attribute.

  lemma NoMarker(s: string, marker: string)
    requires |marker| > 10 && marker[9] == 'f'
    requires forall j :: 0 <= j < |s| ==> s[j] != 'f'
    ensures IndexOf(s, marker) == -1
  {
    if IndexOf(s, marker) >= 0 { OccurrenceHas(s, marker, IndexOf(s, marker), 9); }
  }

  lemma TidyName(key: string)
    requires Tidy(key)
    ensures Tidy(key + ".name")
    ensures Underscored(key + ".name") == Underscored(key) + "_name"
  {
    var a, b := key + ".name", ".name";
    assert NameChars(b) && SingleMarks(b);
    assert a[|a| - 1] == 'e' && a[0] == key[0] && a[|key| - 1] == key[|key| - 1];
    forall i | 0 <= i < |a| ensures NameChar(a[i]) {
      if i >= |key| { assert a[i] == b[i - |key|]; } else { assert a[i] == key[i]; }
    }
    forall i | 0 <= i < |a| - 1 ensures Mark(a[i]) ==> !Mark(a[i + 1]) {
      if i >= |key| { assert a[i] == b[i - |key|] && a[i + 1] == b[i + 1 - |key|]; }
      else if i < |key| - 1 { assert a[i] == key[i] && a[i + 1] == key[i + 1]; }
    }
  }

  lemma NameKeyNoText(key: string, side: Side)
    requires SummaryKey(key, side)
    ensures SummarySide(key + ".name") == None
  {
    TidyName(key);
    TidyCanonical(key + ".name");
    LongNamesAreNoSummary(Canonical(key + ".name"));
  }

  lemma NameKeyNoField(key: string, side: Side)
    requires SummaryKey(key, side)
    ensures SummaryField(key + ".name") == None
  {
    var s := key + ".name";
    TidyName(key);
    TidyCanonical(s);
    TidyTrimmed(s);
    NoNameMarker(key, side);
    NoFieldMarkers(s, Underscored(s));
  }

  lemma NoNameMarker(key: string, side: Side)
    requires SummaryKey(key, side)
    ensures IndexOf(key + ".name", DOTTED_FIELDS) == -1
    ensures IndexOf(Underscored(key + ".name"), CANONICAL_FIELDS) == -1
  {
    var s := key + ".name";
    assert forall j :: 0 <= j < |s| ==> s[j] != 'f';
    NoMarker(s, DOTTED_FIELDS);
    NoMarker(Underscored(s), CANONICAL_FIELDS);
  }

  /** The name attribute of a summary is only looked at by the last tests. */
  lemma NameKeyPlain(key: string, side: Side)
    requires SummaryKey(key, side)
    ensures RuleFor(key + ".name") == Plain(PlainRuleFor(key + ".name"))
  {
    NameKeyNoText(key, side);
    NameKeyNoField(key, side);
  }

  lemma NameKeyRule(key: string, side: Side)
    requires SummaryKey(key, side)
    ensures var raw := IsRawCanonical(Underscored(key) + "_name");
            PlainRuleFor(key + ".name") == if raw then Drop(DEFAULT_OMITTED) else Pass
  {
    var s := key + ".name";
    TidyName(key);
    TidyCanonical(s);
    TidyTrimmed(s);
    NotPrefix("metadata.", s, 0);
    NotPrefix("metadata_", Underscored(s), 0);
    assert |Underscored(s)| > 22;
    assert !IsEncryptedCanonical(Underscored(s));
  }

  // ----- The second stage.

  /** The name attribute passes the second stage unless it reads as a raw payload. */
  predicate NamePasses(key: string) { !IsRawCanonical(Underscored(key) + "_name") }

  /** k is the attribute of field i, which was eligible, and v its cut text. */
  predicate IsField(key: string, entries: seq<Entry>, opts: Options, k: string, v: Value, i: nat)
    requires i < |entries|
  {
    && k == key + ".fields." + entries[i].name && EntryRuleFor(entries[i].name).Eligible?
    && v == Str(Truncated(entries[i].value, Limit(opts)))
  }

  lemma FirstStageKeys(key: string, side: Side, path: string, name: string, text: string, entries: seq<Entry>,
                       opts: Options, k: string)
    requires k in SummaryResult(key, path, side, name, text, entries, opts)
    ensures Enabled(side, opts)
    ensures var v := SummaryResult(key, path, side, name, text, entries, opts)[k];
            || (k == key && v == Str(Truncated(text, Limit(opts))))
            || (k == key + ".name" && name != "" && v == Str(name))
            || (exists i :: 0 <= i < |entries| && IsField(key, entries, opts, k, v, i))
  {
    var attrs := MapAttributes(EntryRuleFor, key + ".fields.", path + ".fields.", entries, |entries|, opts);
    if k in attrs {
      var i := MapKey(EntryRuleFor, key + ".fields.", path + ".fields.", entries, |entries|, opts, k);
      assert IsField(key, entries, opts, k, attrs[k], i);
    }
  }

  lemma {:induction false} MapKey(rules: EntryRules, prefix: string, path: string, entries: seq<Entry>, n: nat,
                                  opts: Options, k: string) returns (i: nat)
    requires n <= |entries| && k in MapAttributes(rules, prefix, path, entries, n, opts)
    ensures i < n && k == prefix + entries[i].name && rules(entries[i].name).Eligible?
    ensures MapAttributes(rules, prefix, path, entries, n, opts)[k] == Str(Truncated(entries[i].value, Limit(opts)))
  {
    i := n - 1;
    if !(EntryFate(rules, path, entries, i, opts).Keep? && k == prefix + entries[i].name) {
      i := MapKey(rules, prefix, path, entries, n - 1, opts, k);
    }
  }

  /** A name key is neither the text key nor a field key. */
  lemma NameKeyApart(key: string, name: string)
    ensures key + ".name" != key && key + ".name" != key + ".fields." + name
  {
    assert |key + ".name"| == |key| + 5;
    assert (key + ".name")[|key| + 1] == 'n' && (key + ".fields." + name)[|key| + 1] == 'f';
  }

  lemma NameKeyFate(key: string, side: Side, v: Value, opts: Options)
    requires SummaryKey(key, side)
    ensures AttributeFate(RuleFor, key + ".name", v, opts) ==
              if !NamePasses(key) then Omit(Record(key + ".name", DEFAULT_OMITTED, ByteLength(v), 0)) else Keep(v, None)
  {
    NameKeyPlain(key, side);
    NameKeyRule(key, side);
  }

  /** A text that was cut before is kept by the rule that cuts it again. */
  lemma CutAgain(rule: Rule, side: Side, text: string, opts: Options, k: string, v: Value)
    requires v == Str(Truncated(text, Limit(opts))) && Enabled(side, opts)
    requires rule == SummaryText(side) || (rule.FieldText? && rule.side == side && rule.named == Cut)
    ensures FateUnder(rule, k, v, opts) == Keep(v, None)
  {
    TruncateTwice(text, Limit(opts), Limit(opts));
  }

  lemma TextKeyRule(key: string, side: Side)
    requires SummarySide(key) == Some(side)
    ensures RuleFor(key) == SummaryText(side)
  {
  }

  lemma TextKeyFate(key: string, side: Side, text: string, opts: Options, v: Value)
    requires SummaryKey(key, side) && Enabled(side, opts) && v == Str(Truncated(text, Limit(opts)))
    ensures AttributeFate(RuleFor, key, v, opts) == Keep(v, None)
  {
    TextKeyRule(key, side);
    CutAgain(RuleFor(key), side, text, opts, key, v);
  }

  lemma FieldKeyFate(key: string, side: Side, entries: seq<Entry>, opts: Options, k: string, v: Value, i: nat)
    requires SummaryKey(key, side) && Enabled(side, opts)
    requires i < |entries| && IsField(key, entries, opts, k, v, i) && TrimSpace(entries[i].name) == entries[i].name
    ensures AttributeFate(RuleFor, k, v, opts) == Keep(v, None)
  {
    FieldRule(key, side, entries[i].name);
    CutAgain(RuleFor(k), side, entries[i].value, opts, k, v);
  }

  lemma FateOfFirstStage(key: string, side: Side, text: string, entries: seq<Entry>, opts: Options, k: string, v: Value)
    requires SummaryKey(key, side) && Enabled(side, opts)
    requires forall i :: 0 <= i < |entries| ==> TrimSpace(entries[i].name) == entries[i].name
    requires || (k == key && v == Str(Truncated(text, Limit(opts)))) || k == key + ".name"
             || exists i :: 0 <= i < |entries| && IsField(key, entries, opts, k, v, i)
    ensures AttributeFate(RuleFor, k, v, opts) ==
              if k == key + ".name" && !NamePasses(key) then Omit(Record(k, DEFAULT_OMITTED, ByteLength(v), 0))
              else Keep(v, None)
  {
    if k == key + ".name" {
      NameKeyFate(key, side, v, opts);
    } else if k == key && v == Str(Truncated(text, Limit(opts))) {
      TextKeyFate(key, side, text, opts, v);
    } else {
      var i :| 0 <= i < |entries| && IsField(key, entries, opts, k, v, i);
      FieldKeyFate(key, side, entries, opts, k, v, i);
    }
  }

  lemma StageTwoFate(key: string, side: Side, path: string, name: string, text: string, entries: seq<Entry>,
                     opts: Options, k: string)
    requires ValidOptions(opts) && SummaryKey(key, side)
    requires k in SummaryResult(key, path, side, name, text, entries, opts)
    requires forall i :: 0 <= i < |entries| ==> TrimSpace(entries[i].name) == entries[i].name
    ensures var v := SummaryResult(key, path, side, name, text, entries, opts)[k];
            AttributeFate(RuleFor, k, v, opts) ==
              if k == key + ".name" && !NamePasses(key) then Omit(Record(k, DEFAULT_OMITTED, ByteLength(v), 0))
              else Keep(v, None)
  {
    FirstStageKeys(key, side, path, name, text, entries, opts, k);
    FateOfFirstStage(key, side, text, entries, opts, k, SummaryResult(key, path, side, name, text, entries, opts)[k]);
  }

  lemma EntriesTrimmed(entries: seq<Entry>, fields: map<string, string>)
    requires SortedEntries(entries, fields)
    ensures forall i :: 0 <= i < |entries| ==> TrimSpace(entries[i].name) == entries[i].name
  {
    var order :| SortedKeysOf(order, fields) && entries == EntriesOf(order, fields);
    forall i | 0 <= i < |entries| ensures TrimSpace(entries[i].name) == entries[i].name { TrimSpaceTwice(order[i]); }
  }

  /** For a summary whose name attribute passes, the second pass changes nothing and records nothing. */
  lemma SecondPassIsIdentity(key: string, side: Side, path: string, summary: Summary, entries: seq<Entry>,
                             opts: Options)
    requires ValidOptions(opts) && SummaryKey(key, side) && NamePasses(key) && SortedEntries(entries, summary.fields)
    ensures var attrs := SummaryResult(key, path, side, summary.name, summary.text, entries, opts);
            Redacted(RuleFor, attrs, opts) == attrs && Records(RuleFor, attrs, opts) == []
  {
    var attrs := SummaryResult(key, path, side, summary.name, summary.text, entries, opts);
    EntriesTrimmed(entries, summary.fields);
    forall k | k in attrs ensures AttributeFate(RuleFor, k, attrs[k], opts) == Keep(attrs[k], None) {
      StageTwoFate(key, side, path, summary.name, summary.text, entries, opts, k);
    }
    Untouched(RuleFor, attrs, opts);
  }

  /** Otherwise it removes the name attribute, with one record, and nothing else. */
  lemma SecondPassDropsName(key: string, side: Side, path: string, summary: Summary, entries: seq<Entry>, opts: Options)
    requires ValidOptions(opts) && SummaryKey(key, side) && !NamePasses(key) && SortedEntries(entries, summary.fields)
    ensures var attrs := SummaryResult(key, path, side, summary.name, summary.text, entries, opts);
            && Redacted(RuleFor, attrs, opts) == attrs - {key + ".name"}
            && Records(RuleFor, attrs, opts) ==
                 if key + ".name" in attrs then [Record(key + ".name", DEFAULT_OMITTED, |summary.name|, 0)] else []
  {
    var attrs := SummaryResult(key, path, side, summary.name, summary.text, entries, opts);
    EntriesTrimmed(entries, summary.fields);
    forall k | k in attrs
      ensures AttributeFate(RuleFor, k, attrs[k], opts) ==
                if k == key + ".name" then Omit(Record(k, DEFAULT_OMITTED, ByteLength(attrs[k]), 0))
                else Keep(attrs[k], None)
    {
      StageTwoFate(key, side, path, summary.name, summary.text, entries, opts, k);
    }
    if key + ".name" in attrs {
      FirstStageKeys(key, side, path, summary.name, summary.text, entries, opts, key + ".name");
      forall i | 0 <= i < |entries| ensures key + ".name" != key + ".fields." + entries[i].name {
        NameKeyApart(key, entries[i].name);
      }
      NameKeyApart(key, "");
    }
    OneRemoved(RuleFor, attrs, opts, key + ".name");
    OneRecorded(RuleFor, attrs, opts, key + ".name");
  }

  /** One key at most is omitted; all others are kept as they are. */
  ghost predicate OnlyOmits(rules: Rules, attrs: Attributes, opts: Options, bad: string) {
    && (forall k :: k in attrs && k != bad ==> AttributeFate(rules, k, attrs[k], opts) == Keep(attrs[k], None))
    && (bad in attrs ==> AttributeFate(rules, bad, attrs[bad], opts).Omit?)
  }

  lemma OneRemoved(rules: Rules, attrs: Attributes, opts: Options, bad: string)
    requires OnlyOmits(rules, attrs, opts, bad)
    ensures Redacted(rules, attrs, opts) == attrs - {bad}
  {
  }

  lemma OneRecorded(rules: Rules, attrs: Attributes, opts: Options, bad: string)
    requires OnlyOmits(rules, attrs, opts, bad)
    ensures Records(rules, attrs, opts)
         == if bad in attrs then [AttributeFate(rules, bad, attrs[bad], opts).why] else []
  {
    OneOmittedIn(rules, KeyOrder.SortedKeys(attrs.Keys), attrs, opts, bad);
  }

  lemma OneOmittedIn(rules: Rules, keys: seq<string>, attrs: Attributes, opts: Options, bad: string)
    requires KeyOrder.Lists(keys, attrs.Keys)
    requires OnlyOmits(rules, attrs, opts, bad)
    ensures RecordsOf(rules, keys, attrs, opts)
         == if bad in attrs then [AttributeFate(rules, bad, attrs[bad], opts).why] else []
  {
    if bad in attrs {
      assert bad in keys;
      var n :| 0 <= n < |keys| && keys[n] == bad;
      forall i | 0 <= i < |keys| && i != n ensures keys[i] in attrs && keys[i] != bad { assert keys[i] in keys; }
      RecordsAround(rules, keys, attrs, opts, n);
    } else {
      NoRecords(rules, keys, attrs, opts);
    }
  }

  lemma {:induction false} RecordsAround(rules: Rules, keys: seq<string>, attrs: Attributes, opts: Options, n: nat)
    requires n < |keys| && forall k :: k in keys ==> k in attrs
    requires forall i :: 0 <= i < |keys| && i != n ==>
               AttributeFate(rules, keys[i], attrs[keys[i]], opts) == Keep(attrs[keys[i]], None)
    ensures RecordsOf(rules, keys, attrs, opts) == Notes(AttributeFate(rules, keys[n], attrs[keys[n]], opts))
  {
    var m := |keys| - 1;
    if n == m {
      forall k | k in keys[..m] ensures AttributeFate(rules, k, attrs[k], opts) == Keep(attrs[k], None) {
        var i :| 0 <= i < m && keys[i] == k;
      }
      NoRecords(rules, keys[..m], attrs, opts);
    } else {
      RecordsAround(rules, keys[..m], attrs, opts, n);
    }
  }

  // ----- The six summary attributes of the library.

  datatype Attached = Request | Response | Chunk | Compaction | ToolInput | ToolOutput

  /** The attribute key without its `.summary`. */
  function Stem(kind: Attached): string {
    match kind
    case Request => "genai.request"
    case Response => "genai.response"
    case Chunk => "stream.chunk"
    case Compaction => "compaction"
    case ToolInput => "tool.input"
    case ToolOutput => "tool.output"
  }

  function KeyOf(kind: Attached): string { Stem(kind) + ".summary" }

  function SideOf(kind: Attached): Side {
    if kind.Request? || kind.Compaction? || kind.ToolInput? then Input else Output
  }

  predicate SummaryStem(stem: string) {
    && Tidy(stem) && 10 <= |stem| && stem[0] != 'm'
    && (forall j :: 0 <= j < |stem| ==> stem[j] != 'f')
    && forall j :: 0 <= j < |stem| - 1 ==> stem[j] == '.' ==> stem[j + 1] != 's'
  }

  lemma TidySummary(stem: string)
    requires Tidy(stem)
    ensures Tidy(stem + ".summary")
    ensures Underscored(stem + ".summary") == Underscored(stem) + "_summary"
  {
    var a, b := stem + ".summary", ".summary";
    assert NameChars(b) && SingleMarks(b);
    assert a[|a| - 1] == 'y' && a[0] == stem[0] && a[|stem| - 1] == stem[|stem| - 1];
    forall i | 0 <= i < |a| ensures NameChar(a[i]) {
      if i >= |stem| { assert a[i] == b[i - |stem|]; } else { assert a[i] == stem[i]; }
    }
    forall i | 0 <= i < |a| - 1 ensures Mark(a[i]) ==> !Mark(a[i + 1]) {
      if i >= |stem| { assert a[i] == b[i - |stem|] && a[i + 1] == b[i + 1 - |stem|]; }
      else if i < |stem| - 1 { assert a[i] == stem[i] && a[i + 1] == stem[i + 1]; }
    }
  }

  lemma StemCharacters(stem: string)
    requires SummaryStem(stem)
    ensures var key := stem + ".summary";
            && (forall j :: 0 <= j < |key| ==> key[j] != 'f')
            && (forall j :: 0 <= j < |key| - 8 ==> key[j] == '.' ==> key[j + 1] != 's')
            && key[|key| - 8..] == ".summary" && key[0] == stem[0]
  {
    var key := stem + ".summary";
    forall j | 0 <= j < |key| ensures key[j] != 'f' {
      if j < |stem| { assert key[j] == stem[j]; } else { assert key[j] == ".summary"[j - |stem|]; }
    }
    forall j | 0 <= j < |key| - 8 ensures key[j] == '.' ==> key[j + 1] != 's' {
      assert key[j] == stem[j] && (j < |stem| - 1 ==> key[j + 1] == stem[j + 1]);
    }
  }

  lemma StemMakesKey(stem: string, side: Side)
    requires SummaryStem(stem) && CanonicalSide(Underscored(stem) + "_summary") == Some(side)
    ensures SummaryKey(stem + ".summary", side)
  {
    var key := stem + ".summary";
    assert SummarySide(key) == Some(side) by {
      TidySummary(stem);
      TidyCanonical(key);
    }
    TidySummary(stem);
    StemCharacters(stem);
  }

  lemma RequestStem()
    ensures SummaryStem(Stem(Request)) && Underscored(Stem(Request)) + "_summary" == "genai_request_summary"
  {
  }

  lemma ResponseStem()
    ensures SummaryStem(Stem(Response)) && Underscored(Stem(Response)) + "_summary" == "genai_response_summary"
  {
  }

  lemma ChunkStem()
    ensures SummaryStem(Stem(Chunk)) && Underscored(Stem(Chunk)) + "_summary" == "stream_chunk_summary"
  {
  }

  lemma CompactionStem()
    ensures SummaryStem(Stem(Compaction)) && Underscored(Stem(Compaction)) + "_summary" == "compaction_summary"
  {
  }

  lemma ToolInputStem()
    ensures SummaryStem(Stem(ToolInput)) && Underscored(Stem(ToolInput)) + "_summary" == "tool_input_summary"
  {
  }

  lemma ToolOutputStem()
    ensures SummaryStem(Stem(ToolOutput)) && Underscored(Stem(ToolOutput)) + "_summary" == "tool_output_summary"
  {
  }

  lemma LibraryKey(kind: Attached)
    ensures SummaryKey(KeyOf(kind), SideOf(kind))
  {
    match kind {
      case Request => RequestStem();
      case Response => ResponseStem();
      case Chunk => ChunkStem();
      case Compaction => CompactionStem();
      case ToolInput => ToolInputStem();
      case ToolOutput => ToolOutputStem();
    }
    StemMakesKey(Stem(kind), SideOf(kind));
  }

  lemma NamePassesByStart(key: string)
    requires |key| > 5 && (key[0] == 'g' || key[0] == 's' || key[0] == 'c')
    ensures NamePasses(key)
  {
    var u := Underscored(key) + "_name";
    assert u[0] == key[0];
    NotRawPrefix(u);
    NotRawName(u);
  }

  lemma ToolInputNamePasses()
    ensures NamePasses(KeyOf(ToolInput))
  {
    ToolInputStem();
    TidySummary(Stem(ToolInput));
    var u := "tool_input_summary" + "_name";
    assert u[..19] == "tool_input_summary_";
    assert |u| == 23;
  }

  lemma ToolOutputNameDropped()
    ensures !NamePasses(KeyOf(ToolOutput))
  {
    ToolOutputStem();
    TidySummary(Stem(ToolOutput));
    var u := "tool_output_summary" + "_name";
    assert u[..12] == "tool_output_";
    NotPrefix("tool_input_summary_", u, 5);
  }

  lemma LibraryNames(kind: Attached)
    ensures NamePasses(KeyOf(kind)) <==> !kind.ToolOutput?
  {
    match kind {
      case ToolInput => ToolInputNamePasses();
      case ToolOutput => ToolOutputNameDropped();
      case _ => NamePassesByStart(KeyOf(kind));
    }
  }

  /** With the same options, the exporter's pass leaves alone whatever the helpers attached
      for a request, response, chunk, compaction or tool-input summary. For tool output it
      removes the name attribute, with one record, and nothing else. */
  lemma SecondStageAgrees(kind: Attached, path: string, summary: Summary, entries: seq<Entry>, opts: Options)
    requires ValidOptions(opts) && SortedEntries(entries, summary.fields)
    ensures var key := KeyOf(kind);
            var attrs := SummaryResult(key, path, SideOf(kind), summary.name, summary.text, entries, opts);
            if kind.ToolOutput? then
              && Redacted(RuleFor, attrs, opts) == attrs - {key + ".name"}
              && Records(RuleFor, attrs, opts) ==
                   if key + ".name" in attrs then [Record(key + ".name", DEFAULT_OMITTED, |summary.name|, 0)] else []
            else Redacted(RuleFor, attrs, opts) == attrs && Records(RuleFor, attrs, opts) == []
  {
    LibraryKey(kind);
    LibraryNames(kind);
    var key, side := KeyOf(kind), SideOf(kind);
    if kind.ToolOutput? {
      SecondPassDropsName(key, side, path, summary, entries, opts);
    } else {
      SecondPassIsIdentity(key, side, path, summary, entries, opts);
    }
  }
}
