/** Summaries and bounded string maps: what the helpers attach before the exporter's pass. */
module Summaries {
  import opened Numbers
  import opened Model
  import opened Truncation
  import opened Names
  import opened KeyOrder
  import opened Redaction

  datatype Entry = Entry(name: string, value: string)

  /** How an entry's trimmed name decides. */
  datatype EntryRule = TooLong | Forbidden(reason: string) | Eligible

  type EntryRules = string -> EntryRule

  function EntryRuleFor(name: string): EntryRule {
    if |name| > MAX_NAME_BYTES then TooLong
    else if IsSensitive(name) then Forbidden(OmissionReason(name))
    else Eligible
  }

  // ----- Sorting the entries of a map.

  predicate EntryLess(a: string, b: string) { KeyLess(TrimSpace(a), TrimSpace(b)) }

  ghost predicate NotDescending(order: seq<string>, less: (string, string) -> bool) {
    forall i, j :: 0 <= i < j < |order| ==> order[i] != order[j] && !less(order[j], order[i])
  }

  function EntriesOf(order: seq<string>, values: map<string, string>): (es: seq<Entry>)
    requires forall k :: k in order ==> k in values
    ensures |es| == |order|
  {
    seq(|order|, i requires 0 <= i < |order| => Entry(TrimSpace(order[i]), values[order[i]]))
  }

  /** The keys in an order that an unstable sort may produce from any iteration order. */
  ghost predicate SortedKeysOf(order: seq<string>, values: map<string, string>) {
    NotDescending(order, EntryLess) && forall k :: k in order <==> k in values
  }

  ghost predicate SortedEntries(entries: seq<Entry>, values: map<string, string>) {
    exists order :: SortedKeysOf(order, values) && entries == EntriesOf(order, values)
  }

  ghost predicate DistinctTrimmedKeys(values: map<string, string>) {
    forall a, b :: a in values && b in values && a != b ==> TrimSpace(a) != TrimSpace(b)
  }

  lemma SortedOrderUnique(o1: seq<string>, o2: seq<string>, values: map<string, string>)
    requires DistinctTrimmedKeys(values) && SortedKeysOf(o1, values) && SortedKeysOf(o2, values)
    ensures o1 == o2
  {
    SortedIsAscending(o1, values);
    SortedIsAscending(o2, values);
    forall x, y ensures !EntryLess(x, x) && (EntryLess(x, y) ==> !EntryLess(y, x)) {
      KeyLessTotal(TrimSpace(x), TrimSpace(x));
      KeyLessTotal(TrimSpace(x), TrimSpace(y));
    }
    AscendingUnique(o1, o2, EntryLess);
  }

  lemma SortedIsAscending(order: seq<string>, values: map<string, string>)
    requires DistinctTrimmedKeys(values) && SortedKeysOf(order, values)
    ensures Ascending(order, EntryLess)
  {
    forall i, j | 0 <= i < j < |order| ensures EntryLess(order[i], order[j]) {
      assert order[i] in order && order[j] in order;
      KeyLessTotal(TrimSpace(order[i]), TrimSpace(order[j]));
    }
  }

  /** When trimmed keys are distinct, neither the iteration order of the map nor the choices
      of the sort can be seen in the sorted entries. */
  lemma SortedEntriesUnique(e1: seq<Entry>, e2: seq<Entry>, values: map<string, string>)
    requires DistinctTrimmedKeys(values) && SortedEntries(e1, values) && SortedEntries(e2, values)
    ensures e1 == e2
  {
    var o1 :| SortedKeysOf(o1, values) && e1 == EntriesOf(o1, values);
    var o2 :| SortedKeysOf(o2, values) && e2 == EntriesOf(o2, values);
    SortedOrderUnique(o1, o2, values);
  }

  ghost predicate Orderly(less: (string, string) -> bool) {
    && (forall a, b :: less(a, b) ==> !less(b, a))
    && forall a, b, c :: less(a, b) && less(b, c) ==> less(a, c)
  }

  lemma EntryLessOrderly()
    ensures Orderly(EntryLess)
  {
    forall a, b | EntryLess(a, b) ensures !EntryLess(b, a) { KeyLessTotal(TrimSpace(a), TrimSpace(b)); }
    forall a, b, c | EntryLess(a, b) && EntryLess(b, c) ensures EntryLess(a, c) {
      KeyLessTransitive(TrimSpace(a), TrimSpace(b), TrimSpace(c));
    }
  }

  lemma Inserted(order: seq<string>, key: string, less: (string, string) -> bool, n: nat)
    requires Orderly(less) && NotDescending(order, less) && key !in order && n <= |order|
    requires (forall i :: 0 <= i < n ==> !less(key, order[i])) && (n < |order| ==> less(key, order[n]))
    ensures var out := order[..n] + [key] + order[n..];
            NotDescending(out, less) && forall k :: k in out <==> k == key || k in order
  {
    var out := order[..n] + [key] + order[n..];
    forall i, j | 0 <= i < j < |out| ensures !less(out[j], out[i]) {
      var a, b := if i < n then i else i - 1, if j < n then j else j - 1;
      if i == n && n < |order| { assert less(key, order[n]) && !less(order[b], order[n]); }
    }
    assert order == order[..n] + order[n..];
  }

  /** Puts a key before the first key it is less than. */
  method InsertKey(order: seq<string>, key: string, less: (string, string) -> bool) returns (out: seq<string>)
    requires Orderly(less) && NotDescending(order, less) && key !in order
    ensures NotDescending(out, less)
    ensures forall k :: k in out <==> k == key || k in order
  {
    var n := 0;
    while n < |order| && !less(key, order[n])
      invariant n <= |order| && forall i :: 0 <= i < n ==> !less(key, order[i])
    {
      n := n + 1;
    }
    out := order[..n] + [key] + order[n..];
    Inserted(order, key, less, n);
  }

  method SortEntries(values: map<string, string>) returns (entries: seq<Entry>)
    ensures SortedEntries(entries, values)
  {
    EntryLessOrderly();
    var order: seq<string> := SortBy(values.Keys, EntryLess);
    assert SortedKeysOf(order, values);
    entries := EntriesOf(order, values);
  }

  method SortBy(keys: set<string>, less: (string, string) -> bool) returns (order: seq<string>)
    requires Orderly(less)
    ensures NotDescending(order, less) && forall k :: k in order <==> k in keys
  {
    order := [];
    var rest := keys;
    while rest != {}
      invariant rest <= keys
      invariant NotDescending(order, less)
      invariant forall k :: k in order <==> k in keys && k !in rest
      decreases rest
    {
      var key :| key in rest;
      order := InsertKey(order, key, less);
      rest := rest - {key};
    }
  }

  // ----- The bounded map.

  /** How many of the first n entries are eligible. */
  function Rank(rules: EntryRules, entries: seq<Entry>, n: nat): (r: nat)
    requires n <= |entries|
    ensures r <= n
  {
    if n == 0 then 0 else Rank(rules, entries, n - 1) + if rules(entries[n - 1].name).Eligible? then 1 else 0
  }

  /** What happens to entry i, given how many eligible entries come before it. */
  function EntryFate(rules: EntryRules, path: string, entries: seq<Entry>, i: nat, opts: Options): Fate
    requires i < |entries|
  {
    var Entry(name, value) := entries[i];
    match rules(name)
    case TooLong => Omit(Record(path + name, FIELD_LIMIT_EXCEEDED, |name|, 0))
    case Forbidden(reason) => Omit(Record(path + name, reason, |value|, 0))
    case Eligible =>
      if Rank(rules, entries, i) >= MAX_MAP_ENTRIES then Omit(Record(path + name, FIELD_LIMIT_EXCEEDED, |value|, 0))
      else KeepBounded(path + name, value, opts)
  }

  function MapAttributes(rules: EntryRules, prefix: string, path: string, entries: seq<Entry>, n: nat,
                         opts: Options): Attributes
    requires n <= |entries|
  {
    if n == 0 then map[]
    else
      var before := MapAttributes(rules, prefix, path, entries, n - 1, opts);
      match EntryFate(rules, path, entries, n - 1, opts)
      case Keep(value, _) => before[prefix + entries[n - 1].name := value]
      case Omit(_) => before
  }

  function MapRecords(rules: EntryRules, path: string, entries: seq<Entry>, n: nat, opts: Options): seq<Record>
    requires n <= |entries|
  {
    if n == 0 then []
    else MapRecords(rules, path, entries, n - 1, opts) + Notes(EntryFate(rules, path, entries, n - 1, opts))
  }

  /** The loop of the source: it counts the entries it retains and stops keeping at the limit. */
  method BoundEntries(rules: EntryRules, prefix: string, path: string, entries: seq<Entry>, opts: Options)
      returns (attrs: Attributes, records: seq<Record>)
    ensures attrs == MapAttributes(rules, prefix, path, entries, |entries|, opts)
    ensures records == MapRecords(rules, path, entries, |entries|, opts)
  {
    attrs, records := map[], [];
    var retained := 0;
    for n := 0 to |entries|
      invariant retained == Min(Rank(rules, entries, n), MAX_MAP_ENTRIES)
      invariant attrs == MapAttributes(rules, prefix, path, entries, n, opts)
      invariant records == MapRecords(rules, path, entries, n, opts)
    {
      var Entry(name, value) := entries[n];
      match rules(name) {
        case TooLong => records := records + [Record(path + name, FIELD_LIMIT_EXCEEDED, |name|, 0)];
        case Forbidden(reason) => records := records + [Record(path + name, reason, |value|, 0)];
        case Eligible =>
          if retained >= MAX_MAP_ENTRIES {
            records := records + [Record(path + name, FIELD_LIMIT_EXCEEDED, |value|, 0)];
          } else {
            var (kept, note) := Bounded(path + name, value, Limit(opts));
            attrs := attrs[prefix + name := Str(kept)];
            retained := retained + 1;
            records := records + if note.Some? then [note.value] else [];
          }
      }
    }
  }

  method StringMapAttributes(prefix: string, path: string, values: map<string, string>, opts: Options)
      returns (attrs: Attributes, records: seq<Record>, entries: seq<Entry>)
    ensures SortedEntries(entries, values)
    ensures attrs == MapAttributes(EntryRuleFor, prefix, path, entries, |entries|, opts)
    ensures records == MapRecords(EntryRuleFor, path, entries, |entries|, opts)
  {
    var sorted := SortEntries(values);
    attrs, records := BoundEntries(EntryRuleFor, prefix, path, sorted, opts);
    entries := sorted;
  }

  /** The bounded map does not depend on how the map was iterated or sorted. */
  lemma BoundedMapDeterministic(e1: seq<Entry>, e2: seq<Entry>, values: map<string, string>, rules: EntryRules,
                                prefix: string, path: string, opts: Options)
    requires DistinctTrimmedKeys(values) && SortedEntries(e1, values) && SortedEntries(e2, values)
    ensures MapAttributes(rules, prefix, path, e1, |e1|, opts) == MapAttributes(rules, prefix, path, e2, |e2|, opts)
    ensures MapRecords(rules, path, e1, |e1|, opts) == MapRecords(rules, path, e2, |e2|, opts)
  {
    SortedEntriesUnique(e1, e2, values);
  }

  ghost predicate DistinctNames(entries: seq<Entry>) {
    forall i, j :: 0 <= i < j < |entries| ==> entries[i].name != entries[j].name
  }

  lemma SortedNamesDistinct(entries: seq<Entry>, values: map<string, string>)
    requires DistinctTrimmedKeys(values) && SortedEntries(entries, values)
    ensures DistinctNames(entries)
  {
    var order :| SortedKeysOf(order, values) && entries == EntriesOf(order, values);
    forall i, j | 0 <= i < j < |entries| ensures entries[i].name != entries[j].name {
      assert order[i] in order && order[j] in order;
    }
  }

  /** Entry i is among the first eligible entries that the limit admits. */
  predicate Admitted(rules: EntryRules, entries: seq<Entry>, i: nat)
    requires i < |entries|
  {
    rules(entries[i].name).Eligible? && Rank(rules, entries, i) < 32
  }

  /** The number of records that report an omission at a path. */
  function Omissions(records: seq<Record>, path: string): nat {
    if records == [] then 0
    else
      var last := records[|records| - 1];
      Omissions(records[..|records| - 1], path) + if last.path == path && last.reason != SUMMARY_TRUNCATED then 1 else 0
  }

  lemma {:induction false} OmissionsAppend(a: seq<Record>, b: seq<Record>, path: string)
    ensures Omissions(a + b, path) == Omissions(a, path) + Omissions(b, path)
  {
    if b == [] {
      assert a + b == a;
    } else {
      OmissionsAppend(a, b[..|b| - 1], path);
      assert (a + b)[..|a + b| - 1] == a + b[..|b| - 1];
    }
  }

  ghost predicate HonestReasons(rules: EntryRules) {
    forall name :: rules(name).Forbidden? ==> rules(name).reason != SUMMARY_TRUNCATED
  }

  lemma FateAccounts(rules: EntryRules, path: string, entries: seq<Entry>, i: nat, opts: Options, other: string)
    requires i < |entries| && HonestReasons(rules)
    ensures var fate := EntryFate(rules, path, entries, i, opts);
            && fate.Keep? == Admitted(rules, entries, i)
            && (fate.Keep? ==> fate.value == Str(Truncated(entries[i].value, Limit(opts))))
            && Omissions(Notes(fate), other) == if fate.Omit? && other == path + entries[i].name then 1 else 0
  {
    var fate := EntryFate(rules, path, entries, i, opts);
    var notes := Notes(fate);
    if notes != [] { assert notes[..|notes| - 1] == []; }
    assert SUMMARY_TRUNCATED != FIELD_LIMIT_EXCEEDED;
  }

  /** Of the first n entries, the admitted ones are kept, cut to the limit; nothing else is. */
  lemma {:induction false} KeptEntries(rules: EntryRules, prefix: string, path: string, entries: seq<Entry>, n: nat,
                                       opts: Options)
    requires n <= |entries| && DistinctNames(entries)
    ensures var attrs := MapAttributes(rules, prefix, path, entries, n, opts);
            && (forall i :: 0 <= i < |entries| ==>
                  (prefix + entries[i].name in attrs <==> i < n && Admitted(rules, entries, i)))
            && (forall i :: 0 <= i < n && Admitted(rules, entries, i) ==>
                  attrs[prefix + entries[i].name] == Str(Truncated(entries[i].value, Limit(opts))))
            && (forall k :: k in attrs ==> exists i :: 0 <= i < n && k == prefix + entries[i].name)
  {
    if n > 0 {
      var m := n - 1;
      KeptEntries(rules, prefix, path, entries, m, opts);
      forall i | 0 <= i < |entries| ensures prefix + entries[i].name == prefix + entries[m].name <==> i == m {
        SamePrefix(prefix, entries[i].name, entries[m].name);
      }
      var fate := EntryFate(rules, path, entries, m, opts);
      var before, key := MapAttributes(rules, prefix, path, entries, m, opts), prefix + entries[m].name;
      assert MapAttributes(rules, prefix, path, entries, n, opts)
          == if fate.Keep? then before[key := fate.value] else before;
    }
  }

  lemma OneMoreOmission(rules: EntryRules, path: string, entries: seq<Entry>, m: nat, opts: Options, i: nat)
    requires m < |entries| && i < |entries| && DistinctNames(entries) && HonestReasons(rules)
    ensures Omissions(MapRecords(rules, path, entries, m + 1, opts), path + entries[i].name)
         == Omissions(MapRecords(rules, path, entries, m, opts), path + entries[i].name)
            + if i == m && !Admitted(rules, entries, i) then 1 else 0
  {
    var other := path + entries[i].name;
    var before, notes := MapRecords(rules, path, entries, m, opts), Notes(EntryFate(rules, path, entries, m, opts));
    OmissionsAppend(before, notes, other);
    FateAccounts(rules, path, entries, m, opts, other);
    SamePrefix(path, entries[i].name, entries[m].name);
    assert MapRecords(rules, path, entries, m + 1, opts) == before + notes;
  }

  /** Of the first n entries, each one left out has exactly one omission record, and no other
      entry has any. */
  lemma {:induction false} OmittedEntries(rules: EntryRules, path: string, entries: seq<Entry>, n: nat, opts: Options,
                                          i: nat)
    requires n <= |entries| && i < |entries| && DistinctNames(entries) && HonestReasons(rules)
    ensures Omissions(MapRecords(rules, path, entries, n, opts), path + entries[i].name)
         == if i < n && !Admitted(rules, entries, i) then 1 else 0
  {
    if n > 0 {
      var m := n - 1;
      OmittedEntries(rules, path, entries, m, opts, i);
      OneMoreOmission(rules, path, entries, m, opts, i);
    }
  }

  lemma SamePrefix(p: string, a: string, b: string)
    ensures p + a == p + b <==> a == b
  {
    assert (p + a)[|p|..] == a && (p + b)[|p|..] == b;
  }

  lemma PipelineReasonsHonest()
    ensures HonestReasons(EntryRuleFor)
  {
    assert |SUMMARY_TRUNCATED| == 17 && |DEFAULT_OMITTED| == 15 && |ENCRYPTED_REASONING_FORBIDDEN| == 29;
  }

  /** The whole bounded map. With distinct trimmed keys, an entry is kept exactly when it is
      among the first 32 eligible ones by canonical name and then by key, its text is within
      the limit, every entry left out has exactly one omission record, and nothing else is kept. */
  lemma BoundedMapAccounted(values: map<string, string>, entries: seq<Entry>, prefix: string, path: string,
                            opts: Options)
    requires ValidOptions(opts) && DistinctTrimmedKeys(values) && SortedEntries(entries, values)
    ensures var attrs := MapAttributes(EntryRuleFor, prefix, path, entries, |entries|, opts);
            && (forall i :: 0 <= i < |entries| ==> var key := prefix + entries[i].name;
                  && (key in attrs <==> Admitted(EntryRuleFor, entries, i))
                  && (key in attrs ==> attrs[key] == Str(Truncated(entries[i].value, Limit(opts)))))
            && (forall k :: k in attrs ==> exists i :: 0 <= i < |entries| && k == prefix + entries[i].name)
    ensures forall i :: 0 <= i < |entries| ==>
              Omissions(MapRecords(EntryRuleFor, path, entries, |entries|, opts), path + entries[i].name)
              == if Admitted(EntryRuleFor, entries, i) then 0 else 1
  {
    PipelineReasonsHonest();
    SortedNamesDistinct(entries, values);
    KeptEntries(EntryRuleFor, prefix, path, entries, |entries|, opts);
    forall i | 0 <= i < |entries|
      ensures Omissions(MapRecords(EntryRuleFor, path, entries, |entries|, opts), path + entries[i].name)
              == if Admitted(EntryRuleFor, entries, i) then 0 else 1
    {
      OmittedEntries(EntryRuleFor, path, entries, |entries|, opts, i);
    }
  }

  // ----- Summaries.

  datatype Summary = Summary(name: string, text: string, fields: map<string, string>)

  function TextAttribute(key: string, text: string, opts: Options): Attributes {
    if text == "" then map[] else map[key := Str(Truncated(text, Limit(opts)))]
  }

  function NameAttribute(key: string, name: string): Attributes {
    if name == "" then map[] else map[key + ".name" := Str(name)]
  }

  /** What keeps a summary out altogether: its side is disabled, or its name is not allowed. */
  function SummaryFault(path: string, side: Side, name: string, opts: Options): Option<Record> {
    if !Enabled(side, opts) then Some(Record(path, SUMMARY_DISABLED, 0, 0))
    else if name != "" && IsSensitive(name) then Some(Record(path, OmissionReason(name), 0, 0))
    else if |name| > MAX_NAME_BYTES then Some(Record(path + ".name", FIELD_LIMIT_EXCEEDED, |name|, 0))
    else None
  }

  /** The attributes of an allowed summary whose fields are sorted as given. */
  function SummaryParts(key: string, path: string, name: string, text: string, entries: seq<Entry>,
                        opts: Options): Attributes {
    TextAttribute(key, text, opts) + NameAttribute(key, name)
    + MapAttributes(EntryRuleFor, key + ".fields.", path + ".fields.", entries, |entries|, opts)
  }

  function SummaryResult(key: string, path: string, side: Side, name: string, text: string, entries: seq<Entry>,
                         opts: Options): Attributes {
    if SummaryFault(path, side, name, opts).Some? then map[] else SummaryParts(key, path, name, text, entries, opts)
  }

  /** The records of an allowed summary: of its text, then of its fields. */
  function SummaryRecords(path: string, text: string, entries: seq<Entry>, opts: Options): seq<Record> {
    (if text == "" then [] else Notes(KeepBounded(path + ".text", text, opts)))
    + MapRecords(EntryRuleFor, path + ".fields.", entries, |entries|, opts)
  }

  method TextAndName(key: string, path: string, name: string, text: string, opts: Options)
      returns (attrs: Attributes, records: seq<Record>)
    ensures attrs == TextAttribute(key, text, opts) + NameAttribute(key, name)
    ensures records == if text == "" then [] else Notes(KeepBounded(path + ".text", text, opts))
  {
    attrs, records := map[], [];
    if text != "" {
      var (cut, note) := Bounded(path + ".text", text, Limit(opts));
      attrs := attrs[key := Str(cut)];
      records := records + if note.Some? then [note.value] else [];
    }
    if name != "" { attrs := attrs[key + ".name" := Str(name)]; }
  }

  /** Either nothing with one record saying why, or the parts with their records. */
  method SummaryAttributes(key: string, fieldPath: string, side: Side, summary: Summary, opts: Options)
      returns (failed: bool, attrs: Attributes, records: seq<Record>, ghost entries: seq<Entry>)
    ensures failed <==> !ValidOptions(opts)
    ensures !failed ==>
              var path := if fieldPath == "" then key else fieldPath;
              match SummaryFault(path, side, summary.name, opts)
              case Some(fault) => attrs == map[] && records == [fault]
              case None =>
                && SortedEntries(entries, summary.fields)
                && attrs == SummaryParts(key, path, summary.name, summary.text, entries, opts)
                && records == SummaryRecords(path, summary.text, entries, opts)
  {
    failed, attrs, records, entries := !ValidOptions(opts), map[], [], [];
    if failed { return; }
    var path := if fieldPath == "" then key else fieldPath;
    var fault := SummaryFault(path, side, summary.name, opts);
    if fault.Some? { records := [fault.value]; return; }
    attrs, records := TextAndName(key, path, summary.name, summary.text, opts);
    var fieldAttrs, fieldRecords;
    fieldAttrs, fieldRecords, entries := StringMapAttributes(key + ".fields.", path + ".fields.", summary.fields, opts);
    attrs := attrs + fieldAttrs;
    records := records + fieldRecords;
  }
}
