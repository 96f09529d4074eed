/** The records a summary leaves, read off the words of its names. */
module SummariesInWords {
  import opened Model
  import opened Redaction
  import opened Summaries
  import opened KeyWords
  import opened RawPayloads
  import opened RedactionInWords

  /** How many of the first n entries have a good name. */
  function GoodBefore(entries: seq<Entry>, n: nat): nat
    requires n <= |entries|
  {
    if n == 0 then 0 else GoodBefore(entries, n - 1) + if GoodName(entries[n - 1].name) then 1 else 0
  }

  /** What happens to the i-th field: a long name, a sensitive one, and a 33rd good one are omitted, each
      with its reason and length, and any other text is cut to the limit. */
  function FieldInWords(path: string, entries: seq<Entry>, i: nat, opts: Options): Fate
    requires i < |entries|
  {
    var name, value := entries[i].name, entries[i].value;
    if |name| > 128 then Omit(Record(path + name, "field_limit_exceeded", |name|, 0))
    else if SpellsSecret(name) then Omit(Record(path + name, Why(name), |value|, 0))
    else if GoodBefore(entries, i) >= 32 then Omit(Record(path + name, "field_limit_exceeded", |value|, 0))
    else Shortened(path + name, Str(value), opts)
  }

  lemma EligibleIs(name: string)
    ensures EntryRuleFor(name) == if |name| > 128 then TooLong
                                  else if SpellsSecret(name) then EntryRule.Forbidden(Why(name))
                                  else Eligible
    ensures EntryRuleFor(name).Eligible? <==> GoodName(name)
  {
    SensitiveIff(name);
    EncryptedIff(name);
  }

  lemma {:induction false} RankIs(entries: seq<Entry>, n: nat)
    requires n <= |entries|
    ensures Rank(EntryRuleFor, entries, n) == GoodBefore(entries, n)
  {
    if n > 0 {
      RankIs(entries, n - 1);
      EligibleIs(entries[n - 1].name);
    }
  }

  lemma BoundedIs(k: string, text: string, opts: Options)
    ensures KeepBounded(k, text, opts) == Shortened(k, Str(text), opts)
  {
  }

  lemma FieldIsInWords(path: string, entries: seq<Entry>, i: nat, opts: Options)
    requires i < |entries|
    ensures EntryFate(EntryRuleFor, path, entries, i, opts) == FieldInWords(path, entries, i, opts)
  {
    EligibleIs(entries[i].name);
    RankIs(entries, i);
    BoundedIs(path + entries[i].name, entries[i].value, opts);
  }

  lemma {:induction false} FieldNotes(path: string, entries: seq<Entry>, n: nat, opts: Options, i: nat)
    requires i < n <= |entries|
    ensures forall r :: r in Notes(FieldInWords(path, entries, i, opts)) ==>
              r in MapRecords(EntryRuleFor, path, entries, n, opts)
  {
    if i == n - 1 { FieldIsInWords(path, entries, i, opts); } else { FieldNotes(path, entries, n - 1, opts, i); }
  }

  lemma {:induction false} RecordOwner(rules: EntryRules, path: string, entries: seq<Entry>, n: nat, opts: Options,
                                       r: Record) returns (i: nat)
    requires n <= |entries| && r in MapRecords(rules, path, entries, n, opts)
    ensures i < n && r in Notes(EntryFate(rules, path, entries, i, opts))
  {
    if r in MapRecords(rules, path, entries, n - 1, opts) {
      i := RecordOwner(rules, path, entries, n - 1, opts, r);
    } else {
      i := n - 1;
    }
  }

  lemma FieldOwner(path: string, entries: seq<Entry>, n: nat, opts: Options, r: Record) returns (i: nat)
    requires n <= |entries| && r in MapRecords(EntryRuleFor, path, entries, n, opts)
    ensures i < n && r in Notes(FieldInWords(path, entries, i, opts))
  {
    i := RecordOwner(EntryRuleFor, path, entries, n, opts, r);
    FieldIsInWords(path, entries, i, opts);
  }

  /** What cutting the text of a summary leaves. */
  function TextNotes(key: string, text: string, opts: Options): seq<Record> {
    if text == "" then [] else Notes(Shortened(key + ".text", Str(text), opts))
  }

  ghost predicate FromField(path: string, entries: seq<Entry>, opts: Options, r: Record, i: nat) {
    i < |entries| && r in Notes(FieldInWords(path, entries, i, opts))
  }

  /** The records of an allowed summary are exactly that of its text, if it was cut, and those of its
      fields. */
  lemma RecordsOfSummary(key: string, text: string, entries: seq<Entry>, opts: Options, r: Record)
    ensures r in SummaryRecords(key, text, entries, opts) <==>
              r in TextNotes(key, text, opts) || exists i: nat :: FromField(key + ".fields.", entries, opts, r, i)
  {
    var path := key + ".fields.";
    BoundedIs(key + ".text", text, opts);
    if r in MapRecords(EntryRuleFor, path, entries, |entries|, opts) {
      var i := FieldOwner(path, entries, |entries|, opts, r);
      assert FromField(path, entries, opts, r, i);
    }
    forall i: nat | FromField(path, entries, opts, r, i)
      ensures r in MapRecords(EntryRuleFor, path, entries, |entries|, opts)
    {
      FieldNotes(path, entries, |entries|, opts, i);
    }
  }
}
