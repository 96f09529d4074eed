/** Raw payloads: prompts, model and tool input and output, attachments, reasoning and provider
    payloads never survive but as summaries. */
module RawPayloads {
  import opened Model
  import opened Utf8
  import opened Names
  import opened TidyNames
  import opened Redaction
  import opened Spellings
  import opened KeyWords
  import Forbidden
  import KeyOrder
  import Summaries

  // ----- Raw payloads never survive.

  lemma BeginsShorter(k: string, ws: Words, n: nat)
    requires n <= |ws| && Begins(k, ws)
    ensures Begins(k, ws[..n]) && (n < |ws| ==> Longer(k, ws[..n]))
  {
    assert CodesOf(ws)[..n] == CodesOf(ws[..n]);
  }

  lemma FirstWord(k: string, a: string, ws: Words)
    requires Begins(k, [a] + ws)
    ensures Begins(k, [a])
  {
    BeginsShorter(k, [a] + ws, 1);
    assert ([a] + ws)[..1] == [a];
  }

  lemma SameFirstWord(k: string, a: string, b: string)
    requires Begins(k, [a]) && Begins(k, [b])
    ensures a == b
  {
    assert CodesOf([a])[0] == PiecesOf(k)[0] == CodesOf([b])[0];
    assert |Codes(a)| == |a| && |Codes(b)| == |b|;
    forall i | 0 <= i < |a| ensures a[i] == b[i] { assert Codes(a)[i] == Codes(b)[i]; }
  }

  lemma SpellsBegins(k: string, ws: Words)
    ensures Spells(k, ws) ==> Begins(k, ws)
  {
  }

  lemma RawFirst(k: string) returns (w: string)
    requires BeginsRaw(k)
    ensures w in {"prompt", "model", "tool", "attachment", "attachments", "reasoning", "provider"} && Begins(k, [w])
  {
    if Begins(k, ["prompt"]) { return "prompt"; }
    if Begins(k, ["attachment"]) { return "attachment"; }
    if Begins(k, ["attachments"]) { return "attachments"; }
    if Begins(k, ["reasoning"]) { return "reasoning"; }
    w := if BeginsModel(k) then "model" else if BeginsTool(k) then "tool" else "provider";
    assert [w] + ["input"] == [w, "input"] && [w] + ["output"] == [w, "output"];
    assert [w] + ["request"] == [w, "request"] && [w] + ["response"] == [w, "response"];
    FirstWord(k, w, if Begins(k, [w, "input"]) then ["input"] else if Begins(k, [w, "output"]) then ["output"]
                    else if Begins(k, [w, "request"]) then ["request"] else ["response"]);
  }

  /** Of a tool's summary. */
  predicate OfToolSummary(k: string) {
    Begins(k, ["tool", "input", "summary"]) || Begins(k, ["tool", "output", "summary"])
  }

  lemma ThreeWords(k: string, a: string, b: string, c: string)
    requires Spells(k, [a, b, c]) || Begins(k, [a, b, c, "fields"])
    ensures Begins(k, [a, b, c]) && Begins(k, [a])
  {
    SpellsBegins(k, [a, b, c]);
    if Begins(k, [a, b, c, "fields"]) {
      BeginsShorter(k, [a, b, c, "fields"], 3);
      assert [a, b, c, "fields"][..3] == [a, b, c];
    }
    assert [a] + [b, c] == [a, b, c];
    FirstWord(k, a, [b, c]);
  }

  lemma TwoWords(k: string, a: string, b: string)
    requires Spells(k, [a, b]) || Begins(k, [a, b, "fields"])
    ensures Begins(k, [a])
  {
    SpellsBegins(k, [a, b]);
    assert [a] + [b] == [a, b] && [a] + [b, "fields"] == [a, b, "fields"];
    FirstWord(k, a, if Spells(k, [a, b]) then [b] else [b, "fields"]);
  }

  lemma InputFirst(k: string) returns (w: string)
    requires SpellsSummary(k, Input) || BeginsFields(k, Input)
    ensures w in {"genai", "tool", "compaction"} && Begins(k, [w]) && (w == "tool" ==> OfToolSummary(k))
  {
    if Spells(k, ["genai", "request", "summary"]) || Begins(k, ["genai", "request", "summary", "fields"]) {
      ThreeWords(k, "genai", "request", "summary");
      return "genai";
    }
    if Spells(k, ["tool", "input", "summary"]) || Begins(k, ["tool", "input", "summary", "fields"]) {
      ThreeWords(k, "tool", "input", "summary");
      return "tool";
    }
    TwoWords(k, "compaction", "summary");
    return "compaction";
  }

  lemma OutputFirst(k: string) returns (w: string)
    requires SpellsSummary(k, Output) || BeginsFields(k, Output)
    ensures w in {"genai", "tool", "stream"} && Begins(k, [w]) && (w == "tool" ==> OfToolSummary(k))
  {
    if Spells(k, ["genai", "response", "summary"]) || Begins(k, ["genai", "response", "summary", "fields"]) {
      ThreeWords(k, "genai", "response", "summary");
      return "genai";
    }
    if Spells(k, ["tool", "output", "summary"]) || Begins(k, ["tool", "output", "summary", "fields"]) {
      ThreeWords(k, "tool", "output", "summary");
      return "tool";
    }
    ThreeWords(k, "stream", "chunk", "summary");
    return "stream";
  }

  /** Of the library's summaries and their fields, only a tool's begin like raw payloads. */
  lemma RawSummaries(k: string, side: Side)
    requires BeginsRaw(k) && (SpellsSummary(k, side) || BeginsFields(k, side))
    ensures OfToolSummary(k)
  {
    var raw := RawFirst(k);
    if side.Input? {
      var summary := InputFirst(k);
      SameFirstWord(k, raw, summary);
    } else {
      var summary := OutputFirst(k);
      SameFirstWord(k, raw, summary);
    }
  }

  predicate GoodName(name: string) { !SpellsSecret(name) && |name| <= MAX_NAME_BYTES }

  /** What lets a raw payload's key through: it is a library summary, a field of one with a name
      that is neither sensitive nor too long, or belongs to a tool input's summary otherwise. */
  predicate LetThrough(k: string) {
    || SpellsSummary(k, Input) || SpellsSummary(k, Output)
    || match SummaryField(k)
       case Some((_, name)) => GoodName(name)
       case None => OfToolInputSummary(k)
  }

  lemma MetadataFirst(k: string)
    requires MetadataName(k).Some?
    ensures Begins(k, ["metadata"])
  {
    var s := TrimSpace(k);
    SamePiecesTrimmed(k);
    if "metadata." <= s {
      DottedFirst(s, s[|"metadata."|..]);
    } else {
      CanonicalFirst(s);
    }
  }

  lemma DottedFirst(s: string, rest: string)
    requires s == "metadata." + rest
    ensures Begins(s, ["metadata"])
  {
    assert "metadata." == Forbidden.METADATA + ".";
    Forbidden.MetadataPieces(".", rest);
    assert CodesOf(["metadata"]) == [Codes("metadata")];
  }

  lemma CanonicalFirst(s: string)
    requires "metadata_" <= Canonical(s)
    ensures Begins(s, ["metadata"])
  {
    JoinedOne("metadata");
    BeginsIff(s, ["metadata"], "metadata");
    assert "metadata" + "_" == "metadata_";
  }

  lemma ToolInputFirst(k: string)
    requires OfToolInputSummary(k)
    ensures Begins(k, ["tool"])
  {
    assert ["tool"] + ["input", "summary"] == ["tool", "input", "summary"];
    FirstWord(k, "tool", ["input", "summary"]);
  }

  lemma EncryptedFirst(k: string) returns (w: string)
    requires SpellsEncrypted(k)
    ensures (w == "encrypted" || w == "reasoning") && Begins(k, [w])
  {
    w := if Spells(k, ["encrypted", "reasoning"]) then "encrypted" else "reasoning";
    TwoWords(k, w, if w == "encrypted" then "reasoning" else "encrypted");
  }

  lemma ToolInputPasses(k: string)
    requires OfToolInputSummary(k)
    ensures PlainRuleFor(k) == Pass
  {
    ToolInputFirst(k);
    if SpellsEncrypted(k) {
      var w := EncryptedFirst(k);
      SameFirstWord(k, "tool", w);
    }
    RawIff(k);
    if MetadataName(k).Some? {
      MetadataFirst(k);
      SameFirstWord(k, "tool", "metadata");
    }
  }

  lemma RuleOf(k: string)
    ensures RuleFor(k) == if SpellsSummary(k, Input) then SummaryText(Input)
                          else if SpellsSummary(k, Output) then SummaryText(Output)
                          else match SummaryField(k)
                            case None => Plain(PlainRuleFor(k))
                            case Some((side, name)) => FieldText(side, NameRule(name), PlainRuleFor(k))
  {
    SideIff(k);
  }

  lemma GoodNamesAreCut(name: string)
    ensures NameRule(name).Cut? <==> GoodName(name)
    ensures NameRule(name).Drop? <==> !GoodName(name)
  {
    SensitiveIff(name);
  }

  /** A rule that never keeps anything. */
  predicate Never(rule: Rule) {
    match rule
    case SummaryText(_) => false
    case FieldText(_, named, _) => named.Drop?
    case Plain(plain) => plain.Drop?
  }

  lemma NeverKeeps(rule: Rule, key: string, value: Value, opts: Options)
    requires Never(rule)
    ensures FateUnder(rule, key, value, opts).Omit?
  {
  }

  lemma RawRule(k: string)
    requires BeginsRaw(k)
    ensures Never(RuleFor(k)) <==> !LetThrough(k)
    ensures !LetThrough(k) && SummaryField(k).None? ==> RuleFor(k) == Plain(Drop(OmissionReason(k)))
  {
    RuleOf(k);
    match SummaryField(k)
    case Some((_, name)) => GoodNamesAreCut(name);
    case None =>
      RawIff(k);
      if OfToolInputSummary(k) { ToolInputPasses(k); }
  }

  lemma OtherRulesKeep(rule: Rule, key: string, value: Value, opts: Options)
    requires !Never(rule) && opts.captureInput && opts.captureOutput && value.Str?
    ensures FateUnder(rule, key, value, opts).Keep?
  {
  }

  lemma LetThroughKept(k: string, attrs: Attributes, opts: Options)
    requires !Never(RuleFor(k)) && opts.captureInput && opts.captureOutput
    requires k in attrs && attrs[k].Str?
    ensures k in Redacted(RuleFor, attrs, opts)
  {
    OtherRulesKeep(RuleFor(k), k, attrs[k], opts);
  }

  predicate Survives(k: string, attrs: Attributes, opts: Options) {
    ValidOptions(opts) && k in Redacted(RuleFor, attrs, opts)
  }

  lemma LetThroughSurvives(k: string, attrs: Attributes, opts: Options)
    requires !Never(RuleFor(k)) && attrs == map[k := Str("")] && opts == Options(true, true, 0)
    ensures Survives(k, attrs, opts)
  {
    LetThroughKept(k, attrs, opts);
  }

  /** Exactly these raw payloads' keys can survive at all. */
  lemma RawSurvivesIff(k: string)
    requires BeginsRaw(k)
    ensures (exists attrs, opts :: Survives(k, attrs, opts)) <==> LetThrough(k)
  {
    RawRule(k);
    if LetThrough(k) { SomeSurvive(k); } else { NoneSurvive(k); }
  }

  lemma SomeSurvive(k: string)
    requires !Never(RuleFor(k))
    ensures exists attrs, opts :: Survives(k, attrs, opts)
  {
    LetThroughSurvives(k, map[k := Str("")], Options(true, true, 0));
  }

  lemma NoneSurvive(k: string)
    requires Never(RuleFor(k))
    ensures forall attrs, opts :: !Survives(k, attrs, opts)
  {
    forall attrs, opts ensures !Survives(k, attrs, opts) { NeverSurvives(attrs, opts, k); }
  }

  // ----- The keys a recorder writes are none of these.

  lemma OwnCanonical(k: string)
    requires Tidy(k) && forall i :: 0 <= i < |k| ==> k[i] != '.'
    ensures Canonical(k) == k
  {
    TidyCanonical(k);
    assert Underscored(k) == k;
  }

  lemma SequenceCanonical(k: string)
    requires k == "sequence" || k == "span_event_sequence"
    ensures Canonical(k) == k
  {
    if k == "sequence" { Forbidden.SequenceTidy(k); } else { Forbidden.EventSequenceTidy(k); }
    OwnCanonical(k);
  }

  lemma SequenceWord(k: string)
    requires Canonical(k) == "sequence"
    ensures Begins(k, ["sequence"])
  {
    JoinedOne("sequence");
    SpellsIff(k, ["sequence"], "sequence");
  }

  lemma EventSequenceWords(k: string, u: string)
    requires Canonical(k) == u && u == "span" + "_" + "event" + "_" + "sequence"
    ensures Begins(k, ["span", "event", "sequence"])
  {
    JoinedThree("span", "event", "sequence");
    SpellsIff(k, ["span", "event", "sequence"], u);
  }

  lemma EventSequenceWord(k: string)
    requires Canonical(k) == "span_event_sequence"
    ensures Begins(k, ["span"])
  {
    assert "span_event_sequence" == "span" + "_" + "event" + "_" + "sequence";
    EventSequenceWords(k, "span_event_sequence");
    assert ["span"] + ["event", "sequence"] == ["span", "event", "sequence"];
    FirstWord(k, "span", ["event", "sequence"]);
  }

  lemma StampsAreNotRaw(k: string)
    requires BeginsRaw(k)
    ensures k != "sequence" && k != "span_event_sequence"
  {
    var w := RawFirst(k);
    if k == "sequence" || k == "span_event_sequence" { SequenceCanonical(k); }
    if k == "sequence" {
      SequenceWord(k);
      SameFirstWord(k, w, "sequence");
    } else if k == "span_event_sequence" {
      EventSequenceWord(k);
      SameFirstWord(k, w, "span");
    }
  }

  lemma NeverSurvives(attrs: Attributes, opts: Options, k: string)
    requires Never(RuleFor(k))
    ensures k !in Redacted(RuleFor, attrs, opts)
  {
    if k in attrs { NeverKeeps(RuleFor(k), k, attrs[k], opts); }
  }

  // ----- And leave a record.

  lemma {:induction false} RecordsHave(rules: Rules, keys: seq<string>, attrs: Attributes, opts: Options, k: string)
    requires (forall x :: x in keys ==> x in attrs) && k in keys
    requires AttributeFate(rules, k, attrs[k], opts).Omit?
    ensures AttributeFate(rules, k, attrs[k], opts).why in RecordsOf(rules, keys, attrs, opts)
  {
    var n := |keys| - 1;
    if keys[n] != k {
      assert keys == keys[..n] + [keys[n]];
      RecordsHave(rules, keys[..n], attrs, opts, k);
    }
  }

  lemma DropRecord(attrs: Attributes, opts: Options, k: string, reason: string)
    requires k in attrs && RuleFor(k) == Plain(Drop(reason))
    ensures Record(k, reason, ByteLength(attrs[k]), 0) in Records(RuleFor, attrs, opts)
    ensures k !in Redacted(RuleFor, attrs, opts)
  {
    RecordsHave(RuleFor, KeyOrder.SortedKeys(attrs.Keys), attrs, opts, k);
  }

  /** Prompts, model and tool input and output, attachments, reasoning and provider payloads: in
      no spelling and with no options does such an attribute survive, unless it is of a tool's
      summary, and it leaves exactly one omission record, which says why and how long it was. */
  lemma RawNeverSurvives(attrs: Attributes, opts: Options, k: string)
    requires BeginsRaw(k) && !OfToolSummary(k)
    ensures k !in Redacted(RuleFor, attrs, opts)
    ensures k in attrs ==>
              var why := if SpellsEncrypted(k) then ENCRYPTED_REASONING_FORBIDDEN else DEFAULT_OMITTED;
              && Record(k, why, ByteLength(attrs[k]), 0) in Records(RuleFor, attrs, opts)
              && Summaries.Omissions(Records(RuleFor, attrs, opts), k) == 1
  {
    RawIsNoSummary(k);
    RawRule(k);
    EncryptedIff(k);
    NeverSurvives(attrs, opts, k);
    if k in attrs {
      DropRecord(attrs, opts, k, OmissionReason(k));
      Forbidden.OmissionsAreRecorded(attrs, opts, k);
    }
  }

  lemma RawIsNoSummary(k: string)
    requires BeginsRaw(k) && !OfToolSummary(k)
    ensures !LetThrough(k) && SummaryField(k).None?
  {
    if SpellsSummary(k, Input) { RawSummaries(k, Input); }
    if SpellsSummary(k, Output) { RawSummaries(k, Output); }
    match SummaryField(k)
    case Some((side, name)) =>
      FieldBegins(k, side, name);
      RawSummaries(k, side);
    case None =>
  }

  /** The same of a tool's summary, unless it is let through. */
  lemma RawOmitted(attrs: Attributes, opts: Options, k: string)
    requires BeginsRaw(k) && !LetThrough(k)
    ensures k !in Redacted(RuleFor, attrs, opts)
    ensures k in attrs ==> Summaries.Omissions(Records(RuleFor, attrs, opts), k) == 1
  {
    RawRule(k);
    NeverSurvives(attrs, opts, k);
    Forbidden.OmissionsAreRecorded(attrs, opts, k);
  }
}
