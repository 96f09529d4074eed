/** What a key is, by its words: a raw payload, a sensitive name, a library summary, a field of one. */
module KeyWords {
  import opened Model
  import opened Utf8
  import opened Names
  import opened TidyNames
  import opened Redaction
  import opened Spellings
  import Forbidden

  // ----- Which keys are raw.

  predicate BeginsPrompt(k: string) { Begins(k, ["prompt"]) }

  predicate BeginsModel(k: string) { Begins(k, ["model", "input"]) || Begins(k, ["model", "output"]) }

  predicate BeginsTool(k: string) { Begins(k, ["tool", "input"]) || Begins(k, ["tool", "output"]) }

  predicate BeginsAttachment(k: string) { Begins(k, ["attachment"]) || Begins(k, ["attachments"]) }

  predicate BeginsReasoning(k: string) { Begins(k, ["reasoning"]) }

  predicate BeginsProvider(k: string) { Begins(k, ["provider", "request"]) || Begins(k, ["provider", "response"]) }

  /** A raw payload, by the first words of its key. */
  predicate BeginsRaw(k: string) {
    || BeginsPrompt(k) || BeginsModel(k) || BeginsTool(k) || BeginsAttachment(k) || BeginsReasoning(k)
    || BeginsProvider(k)
  }

  predicate SpellsEncrypted(k: string) {
    Spells(k, ["encrypted", "reasoning"]) || Spells(k, ["reasoning", "encrypted"])
  }

  /** Something of a tool input's summary, but not the summary itself. */
  predicate OfToolInputSummary(k: string) {
    Begins(k, ["tool", "input", "summary"]) && Longer(k, ["tool", "input", "summary"])
  }

  lemma PromptIff(k: string, c: string)
    requires c == Canonical(k)
    ensures "prompt_" <= c || c == "prompt" <==> Begins(k, ["prompt"])
  {
    JoinedOne("prompt");
    BeginsIff(k, ["prompt"], "prompt");
    assert "prompt" + "_" == "prompt_";
  }

  lemma AttachmentIff(k: string, c: string)
    requires c == Canonical(k)
    ensures "attachment_" <= c || c == "attachment" <==> Begins(k, ["attachment"])
  {
    JoinedOne("attachment");
    BeginsIff(k, ["attachment"], "attachment");
    assert "attachment" + "_" == "attachment_";
  }

  lemma AttachmentsIff(k: string, c: string)
    requires c == Canonical(k)
    ensures "attachments_" <= c || c == "attachments" <==> Begins(k, ["attachments"])
  {
    JoinedOne("attachments");
    BeginsIff(k, ["attachments"], "attachments");
    assert "attachments" + "_" == "attachments_";
  }

  lemma ReasoningIff(k: string, c: string)
    requires c == Canonical(k)
    ensures "reasoning_" <= c || c == "reasoning" <==> Begins(k, ["reasoning"])
  {
    JoinedOne("reasoning");
    BeginsIff(k, ["reasoning"], "reasoning");
    assert "reasoning" + "_" == "reasoning_";
  }

  lemma ModelInputIff(k: string, c: string)
    requires c == Canonical(k)
    ensures "model_input_" <= c || c == "model_input" <==> Begins(k, ["model", "input"])
  {
    JoinedTwo("model", "input");
    assert "model" + "_" + "input" == "model_input" && "model_input" + "_" == "model_input_";
    BeginsIff(k, ["model", "input"], "model_input");
  }

  lemma ModelOutputIff(k: string, c: string)
    requires c == Canonical(k)
    ensures "model_output_" <= c || c == "model_output" <==> Begins(k, ["model", "output"])
  {
    JoinedTwo("model", "output");
    assert "model" + "_" + "output" == "model_output" && "model_output" + "_" == "model_output_";
    BeginsIff(k, ["model", "output"], "model_output");
  }

  lemma ToolInputIff(k: string, c: string)
    requires c == Canonical(k)
    ensures "tool_input_" <= c || c == "tool_input" <==> Begins(k, ["tool", "input"])
  {
    JoinedTwo("tool", "input");
    assert "tool" + "_" + "input" == "tool_input" && "tool_input" + "_" == "tool_input_";
    BeginsIff(k, ["tool", "input"], "tool_input");
  }

  lemma ToolOutputIff(k: string, c: string)
    requires c == Canonical(k)
    ensures "tool_output_" <= c || c == "tool_output" <==> Begins(k, ["tool", "output"])
  {
    JoinedTwo("tool", "output");
    assert "tool" + "_" + "output" == "tool_output" && "tool_output" + "_" == "tool_output_";
    BeginsIff(k, ["tool", "output"], "tool_output");
  }

  lemma ProviderRequestIff(k: string, c: string)
    requires c == Canonical(k)
    ensures "provider_request_" <= c || c == "provider_request" <==> Begins(k, ["provider", "request"])
  {
    JoinedTwo("provider", "request");
    assert "provider" + "_" + "request" == "provider_request" && "provider_request" + "_" == "provider_request_";
    BeginsIff(k, ["provider", "request"], "provider_request");
  }

  lemma ProviderResponseIff(k: string, c: string)
    requires c == Canonical(k)
    ensures "provider_response_" <= c || c == "provider_response" <==> Begins(k, ["provider", "response"])
  {
    JoinedTwo("provider", "response");
    assert "provider" + "_" + "response" == "provider_response" && "provider_response" + "_" == "provider_response_";
    BeginsIff(k, ["provider", "response"], "provider_response");
  }

  lemma ThreeJoined(k: string, c: string, a: string, b: string, d: string, u: string)
    requires c == Canonical(k) && Word(a) && Word(b) && Word(d) && u == a + "_" + b + "_" + d
    ensures u + "_" <= c <==> Begins(k, [a, b, d]) && Longer(k, [a, b, d])
  {
    JoinedThree(a, b, d);
    BeginsIff(k, [a, b, d], u);
  }

  lemma OfToolInputSummaryIff(k: string, c: string)
    requires c == Canonical(k)
    ensures "tool_input_summary_" <= c <==> OfToolInputSummary(k)
  {
    var u := "tool_input_summary";
    assert u == "tool" + "_" + "input" + "_" + "summary" && u + "_" == "tool_input_summary_";
    ThreeJoined(k, c, "tool", "input", "summary", u);
  }

  lemma EncryptedIff(k: string)
    ensures IsEncryptedReasoning(k) <==> SpellsEncrypted(k)
  {
    JoinedTwo("encrypted", "reasoning");
    JoinedTwo("reasoning", "encrypted");
    assert "encrypted" + "_" + "reasoning" == "encrypted_reasoning";
    assert "reasoning" + "_" + "encrypted" == "reasoning_encrypted";
    SpellsIff(k, ["encrypted", "reasoning"], "encrypted_reasoning");
    SpellsIff(k, ["reasoning", "encrypted"], "reasoning_encrypted");
  }

  lemma RawNamesIff(k: string, c: string)
    requires c == Canonical(k)
    ensures RawPrefix(c) || RawName(c) <==> BeginsRaw(k)
  {
    PromptIff(k, c);
    AttachmentIff(k, c);
    AttachmentsIff(k, c);
    ReasoningIff(k, c);
    ModelInputIff(k, c);
    ModelOutputIff(k, c);
    ToolInputIff(k, c);
    ToolOutputIff(k, c);
    ProviderRequestIff(k, c);
    ProviderResponseIff(k, c);
  }

  /** The test for raw payloads looks at words only: encrypted reasoning is raw, and so is what
      begins with the words of a raw payload, but for what belongs to a tool input's summary. */
  lemma RawIff(k: string)
    ensures IsRawPayload(k) <==> SpellsEncrypted(k) || (BeginsRaw(k) && !OfToolInputSummary(k))
  {
    EncryptedIff(k);
    OfToolInputSummaryIff(k, Canonical(k));
    RawNamesIff(k, Canonical(k));
  }

  // ----- Which names are sensitive.

  predicate SpellsToken(k: string) {
    || Spells(k, ["token"]) || Spells(k, ["access", "token"]) || Spells(k, ["refresh", "token"])
    || Spells(k, ["bearer", "token"])
  }

  predicate SpellsKey(k: string) {
    Spells(k, ["api", "key"]) || Spells(k, ["apikey"]) || Spells(k, ["x", "api", "key"])
  }

  predicate SpellsCredential(k: string) {
    || Spells(k, ["authorization"]) || Spells(k, ["password"]) || Spells(k, ["secret"])
    || Spells(k, ["client", "secret"]) || Spells(k, ["cookie"]) || Spells(k, ["set", "cookie"])
  }

  predicate SpellsSecret(k: string) { SpellsEncrypted(k) || SpellsToken(k) || SpellsKey(k) || SpellsCredential(k) }

  lemma AuthorizationSpelled(k: string)
    ensures Canonical(k) == "authorization" <==> Spells(k, ["authorization"])
  {
    JoinedOne("authorization");
    SpellsIff(k, ["authorization"], "authorization");
  }

  lemma ApiKeySpelled(k: string)
    ensures Canonical(k) == "api_key" <==> Spells(k, ["api", "key"])
  {
    JoinedTwo("api", "key");
    assert "api" + "_" + "key" == "api_key";
    SpellsIff(k, ["api", "key"], "api_key");
  }

  lemma ApikeySpelled(k: string)
    ensures Canonical(k) == "apikey" <==> Spells(k, ["apikey"])
  {
    JoinedOne("apikey");
    SpellsIff(k, ["apikey"], "apikey");
  }

  lemma XApiKeySpelled(k: string)
    ensures Canonical(k) == "x_api_key" <==> Spells(k, ["x", "api", "key"])
  {
    JoinedThree("x", "api", "key");
    assert "x" + "_" + "api" + "_" + "key" == "x_api_key";
    SpellsIff(k, ["x", "api", "key"], "x_api_key");
  }

  lemma AccessTokenSpelled(k: string)
    ensures Canonical(k) == "access_token" <==> Spells(k, ["access", "token"])
  {
    JoinedTwo("access", "token");
    assert "access" + "_" + "token" == "access_token";
    SpellsIff(k, ["access", "token"], "access_token");
  }

  lemma RefreshTokenSpelled(k: string)
    ensures Canonical(k) == "refresh_token" <==> Spells(k, ["refresh", "token"])
  {
    JoinedTwo("refresh", "token");
    assert "refresh" + "_" + "token" == "refresh_token";
    SpellsIff(k, ["refresh", "token"], "refresh_token");
  }

  lemma BearerTokenSpelled(k: string)
    ensures Canonical(k) == "bearer_token" <==> Spells(k, ["bearer", "token"])
  {
    JoinedTwo("bearer", "token");
    assert "bearer" + "_" + "token" == "bearer_token";
    SpellsIff(k, ["bearer", "token"], "bearer_token");
  }

  lemma TokenSpelled(k: string)
    ensures Canonical(k) == "token" <==> Spells(k, ["token"])
  {
    JoinedOne("token");
    SpellsIff(k, ["token"], "token");
  }

  lemma PasswordSpelled(k: string)
    ensures Canonical(k) == "password" <==> Spells(k, ["password"])
  {
    JoinedOne("password");
    SpellsIff(k, ["password"], "password");
  }

  lemma SecretSpelled(k: string)
    ensures Canonical(k) == "secret" <==> Spells(k, ["secret"])
  {
    JoinedOne("secret");
    SpellsIff(k, ["secret"], "secret");
  }

  lemma ClientSecretSpelled(k: string)
    ensures Canonical(k) == "client_secret" <==> Spells(k, ["client", "secret"])
  {
    JoinedTwo("client", "secret");
    assert "client" + "_" + "secret" == "client_secret";
    SpellsIff(k, ["client", "secret"], "client_secret");
  }

  lemma CookieSpelled(k: string)
    ensures Canonical(k) == "cookie" <==> Spells(k, ["cookie"])
  {
    JoinedOne("cookie");
    SpellsIff(k, ["cookie"], "cookie");
  }

  lemma SetCookieSpelled(k: string)
    ensures Canonical(k) == "set_cookie" <==> Spells(k, ["set", "cookie"])
  {
    JoinedTwo("set", "cookie");
    assert "set" + "_" + "cookie" == "set_cookie";
    SpellsIff(k, ["set", "cookie"], "set_cookie");
  }

  /** A name is sensitive exactly when its words are those of encrypted reasoning or of a
      credential. */
  lemma SensitiveIff(k: string)
    ensures IsSensitive(k) <==> SpellsSecret(k)
  {
    EncryptedIff(k);
    TokensSpelled(k);
    KeysSpelled(k);
    CredentialsSpelled(k);
  }

  lemma TokensSpelled(k: string)
    ensures Canonical(k) in {"token", "access_token", "refresh_token", "bearer_token"} <==> SpellsToken(k)
  {
    TokenSpelled(k);
    AccessTokenSpelled(k);
    RefreshTokenSpelled(k);
    BearerTokenSpelled(k);
  }

  lemma KeysSpelled(k: string)
    ensures Canonical(k) in {"api_key", "apikey", "x_api_key"} <==> SpellsKey(k)
  {
    ApiKeySpelled(k);
    ApikeySpelled(k);
    XApiKeySpelled(k);
  }

  lemma CredentialsSpelled(k: string)
    ensures Canonical(k) in {"authorization", "password", "secret", "client_secret", "cookie", "set_cookie"}
       <==> SpellsCredential(k)
  {
    AuthorizationSpelled(k);
    PasswordSpelled(k);
    SecretSpelled(k);
    ClientSecretSpelled(k);
    CookieSpelled(k);
    SetCookieSpelled(k);
  }

  // ----- Which keys are summaries, or fields of one.

  predicate SpellsSummary(k: string, side: Side) {
    match side
    case Input =>
      || Spells(k, ["genai", "request", "summary"]) || Spells(k, ["tool", "input", "summary"])
      || Spells(k, ["compaction", "summary"])
    case Output =>
      || Spells(k, ["genai", "response", "summary"]) || Spells(k, ["stream", "chunk", "summary"])
      || Spells(k, ["tool", "output", "summary"])
  }

  lemma GenaiRequestSummarySpelled(k: string)
    ensures Canonical(k) == "genai_request_summary" <==> Spells(k, ["genai", "request", "summary"])
  {
    JoinedThree("genai", "request", "summary");
    assert "genai" + "_" + "request" + "_" + "summary" == "genai_request_summary";
    SpellsIff(k, ["genai", "request", "summary"], "genai_request_summary");
  }

  lemma ToolInputSummarySpelled(k: string)
    ensures Canonical(k) == "tool_input_summary" <==> Spells(k, ["tool", "input", "summary"])
  {
    JoinedThree("tool", "input", "summary");
    assert "tool" + "_" + "input" + "_" + "summary" == "tool_input_summary";
    SpellsIff(k, ["tool", "input", "summary"], "tool_input_summary");
  }

  lemma CompactionSummarySpelled(k: string)
    ensures Canonical(k) == "compaction_summary" <==> Spells(k, ["compaction", "summary"])
  {
    JoinedTwo("compaction", "summary");
    assert "compaction" + "_" + "summary" == "compaction_summary";
    SpellsIff(k, ["compaction", "summary"], "compaction_summary");
  }

  lemma GenaiResponseSummarySpelled(k: string)
    ensures Canonical(k) == "genai_response_summary" <==> Spells(k, ["genai", "response", "summary"])
  {
    JoinedThree("genai", "response", "summary");
    assert "genai" + "_" + "response" + "_" + "summary" == "genai_response_summary";
    SpellsIff(k, ["genai", "response", "summary"], "genai_response_summary");
  }

  lemma StreamChunkSummarySpelled(k: string)
    ensures Canonical(k) == "stream_chunk_summary" <==> Spells(k, ["stream", "chunk", "summary"])
  {
    JoinedThree("stream", "chunk", "summary");
    assert "stream" + "_" + "chunk" + "_" + "summary" == "stream_chunk_summary";
    SpellsIff(k, ["stream", "chunk", "summary"], "stream_chunk_summary");
  }

  lemma ToolOutputSummarySpelled(k: string)
    ensures Canonical(k) == "tool_output_summary" <==> Spells(k, ["tool", "output", "summary"])
  {
    JoinedThree("tool", "output", "summary");
    assert "tool" + "_" + "output" + "_" + "summary" == "tool_output_summary";
    SpellsIff(k, ["tool", "output", "summary"], "tool_output_summary");
  }

  /** A key is a library summary exactly when its words are those of one. */
  lemma SideIff(k: string)
    ensures SummarySide(k) == Some(Input) <==> SpellsSummary(k, Input)
    ensures SummarySide(k) == Some(Output) <==> SpellsSummary(k, Output)
  {
    GenaiRequestSummarySpelled(k);
    ToolInputSummarySpelled(k);
    CompactionSummarySpelled(k);
    GenaiResponseSummarySpelled(k);
    StreamChunkSummarySpelled(k);
    ToolOutputSummarySpelled(k);
  }

  /** The key begins with the words of a library summary of that side and with `fields`. */
  predicate BeginsFields(k: string, side: Side) {
    match side
    case Input =>
      || Begins(k, ["genai", "request", "summary", "fields"]) || Begins(k, ["tool", "input", "summary", "fields"])
      || Begins(k, ["compaction", "summary", "fields"])
    case Output =>
      || Begins(k, ["genai", "response", "summary", "fields"]) || Begins(k, ["stream", "chunk", "summary", "fields"])
      || Begins(k, ["tool", "output", "summary", "fields"])
  }

  lemma FieldsPiece()
    ensures Piece(Codes("fields")) && Ascii(".fields.") && Ascii("_fields_")
    ensures Codes(".fields.") == ['.' as int] + Codes("fields") + ['.' as int]
    ensures Codes("_fields_") == ['_' as int] + Codes("fields") + ['_' as int]
  {
  }

  /** What stands before and after a field marker. */
  lemma MarkedWords(a: string, mark: string, rest: string)
    requires mark == ".fields." || mark == "_fields_"
    ensures PiecesOf(a + mark + rest) == PiecesOf(a) + [Codes("fields")] + PiecesOf(rest)
  {
    FieldsPiece();
    Forbidden.RunesAround(a, mark, rest);
    Forbidden.WordAmongRunes(Runes(a), mark[0] as int, Codes("fields"), Runes(rest));
  }

  lemma HeadBegins(k: string, head: string, ws: Words, more: seq<seq<int>>)
    requires PiecesOf(k) == PiecesOf(head) + [Codes("fields")] + more
    ensures Spells(head, ws) ==> Begins(k, ws + ["fields"])
  {
    assert CodesOf(ws + ["fields"]) == CodesOf(ws) + [Codes("fields")];
  }

  lemma InputHead(k: string, head: string, more: seq<seq<int>>)
    requires PiecesOf(k) == PiecesOf(head) + [Codes("fields")] + more && SpellsSummary(head, Input)
    ensures BeginsFields(k, Input)
  {
    HeadBegins(k, head, ["genai", "request", "summary"], more);
    HeadBegins(k, head, ["tool", "input", "summary"], more);
    HeadBegins(k, head, ["compaction", "summary"], more);
    assert ["genai", "request", "summary"] + ["fields"] == ["genai", "request", "summary", "fields"];
    assert ["tool", "input", "summary"] + ["fields"] == ["tool", "input", "summary", "fields"];
    assert ["compaction", "summary"] + ["fields"] == ["compaction", "summary", "fields"];
  }

  lemma OutputHead(k: string, head: string, more: seq<seq<int>>)
    requires PiecesOf(k) == PiecesOf(head) + [Codes("fields")] + more && SpellsSummary(head, Output)
    ensures BeginsFields(k, Output)
  {
    HeadBegins(k, head, ["genai", "response", "summary"], more);
    HeadBegins(k, head, ["stream", "chunk", "summary"], more);
    HeadBegins(k, head, ["tool", "output", "summary"], more);
    assert ["genai", "response", "summary"] + ["fields"] == ["genai", "response", "summary", "fields"];
    assert ["stream", "chunk", "summary"] + ["fields"] == ["stream", "chunk", "summary", "fields"];
    assert ["tool", "output", "summary"] + ["fields"] == ["tool", "output", "summary", "fields"];
  }

  lemma HeadIsSummary(k: string, a: string, mark: string, rest: string, side: Side)
    requires mark == ".fields." || mark == "_fields_"
    requires SummarySide(a) == Some(side) && PiecesOf(a + mark + rest) == PiecesOf(k)
    ensures BeginsFields(k, side)
  {
    MarkedWords(a, mark, rest);
    SideIff(a);
    if side.Input? { InputHead(k, a, PiecesOf(rest)); } else { OutputHead(k, a, PiecesOf(rest)); }
  }

  lemma SplitDotted(s: string, i: nat)
    requires i + 16 <= |s| && s[i..i + 16] == DOTTED_FIELDS
    ensures s == s[..i + 8] + ".fields." + s[i + 16..]
  {
    assert s[i + 8..i + 16] == s[i..i + 16][8..] == ".fields.";
  }

  lemma SplitCanonical(s: string, i: nat)
    requires i + 16 <= |s| && s[i..i + 16] == CANONICAL_FIELDS
    ensures s == s[..i + 8] + "_fields_" + s[i + 16..]
  {
    assert s[i + 8..i + 16] == s[i..i + 16][8..] == "_fields_";
  }

  lemma SamePiecesTrimmed(k: string)
    ensures PiecesOf(TrimSpace(k)) == PiecesOf(k) && PiecesOf(Canonical(TrimSpace(k))) == PiecesOf(k)
  {
    TrimmingKeepsPieces(k);
    CanonicalLaws(TrimSpace(k), k);
    PiecesOfCanonical(TrimSpace(k));
  }

  lemma FieldIs(k: string, s: string, i: int, j: int)
    requires s == TrimSpace(k) && i == IndexOf(s, DOTTED_FIELDS) && j == IndexOf(Canonical(s), CANONICAL_FIELDS)
    ensures i >= 0 ==> SummaryField(k) == FieldAt(s, i, 8, 16)
    ensures i < 0 && j >= 0 ==> SummaryField(k) == FieldAt(Canonical(s), j, 8, 16)
    ensures i < 0 && j < 0 ==> SummaryField(k) == None
  {
    assert |".summary"| == 8 && |DOTTED_FIELDS| == 16 && |"_summary"| == 8 && |CANONICAL_FIELDS| == 16;
  }

  lemma FieldAtHead(text: string, i: nat, side: Side, name: string)
    requires i + 16 <= |text| && FieldAt(text, i, 8, 16) == Some((side, name))
    ensures SummarySide(text[..i + 8]) == Some(side)
  {
  }

  lemma DottedBegins(k: string, s: string, i: nat, side: Side, name: string)
    requires PiecesOf(s) == PiecesOf(k) && i + 16 <= |s| && s[i..i + 16] == DOTTED_FIELDS
    requires FieldAt(s, i, 8, 16) == Some((side, name))
    ensures BeginsFields(k, side)
  {
    FieldAtHead(s, i, side, name);
    SplitDotted(s, i);
    HeadIsSummary(k, s[..i + 8], ".fields.", s[i + 16..], side);
  }

  lemma CanonicalBegins(k: string, c: string, i: nat, side: Side, name: string)
    requires PiecesOf(c) == PiecesOf(k) && i + 16 <= |c| && c[i..i + 16] == CANONICAL_FIELDS
    requires FieldAt(c, i, 8, 16) == Some((side, name))
    ensures BeginsFields(k, side)
  {
    FieldAtHead(c, i, side, name);
    SplitCanonical(c, i);
    HeadIsSummary(k, c[..i + 8], "_fields_", c[i + 16..], side);
  }

  /** Only what begins with the words of a library summary and `fields` is read as a field. */
  lemma FieldBegins(k: string, side: Side, name: string)
    requires SummaryField(k) == Some((side, name))
    ensures BeginsFields(k, side)
  {
    var s := TrimSpace(k);
    var i, j := IndexOf(s, DOTTED_FIELDS), IndexOf(Canonical(s), CANONICAL_FIELDS);
    FieldIs(k, s, i, j);
    SamePiecesTrimmed(k);
    if i >= 0 { DottedBegins(k, s, i, side, name); } else { CanonicalBegins(k, Canonical(s), j, side, name); }
  }

  // ----- What is read as a field.

  lemma {:induction false} IndexIsFirst(s: string, sub: string, p: nat)
    requires p + |sub| <= |s| && s[p..p + |sub|] == sub
    ensures 0 <= IndexOf(s, sub) <= p
  {
    if s[..|sub|] != sub {
      assert p > 0 && s[1..][p - 1..p - 1 + |sub|] == sub;
      IndexIsFirst(s[1..], sub, p - 1);
    }
  }

  /** No underscore of the text stands before an `s`, nor at its end. */
  predicate NoMarkIn(stem: string) {
    forall i :: 0 <= i < |stem| && stem[i] == '_' ==> i + 1 < |stem| && stem[i + 1] != 's'
  }

  lemma MarkerStarts(s: string, i: int)
    requires i == IndexOf(s, CANONICAL_FIELDS)
    ensures i >= 0 ==> i + 1 < |s| && s[i] == '_' && s[i + 1] == 's'
  {
    assert |CANONICAL_FIELDS| == 16 && CANONICAL_FIELDS[0] == '_' && CANONICAL_FIELDS[1] == 's';
    if i >= 0 { OccurrenceHas(s, CANONICAL_FIELDS, i, 0); }
  }

  /** After such a text the field marker is found where it stands. */
  lemma MarkerAfter(stem: string, rest: string, s: string)
    requires NoMarkIn(stem) && s == stem + CANONICAL_FIELDS + rest
    ensures IndexOf(s, CANONICAL_FIELDS) == |stem|
  {
    forall j | 0 <= j < |stem| ensures s[j] != '_' || s[j + 1] != 's' {
      assert s[j] == stem[j] && (j + 1 < |stem| ==> s[j + 1] == stem[j + 1]);
    }
    assert s[|stem|..|stem| + 16] == CANONICAL_FIELDS;
    IndexIsFirst(s, CANONICAL_FIELDS, |stem|);
    MarkerStarts(s, IndexOf(s, CANONICAL_FIELDS));
  }

  lemma CanonicalSplit(stem: string, rest: string, c: string)
    requires c == stem + CANONICAL_FIELDS + rest
    ensures |stem| + 16 <= |c| && c[..|stem| + 8] == stem + "_summary" && c[|stem| + 16..] == rest
  {
    assert CANONICAL_FIELDS[..8] == "_summary" && |CANONICAL_FIELDS| == 16;
  }

  lemma StemKnown(k: string, stem: string, rest: string, side: Side)
    requires NoMarkIn(stem) && SummarySide(stem + "_summary") == Some(side)
    requires IndexOf(TrimSpace(k), DOTTED_FIELDS) < 0
    requires Canonical(TrimSpace(k)) == stem + CANONICAL_FIELDS + rest
    ensures SummaryField(k) == Some((side, TrimSpace(rest)))
  {
    MarkerAfter(stem, rest, Canonical(TrimSpace(k)));
    FieldIs(k, TrimSpace(k), IndexOf(TrimSpace(k), DOTTED_FIELDS), |stem|);
    StemField(Canonical(TrimSpace(k)), stem, rest, side);
  }

  lemma StemField(c: string, stem: string, rest: string, side: Side)
    requires SummarySide(stem + "_summary") == Some(side) && c == stem + CANONICAL_FIELDS + rest
    ensures |stem| + 16 <= |c| && FieldAt(c, |stem|, 8, 16) == Some((side, TrimSpace(rest)))
  {
    CanonicalSplit(stem, rest, c);
    FieldAtIs(c, |stem|, 8, 16, side, TrimSpace(rest));
  }

  lemma AfterWords(c: string, stem: string) returns (rest: string)
    requires stem + "_summary_fields" + "_" <= c
    ensures c == stem + CANONICAL_FIELDS + rest
  {
    rest := c[|stem| + 16..];
    assert "_summary_fields" + "_" == CANONICAL_FIELDS;
    assert c[..|stem| + 16] == stem + "_summary_fields" + "_" == stem + CANONICAL_FIELDS;
  }

  /** The words of a summary and `fields`, by the text before `_summary`. */
  lemma StemWords(k: string, ws: Words, stem: string, side: Side)
    requires Joined(ws, stem + "_summary_fields") && NoMarkIn(stem) && SummarySide(stem + "_summary") == Some(side)
    requires IndexOf(TrimSpace(k), DOTTED_FIELDS) < 0
    ensures Begins(k, ws) && Longer(k, ws) ==> SummaryField(k).Some? && SummaryField(k).value.0 == side
  {
    SamePiecesTrimmed(k);
    BeginsIff(TrimSpace(k), ws, stem + "_summary_fields");
    if Begins(k, ws) && Longer(k, ws) {
      var rest := AfterWords(Canonical(TrimSpace(k)), stem);
      StemKnown(k, stem, rest, side);
    }
  }

  /** A key with the words of a library summary, `fields`, and more. */
  predicate FieldWords(k: string, side: Side) {
    match side
    case Input =>
      || (Begins(k, REQUEST_FIELDS) && Longer(k, REQUEST_FIELDS))
      || (Begins(k, TOOL_INPUT_FIELDS) && Longer(k, TOOL_INPUT_FIELDS))
      || (Begins(k, COMPACTION_FIELDS) && Longer(k, COMPACTION_FIELDS))
    case Output =>
      || (Begins(k, RESPONSE_FIELDS) && Longer(k, RESPONSE_FIELDS))
      || (Begins(k, CHUNK_FIELDS) && Longer(k, CHUNK_FIELDS))
      || (Begins(k, TOOL_OUTPUT_FIELDS) && Longer(k, TOOL_OUTPUT_FIELDS))
  }

  const REQUEST_FIELDS: Words := ["genai", "request", "summary", "fields"]
  const TOOL_INPUT_FIELDS: Words := ["tool", "input", "summary", "fields"]
  const COMPACTION_FIELDS: Words := ["compaction", "summary", "fields"]
  const RESPONSE_FIELDS: Words := ["genai", "response", "summary", "fields"]
  const CHUNK_FIELDS: Words := ["stream", "chunk", "summary", "fields"]
  const TOOL_OUTPUT_FIELDS: Words := ["tool", "output", "summary", "fields"]

  lemma JoinedStem(a: string, b: string, stem: string)
    requires Word(a) && Word(b) && stem == a + "_" + b
    ensures Joined([a, b, "summary", "fields"], stem + "_summary_fields")
  {
    JoinedThree(b, "summary", "fields");
    JoinedMore(a, [b, "summary", "fields"], b + "_" + "summary" + "_" + "fields");
    assert [a] + [b, "summary", "fields"] == [a, b, "summary", "fields"];
    assert a + "_" + (b + "_" + "summary" + "_" + "fields") == stem + "_summary_fields" by {
      assert "_" + "summary" + "_" + "fields" == "_summary_fields";
    }
  }

  lemma JoinedOneStem(a: string)
    requires Word(a)
    ensures Joined([a, "summary", "fields"], a + "_summary_fields") && Joined([a, "summary"], a + "_summary")
  {
    JoinedThree(a, "summary", "fields");
    JoinedTwo(a, "summary");
    assert "_" + "summary" == "_summary" && "_" + "summary" + "_" + "fields" == "_summary_fields";
    assert a + "_" + "summary" + "_" + "fields" == a + "_summary_fields" && a + "_" + "summary" == a + "_summary";
  }

  lemma StemSide(a: string, b: string, stem: string, side: Side)
    requires Word(a) && Word(b) && stem == a + "_" + b
    requires Spells(stem + "_summary", [a, b, "summary"]) ==> SpellsSummary(stem + "_summary", side)
    ensures SummarySide(stem + "_summary") == Some(side)
  {
    var u := stem + "_summary";
    JoinedThree(a, b, "summary");
    assert a + "_" + b + "_" + "summary" == u by { assert "_" + "summary" == "_summary"; }
    OwnSpelling([a, b, "summary"], u);
    SideIff(u);
  }

  lemma OwnSpelling(ws: Words, u: string)
    requires Joined(ws, u)
    ensures Spells(u, ws)
  {
    RunesOfAscii(u);
    PiecesOfJoin(CodesOf(ws));
  }

  lemma GenaiRequestFields(k: string)
    requires IndexOf(TrimSpace(k), DOTTED_FIELDS) < 0
    ensures Begins(k, REQUEST_FIELDS) && Longer(k, REQUEST_FIELDS) ==>
              SummaryField(k).Some? && SummaryField(k).value.0 == Input
  {
    assert "genai_request" == "genai" + "_" + "request";
    JoinedStem("genai", "request", "genai_request");
    StemSide("genai", "request", "genai_request", Input);
    StemWords(k, REQUEST_FIELDS, "genai_request", Input);
  }

  lemma ToolInputFields(k: string)
    requires IndexOf(TrimSpace(k), DOTTED_FIELDS) < 0
    ensures Begins(k, TOOL_INPUT_FIELDS) && Longer(k, TOOL_INPUT_FIELDS) ==>
              SummaryField(k).Some? && SummaryField(k).value.0 == Input
  {
    assert "tool_input" == "tool" + "_" + "input";
    JoinedStem("tool", "input", "tool_input");
    StemSide("tool", "input", "tool_input", Input);
    StemWords(k, TOOL_INPUT_FIELDS, "tool_input", Input);
  }

  lemma CompactionFields(k: string)
    requires IndexOf(TrimSpace(k), DOTTED_FIELDS) < 0
    ensures Begins(k, COMPACTION_FIELDS) && Longer(k, COMPACTION_FIELDS) ==>
              SummaryField(k).Some? && SummaryField(k).value.0 == Input
  {
    JoinedOneStem("compaction");
    OwnSpelling(["compaction", "summary"], "compaction" + "_summary");
    SideIff("compaction" + "_summary");
    StemWords(k, COMPACTION_FIELDS, "compaction", Input);
  }

  lemma GenaiResponseFields(k: string)
    requires IndexOf(TrimSpace(k), DOTTED_FIELDS) < 0
    ensures Begins(k, RESPONSE_FIELDS) && Longer(k, RESPONSE_FIELDS) ==>
              SummaryField(k).Some? && SummaryField(k).value.0 == Output
  {
    assert "genai_response" == "genai" + "_" + "response";
    JoinedStem("genai", "response", "genai_response");
    StemSide("genai", "response", "genai_response", Output);
    StemWords(k, RESPONSE_FIELDS, "genai_response", Output);
  }

  lemma StreamChunkFields(k: string)
    requires IndexOf(TrimSpace(k), DOTTED_FIELDS) < 0
    ensures Begins(k, CHUNK_FIELDS) && Longer(k, CHUNK_FIELDS) ==>
              SummaryField(k).Some? && SummaryField(k).value.0 == Output
  {
    assert "stream_chunk" == "stream" + "_" + "chunk";
    JoinedStem("stream", "chunk", "stream_chunk");
    StemSide("stream", "chunk", "stream_chunk", Output);
    StemWords(k, CHUNK_FIELDS, "stream_chunk", Output);
  }

  lemma ToolOutputFields(k: string)
    requires IndexOf(TrimSpace(k), DOTTED_FIELDS) < 0
    ensures Begins(k, TOOL_OUTPUT_FIELDS) && Longer(k, TOOL_OUTPUT_FIELDS) ==>
              SummaryField(k).Some? && SummaryField(k).value.0 == Output
  {
    assert "tool_output" == "tool" + "_" + "output";
    JoinedStem("tool", "output", "tool_output");
    StemSide("tool", "output", "tool_output", Output);
    StemWords(k, TOOL_OUTPUT_FIELDS, "tool_output", Output);
  }

  /** Without a dotted field marker, a key with the words of a library summary, `fields`, and more is
      read as a field of that side. */
  lemma FieldWordsRead(k: string, side: Side)
    requires IndexOf(TrimSpace(k), DOTTED_FIELDS) < 0 && FieldWords(k, side)
    ensures SummaryField(k).Some? && SummaryField(k).value.0 == side
  {
    GenaiRequestFields(k);
    ToolInputFields(k);
    CompactionFields(k);
    GenaiResponseFields(k);
    StreamChunkFields(k);
    ToolOutputFields(k);
  }
}
