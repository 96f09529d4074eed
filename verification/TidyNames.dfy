/** Facts about the library's own attribute names, which are tidy ASCII. */
module TidyNames {
  import opened Utf8
  import opened Names
  import opened Redaction
  import opened Model

  // ----- The canonical name of a tidy ASCII name.

  predicate NameChar(c: char) { 'a' <= c <= 'z' || '0' <= c <= '9' || c == '.' || c == '_' }

  predicate Mark(c: char) { c == '.' || c == '_' }

  predicate NameChars(s: string) { forall i :: 0 <= i < |s| ==> NameChar(s[i]) }

  predicate SingleMarks(s: string) { forall i :: 0 <= i < |s| - 1 ==> Mark(s[i]) ==> !Mark(s[i + 1]) }

  /** Lower-case words of ASCII letters and digits with single marks between them. */
  predicate Tidy(s: string) {
    s != "" && !Mark(s[0]) && !Mark(s[|s| - 1]) && NameChars(s) && SingleMarks(s)
  }

  predicate NoDoubleM(s: string) { forall i :: 0 <= i < |s| - 1 ==> s[i] == 'm' ==> s[i + 1] != 'm' }

  function Underscored(s: string): (u: string)
    ensures |u| == |s|
    ensures forall i :: 0 <= i < |s| ==> u[i] == if s[i] == '.' then '_' else s[i]
  {
    seq(|s|, i requires 0 <= i < |s| => if s[i] == '.' then '_' else s[i])
  }

  /** The same on runes. */
  predicate TidyRunes(rs: seq<int>) {
    && rs != [] && !Separator(rs[0]) && !Separator(rs[|rs| - 1])
    && (forall i :: 0 <= i < |rs| ==> LowerRune(rs[i]) == rs[i])
    && forall i :: 0 <= i < |rs| - 1 ==> !(Separator(rs[i]) && Separator(rs[i + 1]))
  }

  function Marked(rs: seq<int>): (out: seq<int>)
    ensures |out| == |rs|
  {
    seq(|rs|, i requires 0 <= i < |rs| => if Separator(rs[i]) then UNDERSCORE else rs[i])
  }

  lemma TidyRest(rs: seq<int>, n: nat)
    requires TidyRunes(rs) && n < |rs| && Separator(rs[n])
    ensures n + 1 < |rs| && TidyRunes(rs[n + 1..])
  {
    var rest := rs[n + 1..];
    assert rest[0] == rs[n + 1] && rest[|rest| - 1] == rs[|rs| - 1];
    forall i | 0 <= i < |rest| - 1 ensures !(Separator(rest[i]) && Separator(rest[i + 1])) {
      assert rest[i] == rs[n + 1 + i] && rest[i + 1] == rs[n + 2 + i];
    }
  }

  /** A single word is its own piece. */
  lemma TidyWord(rs: seq<int>)
    requires TidyRunes(rs) && WordLength(rs) == |rs|
    ensures Pieces(rs) == [rs] && Marked(rs) == rs
  {
    assert rs[..|rs|] == rs && rs[|rs|..] == [];
    assert Lower(rs) == rs;
  }

  lemma MarkedSplits(rs: seq<int>, n: nat, rest: seq<int>)
    requires n < |rs| && Separator(rs[n]) && (forall i :: 0 <= i < n ==> !Separator(rs[i])) && rest == rs[n + 1..]
    ensures Marked(rs) == rs[..n] + [UNDERSCORE] + Marked(rest)
  {
  }

  /** A word, a mark and the rest. */
  lemma TidyHead(rs: seq<int>, n: nat, rest: seq<int>)
    requires TidyRunes(rs) && n == WordLength(rs) && n < |rs| && rest == rs[n + 1..]
    ensures Pieces(rs) == [rs[..n]] + Pieces(rest)
    ensures Marked(rs) == rs[..n] + [UNDERSCORE] + Marked(rest)
  {
    assert Pieces(rs[n..]) == Pieces(rest) by { assert rs[n..][1..] == rest; }
    assert Lower(rs[..n]) == rs[..n];
    MarkedSplits(rs, n, rest);
  }

  lemma {:induction false} TidyPieces(rs: seq<int>)
    requires TidyRunes(rs)
    ensures Pieces(rs) != [] && Join(Pieces(rs)) == Marked(rs)
    decreases |rs|
  {
    var n := WordLength(rs);
    if n == |rs| {
      TidyWord(rs);
    } else {
      TidyRest(rs, n);
      TidyPieces(rs[n + 1..]);
      TidyHead(rs, n, rs[n + 1..]);
      assert ([rs[..n]] + Pieces(rs[n + 1..]))[1..] == Pieces(rs[n + 1..]);
    }
  }

  lemma RunesOfAscii(s: string)
    requires Ascii(s)
    ensures Runes(s) == Codes(s)
  {
    RunesAfterAscii(s, "");
    assert s + "" == s && Codes(s) + [] == Codes(s);
  }

  lemma TidyIsAscii(s: string)
    requires Tidy(s)
    ensures Ascii(s) && Ascii(Underscored(s)) && TidyRunes(Codes(s))
    ensures Marked(Codes(s)) == Codes(Underscored(s))
  {
  }

  lemma TidyCanonical(s: string)
    requires Tidy(s)
    ensures Canonical(s) == Underscored(s)
  {
    TidyIsAscii(s);
    RunesOfAscii(s);
    TidyPieces(Codes(s));
    EncodeCodes(Underscored(s));
  }

  lemma TidyTrimmed(s: string)
    requires Tidy(s)
    ensures TrimSpace(s) == s
  {
    assert TrimSpace("") == "" && s + "" == s;
    TidyIsAscii(s);
    TrimSpaceAfterPrefix(s, "");
  }

  // ----- A tidy name with a suffix the caller chose.

  lemma {:induction false} JoinGrows(ps: seq<seq<int>>, qs: seq<seq<int>>)
    ensures Join(ps) <= Join(ps + qs)
  {
    if |ps| == 0 {
    } else if |ps| == 1 {
      assert (ps + qs)[1..] == qs;
    } else {
      JoinGrows(ps[1..], qs);
      assert (ps + qs)[1..] == ps[1..] + qs;
    }
  }

  lemma {:induction false} EncodeLength(rs: seq<int>)
    requires Scalars(rs)
    ensures |Encode(rs)| >= |rs|
  {
    if rs != [] { EncodeLength(rs[1..]); }
  }

  /** Whatever follows the dot, the canonical name is at least as long as the tidy part. */
  lemma CanonicalDotted(a: string, x: string)
    requires Tidy(a)
    ensures |Canonical(a + "." + x)| >= |a|
  {
    TidyIsAscii(a);
    assert a + "." + x == a + ("." + x);
    RunesAfterAscii(a, "." + x);
    RunesAfterAscii(".", x);
    var rs := Codes(a) + ['.' as int] + Runes(x);
    assert Runes(a + "." + x) == rs by { assert Codes(".") == ['.' as int]; }
    PiecesOfSplit(Codes(a), '.' as int, Runes(x));
    TidyPieces(Codes(a));
    JoinGrows(Pieces(Codes(a)), Pieces(Runes(x)));
    CanonicalScalars(rs);
    EncodeLength(Join(Pieces(rs)));
  }

  // ----- Where names differ.

  lemma NotPrefix(p: string, u: string, i: nat)
    requires i < |p| && i < |u| && p[i] != u[i]
    ensures !(p <= u) && p != u
  {
  }

  /** Where a tidy schema key differs from the names the raw payload test looks for. */
  predicate NotRawStart(u: string) {
    && |u| > 5
    && (u[0] == 'g' || u[0] == 'i' || u[0] == 's' || u[0] == 'c'
        || (u[0] == 't' && u[5] != 'i' && u[5] != 'o') || (u[0] == 'r' && u[2] != 'a'))
  }

  lemma NotRawPrefix(u: string)
    requires NotRawStart(u)
    ensures !RawPrefix(u)
  {
    var i := if u[0] == 't' then 5 else 0;
    NotPrefix("tool_input_", u, i);
    NotPrefix("tool_output_", u, i);
    NotPrefix("reasoning_", u, if u[0] == 'r' then 2 else 0);
  }

  lemma NotRawName(u: string)
    requires NotRawStart(u)
    ensures !RawName(u) && !IsEncryptedCanonical(u)
  {
    var i := if u[0] == 't' then 5 else 0;
    var j := if u[0] == 'r' then 2 else 0;
    NotPrefix("tool_input", u, i);
    NotPrefix("tool_output", u, i);
    NotPrefix("reasoning", u, j);
    NotPrefix("reasoning_encrypted", u, j);
  }

  lemma OccurrenceHas(s: string, sub: string, i: int, j: int)
    requires 0 <= i && 0 <= j && i + |sub| <= |s| && s[i..i + |sub|] == sub && j + 1 < |sub|
    ensures s[i + j] == sub[j] && s[i + j + 1] == sub[j + 1]
  {
    assert s[i..i + |sub|][j] == s[i + j] && s[i..i + |sub|][j + 1] == s[i + j + 1];
  }

  lemma NoFieldMarkers(k: string, c: string)
    requires TrimSpace(k) == k && Canonical(k) == c
    requires IndexOf(k, DOTTED_FIELDS) == -1 && IndexOf(c, CANONICAL_FIELDS) == -1
    ensures SummaryField(k) == None
  {
  }

  lemma DottedFieldIs(k: string, i: nat, found: Option<(Side, string)>)
    requires TrimSpace(k) == k && IndexOf(k, DOTTED_FIELDS) == i && FieldAt(k, i, 8, 16) == found
    ensures SummaryField(k) == found
  {
  }

  lemma FieldAtIs(k: string, i: nat, head: nat, marker: nat, side: Side, name: string)
    requires head <= marker && i + marker <= |k|
    requires SummarySide(k[..i + head]) == Some(side) && TrimSpace(k[i + marker..]) == name
    ensures FieldAt(k, i, head, marker) == Some((side, name))
  {
  }
}
