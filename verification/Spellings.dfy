/** Names by their words: what a name is called, however it is spelled. */
module Spellings {
  import opened Utf8
  import opened Names
  import opened TidyNames

  /** Lower-case ASCII words. */
  type Words = seq<string>

  function CodesOf(ws: Words): (ps: seq<seq<int>>)
    ensures |ps| == |ws|
  {
    seq(|ws|, i requires 0 <= i < |ws| => Codes(ws[i]))
  }

  function PiecesOf(key: string): seq<seq<int>> { Pieces(Runes(key)) }

  /** The name has exactly these words, with any separators between and around them and in any
      case. */
  predicate Spells(key: string, ws: Words) { PiecesOf(key) == CodesOf(ws) }

  /** The name begins with these words. */
  predicate Begins(key: string, ws: Words) { CodesOf(ws) <= PiecesOf(key) }

  predicate Longer(key: string, ws: Words) { |PiecesOf(key)| > |ws| }

  /** The text u is the words with single underscores between them. */
  predicate Joined(ws: Words, u: string) {
    ws != [] && AllPieces(CodesOf(ws)) && Ascii(u) && Codes(u) == Join(CodesOf(ws))
  }

  // ----- Canonical names and words.

  lemma {:induction false} JoinAppend(ps: seq<seq<int>>, qs: seq<seq<int>>)
    requires ps != [] && qs != []
    ensures Join(ps + qs) == Join(ps) + [UNDERSCORE] + Join(qs)
  {
    if |ps| == 1 {
      assert (ps + qs)[1..] == qs;
    } else {
      JoinAppend(ps[1..], qs);
      assert (ps + qs)[1..] == ps[1..] + qs;
    }
  }

  lemma PiecesOfCanonical(key: string)
    ensures PiecesOf(Canonical(key)) == PiecesOf(key) && Runes(Canonical(key)) == Join(PiecesOf(key))
    ensures AllPieces(PiecesOf(key)) && Scalars(Join(PiecesOf(key))) && Canonical(key) == Encode(Join(PiecesOf(key)))
  {
    CanonicalPieces(key);
    PiecesArePieces(Runes(key));
    CanonicalScalars(Runes(key));
  }

  /** A canonical name is the joined words exactly when the name has those words. */
  lemma SpellsIff(key: string, ws: Words, u: string)
    requires Joined(ws, u)
    ensures Canonical(key) == u <==> Spells(key, ws)
  {
    PiecesOfCanonical(key);
    RunesOfAscii(u);
    EncodeCodes(u);
    PiecesOfJoin(CodesOf(ws));
  }

  /** What follows the joined words and an underscore. */
  lemma PiecesAfter(ws: Words, u: string, rest: string)
    requires Joined(ws, u)
    ensures PiecesOf(u + "_" + rest) == CodesOf(ws) + PiecesOf(rest)
  {
    assert Codes(u + "_") == Codes(u) + [UNDERSCORE];
    RunesAfterAscii(u + "_", rest);
    PiecesOfSplit(Codes(u), UNDERSCORE, Runes(rest));
    PiecesOfJoin(CodesOf(ws));
  }

  lemma PrefixMeansLonger(key: string, ws: Words, u: string)
    requires Joined(ws, u) && u + "_" <= Canonical(key)
    ensures Begins(key, ws) && Longer(key, ws)
  {
    var c := Canonical(key);
    var rest := c[|u| + 1..];
    assert c == u + "_" + rest;
    PiecesAfter(ws, u, rest);
    PiecesOfCanonical(key);
    if PiecesOf(rest) == [] {
      assert PiecesOf(key) == CodesOf(ws);
      SpellsIff(key, ws, u);
    }
  }

  lemma LongerMeansPrefix(key: string, ws: Words, u: string)
    requires Joined(ws, u) && Begins(key, ws) && Longer(key, ws)
    ensures u + "_" <= Canonical(key)
  {
    var ps := PiecesOf(key);
    PiecesOfCanonical(key);
    JoinSplit(ps, CodesOf(ws));
    EncodedPrefix(Join(ps), u, Join(ps[|ws|..]), Canonical(key));
  }

  lemma JoinSplit(ps: seq<seq<int>>, qs: seq<seq<int>>)
    requires AllPieces(ps) && qs != [] && qs <= ps && |ps| > |qs|
    ensures Join(ps) == Join(qs) + [UNDERSCORE] + Join(ps[|qs|..]) && Scalars(Join(ps[|qs|..]))
  {
    var more := ps[|qs|..];
    assert ps == qs + more;
    JoinAppend(qs, more);
    JoinScalars(more);
  }

  lemma EncodedPrefix(rs: seq<int>, u: string, more: seq<int>, c: string)
    requires Ascii(u) && Scalars(rs) && Scalars(more) && c == Encode(rs) && rs == Codes(u) + [UNDERSCORE] + more
    ensures u + "_" <= c
  {
    var head := u + "_";
    assert Codes(head) == Codes(u) + [UNDERSCORE];
    EncodeCodes(head);
    EncodeAppend(Codes(head), more);
  }

  /** A canonical name begins with the joined words exactly when the name begins with the words. */
  lemma BeginsIff(key: string, ws: Words, u: string)
    requires Joined(ws, u)
    ensures u + "_" <= Canonical(key) <==> Begins(key, ws) && Longer(key, ws)
    ensures Canonical(key) == u || u + "_" <= Canonical(key) <==> Begins(key, ws)
  {
    SpellsIff(key, ws, u);
    if u + "_" <= Canonical(key) { PrefixMeansLonger(key, ws, u); }
    if Begins(key, ws) && Longer(key, ws) { LongerMeansPrefix(key, ws, u); }
    if Begins(key, ws) && !Longer(key, ws) { assert Spells(key, ws); }
  }

  // ----- The words that matter.

  predicate Word(w: string) { w != "" && forall i :: 0 <= i < |w| ==> 'a' <= w[i] <= 'z' }

  lemma WordIsPiece(w: string)
    requires Word(w)
    ensures Ascii(w) && Piece(Codes(w))
  {
  }

  lemma JoinedOne(a: string)
    requires Word(a)
    ensures Joined([a], a)
  {
    WordIsPiece(a);
    assert CodesOf([a]) == [Codes(a)];
  }

  lemma JoinedMore(a: string, ws: Words, u: string)
    requires Word(a) && Joined(ws, u)
    ensures Joined([a] + ws, a + "_" + u)
  {
    WordIsPiece(a);
    assert CodesOf([a] + ws) == [Codes(a)] + CodesOf(ws);
    assert Codes(a + "_" + u) == Codes(a) + [UNDERSCORE] + Codes(u);
  }

  lemma JoinedTwo(a: string, b: string)
    requires Word(a) && Word(b)
    ensures Joined([a, b], a + "_" + b)
  {
    JoinedOne(b);
    JoinedMore(a, [b], b);
    assert [a] + [b] == [a, b];
  }

  lemma JoinedThree(a: string, b: string, c: string)
    requires Word(a) && Word(b) && Word(c)
    ensures Joined([a, b, c], a + "_" + b + "_" + c)
  {
    JoinedTwo(b, c);
    JoinedMore(a, [b, c], b + "_" + c);
    assert [a] + [b, c] == [a, b, c];
    assert a + "_" + (b + "_" + c) == a + "_" + b + "_" + c;
  }

  // ----- How a name may be spelled.

  /** Hyphens, underscores, dots, and the white space of Unicode. */
  predicate Divides(r: int) {
    || r == 0x2D || r == 0x5F || r == 0x2E
    || r in {0x09, 0x0A, 0x0B, 0x0C, 0x0D, 0x20, 0x85, 0xA0, 0x1680, 0x2028, 0x2029, 0x202F, 0x205F, 0x3000}
    || 0x2000 <= r <= 0x200A
  }

  /** The same letter in either case of ASCII. */
  predicate SameLetter(x: int, y: int) {
    x == y || (0x41 <= x <= 0x5A && y == x + 0x20) || (0x41 <= y <= 0x5A && x == y + 0x20)
  }

  predicate SameSpelling(a: seq<int>, b: seq<int>) {
    |a| == |b| && forall i :: 0 <= i < |a| ==> (Divides(a[i]) && Divides(b[i])) || SameLetter(a[i], b[i])
  }

  lemma DividesIs(r: int)
    ensures Divides(r) <==> Separator(r)
  {
  }

  lemma LettersLower(x: int, y: int)
    requires SameLetter(x, y)
    ensures LowerRune(x) == LowerRune(y) && (Separator(x) <==> Separator(y))
  {
  }

  lemma SameAtEach(a: seq<int>, b: seq<int>, i: nat)
    requires SameSpelling(a, b) && i < |a|
    ensures Separator(a[i]) <==> Separator(b[i])
    ensures !Separator(a[i]) ==> LowerRune(a[i]) == LowerRune(b[i])
  {
    DividesIs(a[i]);
    DividesIs(b[i]);
    if SameLetter(a[i], b[i]) { LettersLower(a[i], b[i]); }
  }

  lemma SameTails(a: seq<int>, b: seq<int>, n: nat)
    requires SameSpelling(a, b) && n <= |a|
    ensures SameSpelling(a[n..], b[n..])
  {
  }

  lemma SameWords(a: seq<int>, b: seq<int>)
    requires SameSpelling(a, b)
    ensures WordLength(a) == WordLength(b) && Lower(a[..WordLength(a)]) == Lower(b[..WordLength(a)])
  {
    var n := WordLength(a);
    forall i | 0 <= i < |a| ensures Separator(a[i]) <==> Separator(b[i]) { SameAtEach(a, b, i); }
    WordLengthIs(b, n);
    forall i | 0 <= i < n ensures LowerRune(a[i]) == LowerRune(b[i]) { SameAtEach(a, b, i); }
  }

  /** Neither which separator stands where nor the case of ASCII letters changes the words. */
  lemma {:induction false} SpellingDoesNotMatter(a: seq<int>, b: seq<int>)
    requires SameSpelling(a, b)
    ensures Pieces(a) == Pieces(b)
    decreases |a|
  {
    if a != [] {
      SameAtEach(a, b, 0);
      if Separator(a[0]) {
        SameTails(a, b, 1);
        SpellingDoesNotMatter(a[1..], b[1..]);
      } else {
        SameWords(a, b);
        SameTails(a, b, WordLength(a));
        SpellingDoesNotMatter(a[WordLength(a)..], b[WordLength(a)..]);
      }
    }
  }

  /** Nothing else divides words, and nothing but ASCII capitals changes. */
  lemma OneRune(r: int)
    ensures Pieces([r]) == if Divides(r) then [] else [[if 0x41 <= r <= 0x5A then r + 0x20 else r]]
  {
    DividesIs(r);
    assert [r][1..] == [];
    if !Divides(r) {
      WordLengthIs([r], 1);
      assert [r][..1] == [r] && Lower([r]) == [LowerRune(r)];
    }
  }
}
