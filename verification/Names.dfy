/** Attribute names: trimming, canonical form and the order used for sorting. */
module Names {
  import opened Utf8

  // ----- Trimming white space.

  /** White space as Go's unicode package defines it. */
  predicate Space(r: int) {
    || 9 <= r <= 13 || r == 0x20 || r == 0x85 || r == 0xA0 || r == 0x1680
    || 0x2000 <= r <= 0x200A || r == 0x2028 || r == 0x2029 || r == 0x202F || r == 0x205F || r == 0x3000
  }

  predicate Blank(s: string) { s == "" || (Space(FirstRune(s)) && Blank(s[Width(s)..])) }

  function TrimLeft(s: string): (t: string)
    ensures t == "" || !Space(FirstRune(t))
    ensures |t| <= |s|
  {
    if s == "" || !Space(FirstRune(s)) then s else TrimLeft(s[Width(s)..])
  }

  /** Where the trailing white space begins. */
  function TrimEnd(s: string): (p: nat)
    ensures p <= |s|
    ensures RuneStart(s, p)
    ensures p == 0 <==> Blank(s)
  {
    if Blank(s) then 0 else Width(s) + TrimEnd(s[Width(s)..])
  }

  /** The string without leading and trailing white space. */
  function TrimSpace(s: string): string {
    var t := TrimLeft(s);
    t[..TrimEnd(t)]
  }

  lemma TrimEndFrom(s: string, rest: string)
    requires s != "" && rest == s[Width(s)..]
    requires Space(FirstRune(s)) ==> TrimEnd(rest) > 0
    ensures TrimEnd(s) == Width(s) + TrimEnd(rest)
  {
  }

  lemma {:induction false} TrimEndTwice(s: string)
    ensures TrimEnd(s[..TrimEnd(s)]) == TrimEnd(s)
  {
    if !Blank(s) {
      var p, w := TrimEnd(s), Width(s);
      var rest := s[w..];
      CutKeepsFirst(s, p);
      Slices(s, w, p);
      TrimEndTwice(rest);
      TrimEndFrom(s[..p], rest[..TrimEnd(rest)]);
    }
  }

  lemma TrimSpaceTwice(s: string)
    ensures TrimSpace(TrimSpace(s)) == TrimSpace(s)
  {
    var t := TrimLeft(s);
    var p := TrimEnd(t);
    TrimEndTwice(t);
    if p > 0 {
      CutKeepsFirst(t, p);
      assert TrimLeft(t[..p]) == t[..p];
    }
  }

  /** An ASCII prefix that neither begins nor ends with white space, put before a trimmed
      string, gives a trimmed string. */
  lemma TrimSpaceAfterPrefix(a: string, x: string)
    requires a != "" && Ascii(a) && !Space(a[0] as int) && !Space(a[|a| - 1] as int)
    requires TrimSpace(x) == x
    ensures TrimSpace(a + x) == a + x
  {
    RunesAfterAscii(a, x);
    assert (a + x)[0] == a[0] && LeadLength(a[0]) == 1 && FirstRune(a + x) == a[0] as int;
    assert TrimLeft(a + x) == a + x;
    TrimmedEnd(x);
    EndAfterPrefix(a, x);
  }

  lemma TrimmedEnd(x: string)
    requires TrimSpace(x) == x
    ensures TrimEnd(x) == |x|
  {
    assert |TrimLeft(x)| == |x|;
    TrimLeftSameLength(x);
  }

  lemma {:induction false} TrimLeftSameLength(s: string)
    ensures |TrimLeft(s)| == |s| ==> TrimLeft(s) == s
  {
  }

  lemma {:induction false} EndAfterPrefix(a: string, x: string)
    requires a != "" && Ascii(a) && !Space(a[|a| - 1] as int)
    requires TrimEnd(x) == |x|
    ensures TrimEnd(a + x) == |a + x|
  {
    var s := a + x;
    assert s[0] == a[0] && LeadLength(a[0]) == 1 && Width(s) == 1 && FirstRune(s) == a[0] as int;
    assert s[1..] == a[1..] + x;
    if |a| == 1 {
      assert s[1..] == x;
    } else {
      EndAfterPrefix(a[1..], x);
      assert !Blank(s[1..]);
    }
  }

  // ----- Canonical names.

  predicate Separator(r: int) { r == '-' as int || r == '_' as int || r == '.' as int || Space(r) }

  const UNDERSCORE := '_' as int

  function LowerRune(r: int): int { if 'A' as int <= r <= 'Z' as int then r + 32 else r }

  function Lower(rs: seq<int>): (out: seq<int>)
    ensures |out| == |rs|
  {
    seq(|rs|, i requires 0 <= i < |rs| => LowerRune(rs[i]))
  }

  /** The length of the run of non-separators at the front. */
  function WordLength(rs: seq<int>): (n: nat)
    ensures n <= |rs|
    ensures forall i :: 0 <= i < n ==> !Separator(rs[i])
    ensures n < |rs| ==> Separator(rs[n])
  {
    if rs == [] || Separator(rs[0]) then 0 else 1 + WordLength(rs[1..])
  }

  /** The pieces between separators, lower-cased, without the empty ones. */
  function Pieces(rs: seq<int>): (ps: seq<seq<int>>)
    decreases |rs|
  {
    if rs == [] then []
    else if Separator(rs[0]) then Pieces(rs[1..])
    else [Lower(rs[..WordLength(rs)])] + Pieces(rs[WordLength(rs)..])
  }

  function Join(ps: seq<seq<int>>): seq<int> {
    if ps == [] then []
    else if |ps| == 1 then ps[0]
    else ps[0] + [UNDERSCORE] + Join(ps[1..])
  }

  function CanonicalRunes(s: string): seq<int> { Join(Pieces(Runes(s))) }

  /** The canonical name: split at runs of separators, drop empty pieces, lower the ASCII
      letters, and join with underscores. */
  function Canonical(s: string): string {
    CanonicalScalars(Runes(s));
    Encode(CanonicalRunes(s))
  }

  /** A piece is a nonempty run of lower-cased scalars with no separator in it. */
  predicate Piece(p: seq<int>) {
    p != [] && Scalars(p) && Lower(p) == p && forall i :: 0 <= i < |p| ==> !Separator(p[i])
  }

  predicate AllPieces(ps: seq<seq<int>>) { forall i :: 0 <= i < |ps| ==> Piece(ps[i]) }

  lemma LowerIsPiece(rs: seq<int>)
    requires rs != [] && Scalars(rs) && forall i :: 0 <= i < |rs| ==> !Separator(rs[i])
    ensures Piece(Lower(rs))
  {
  }

  lemma {:induction false} PiecesArePieces(rs: seq<int>)
    requires Scalars(rs)
    ensures AllPieces(Pieces(rs))
    decreases |rs|
  {
    if rs != [] {
      if Separator(rs[0]) {
        PiecesArePieces(rs[1..]);
      } else {
        LowerIsPiece(rs[..WordLength(rs)]);
        PiecesArePieces(rs[WordLength(rs)..]);
      }
    }
  }

  lemma {:induction false} JoinScalars(ps: seq<seq<int>>)
    requires AllPieces(ps)
    ensures Scalars(Join(ps))
  {
    if |ps| > 1 { JoinScalars(ps[1..]); }
  }

  lemma CanonicalScalars(rs: seq<int>)
    requires Scalars(rs)
    ensures Scalars(Join(Pieces(rs)))
  {
    PiecesArePieces(rs);
    JoinScalars(Pieces(rs));
  }

  lemma WordPieces(w: seq<int>)
    requires Piece(w)
    ensures Pieces(w) == [w]
  {
    WordLengthIs(w, |w|);
    assert w[..|w|] == w && w[|w|..] == [];
  }

  /** Splitting what was joined gives the pieces back. */
  lemma {:induction false} PiecesOfJoin(ps: seq<seq<int>>)
    requires AllPieces(ps)
    ensures Pieces(Join(ps)) == ps
  {
    if |ps| == 1 {
      WordPieces(ps[0]);
    } else if |ps| > 1 {
      PiecesOfJoin(ps[1..]);
      PiecesOfSplit(ps[0], UNDERSCORE, Join(ps[1..]));
      WordPieces(ps[0]);
      assert [ps[0]] + ps[1..] == ps;
    }
  }

  /** Canonicalising is idempotent, and two names are canonically equal exactly when their
      pieces are the same. */
  lemma CanonicalLaws(a: string, b: string)
    ensures Canonical(Canonical(a)) == Canonical(a)
    ensures Canonical(a) == Canonical(b) <==> Pieces(Runes(a)) == Pieces(Runes(b))
    ensures Valid(Canonical(a))
  {
    CanonicalPieces(a);
    CanonicalPieces(b);
  }

  lemma CanonicalPieces(a: string)
    ensures Runes(Canonical(a)) == CanonicalRunes(a)
    ensures Pieces(Runes(Canonical(a))) == Pieces(Runes(a))
    ensures Valid(Canonical(a))
  {
    CanonicalScalars(Runes(a));
    RunesOfEncode(CanonicalRunes(a));
    PiecesArePieces(Runes(a));
    PiecesOfJoin(Pieces(Runes(a)));
  }

  // ----- The one-pass loop of the source.

  lemma {:induction false} PiecesOfSplit(a: seq<int>, sep: int, b: seq<int>)
    requires Separator(sep)
    ensures Pieces(a + [sep] + b) == Pieces(a) + Pieces(b)
    decreases |a|
  {
    var s := a + [sep] + b;
    if a == [] {
      assert s[1..] == b && Pieces(s) == Pieces(b);
    } else if Separator(a[0]) {
      assert s[1..] == a[1..] + [sep] + b;
      PiecesOfSplit(a[1..], sep, b);
    } else {
      var n := WordLength(a);
      WordLengthIs(s, n);
      assert s[..n] == a[..n];
      assert s[n..] == a[n..] + [sep] + b;
      PiecesOfSplit(a[n..], sep, b);
    }
  }

  lemma {:induction false} WordLengthIs(rs: seq<int>, n: nat)
    requires n <= |rs| && (forall i :: 0 <= i < n ==> !Separator(rs[i])) && (n < |rs| ==> Separator(rs[n]))
    ensures WordLength(rs) == n
  {
    if n > 0 { WordLengthIs(rs[1..], n - 1); }
  }

  /** A final separator adds no piece. */
  lemma PiecesThenSeparator(a: seq<int>, sep: int)
    requires Separator(sep)
    ensures Pieces(a + [sep]) == Pieces(a)
  {
    PiecesOfSplit(a, sep, []);
    assert a + [sep] + [] == a + [sep];
  }

  /** A final letter opens a piece after a separator, and extends the last piece otherwise. */
  lemma LetterAfterPiece(p: seq<int>, tail: seq<seq<int>>, x: int)
    ensures [p] + (tail + [[x]]) == [p] + tail + [[x]]
    ensures tail != [] ==>
              var ps := [p] + tail;
              && ps[|ps| - 1] == tail[|tail| - 1]
              && [p] + (tail[..|tail| - 1] + [tail[|tail| - 1] + [x]]) == ps[..|ps| - 1] + [ps[|ps| - 1] + [x]]
  {
  }

  lemma {:induction false} PiecesThenLetter(a: seq<int>, r: int)
    requires !Separator(r)
    ensures a == [] || Separator(a[|a| - 1]) ==> Pieces(a + [r]) == Pieces(a) + [[LowerRune(r)]]
    ensures a != [] && !Separator(a[|a| - 1]) ==>
              var ps := Pieces(a);
              ps != [] && Pieces(a + [r]) == ps[..|ps| - 1] + [ps[|ps| - 1] + [LowerRune(r)]]
    decreases |a|
  {
    var s := a + [r];
    if a == [] {
      WordLengthIs(s, 1);
      assert s[..1] == s && s[1..] == [] && Lower(s) == [LowerRune(r)];
    } else if Separator(a[0]) {
      assert s[1..] == a[1..] + [r];
      PiecesThenLetter(a[1..], r);
    } else {
      var n := WordLength(a);
      if n == |a| {
        WordLengthIs(s, |s|);
        assert s[..|s|] == s && a[..n] == a && a[n..] == [] && s[|s|..] == [];
        assert Lower(s) == Lower(a) + [LowerRune(r)];
      } else {
        WordLengthIs(s, n);
        assert s[..n] == a[..n] && s[n..] == a[n..] + [r];
        PiecesThenLetter(a[n..], r);
        LetterAfterPiece(Lower(a[..n]), Pieces(a[n..]), LowerRune(r));
      }
    }
  }

  lemma {:induction false} JoinSnoc(ps: seq<seq<int>>, p: seq<int>)
    ensures ps != [] ==> Join(ps + [p]) == Join(ps) + [UNDERSCORE] + p
    ensures ps == [] ==> Join(ps + [p]) == p
  {
    if |ps| > 1 {
      JoinSnoc(ps[1..], p);
      assert (ps + [p])[1..] == ps[1..] + [p];
    }
  }

  lemma {:induction false} JoinExtendLast(ps: seq<seq<int>>, tail: seq<int>)
    requires ps != []
    ensures Join(ps[..|ps| - 1] + [ps[|ps| - 1] + tail]) == Join(ps) + tail
  {
    var extended := ps[..|ps| - 1] + [ps[|ps| - 1] + tail];
    if |ps| > 1 {
      JoinExtendLast(ps[1..], tail);
      assert extended[1..] == ps[1..][..|ps| - 2] + [ps[|ps| - 1] + tail];
      var head := ps[0] + [UNDERSCORE];
      assert head + (Join(ps[1..]) + tail) == (head + Join(ps[1..])) + tail;
    }
  }

  /** What the loop has written after reading `done`: the joined pieces, and an underscore
      when a separator has been read since the last letter. */
  function Written(done: seq<int>): seq<int> {
    Join(Pieces(done)) +
    if done != [] && Separator(done[|done| - 1]) && Pieces(done) != [] then [UNDERSCORE] else []
  }

  predicate AfterSeparator(done: seq<int>) { done != [] && Separator(done[|done| - 1]) }

  lemma WrittenSeparator(done: seq<int>, r: int)
    requires Scalars(done) && Separator(r)
    ensures Written(done + [r]) == WriteRune(Written(done), AfterSeparator(done), r)
  {
    PiecesArePieces(done);
    var ps := Pieces(done);
    PiecesThenSeparator(done, r);
    if ps != [] { assert ps[0] != [] && Join(ps) != []; }
  }

  lemma LetterOpensPiece(done: seq<int>, r: int)
    requires !Separator(r) && (done == [] || AfterSeparator(done))
    ensures Written(done + [r]) == Written(done) + [LowerRune(r)]
  {
    PiecesThenLetter(done, r);
    JoinSnoc(Pieces(done), [LowerRune(r)]);
    assert (done + [r])[|done|] == r;
  }

  lemma LetterExtendsPiece(done: seq<int>, r: int)
    requires !Separator(r) && done != [] && !AfterSeparator(done)
    ensures Written(done + [r]) == Written(done) + [LowerRune(r)]
  {
    PiecesThenLetter(done, r);
    JoinExtendLast(Pieces(done), [LowerRune(r)]);
    assert (done + [r])[|done|] == r;
  }

  lemma WrittenLetter(done: seq<int>, r: int)
    requires Scalars(done) && Scalar(r) && !Separator(r)
    ensures Written(done + [r]) == WriteRune(Written(done), AfterSeparator(done), r)
  {
    if done == [] || AfterSeparator(done) { LetterOpensPiece(done, r); } else { LetterExtendsPiece(done, r); }
  }

  lemma WrittenStep(done: seq<int>, r: int)
    requires Scalars(done) && Scalar(r)
    ensures Written(done + [r]) == WriteRune(Written(done), AfterSeparator(done), r)
  {
    if Separator(r) { WrittenSeparator(done, r); } else { WrittenLetter(done, r); }
  }

  lemma {:induction false} JoinEndsInLetter(ps: seq<seq<int>>)
    requires ps != [] && AllPieces(ps)
    ensures Join(ps) != [] && Join(ps)[0] != UNDERSCORE && Join(ps)[|Join(ps)| - 1] != UNDERSCORE
  {
    if |ps| > 1 { JoinEndsInLetter(ps[1..]); }
    var last := ps[0][|ps[0]| - 1];
    assert !Separator(last);
  }

  /** Leading and trailing separators do not matter, so trimming first changes nothing. */
  lemma {:induction false} PiecesOfTrimLeft(s: string)
    ensures Pieces(Runes(TrimLeft(s))) == Pieces(Runes(s))
  {
    if s != "" && Space(FirstRune(s)) {
      PiecesOfTrimLeft(s[Width(s)..]);
      assert Runes(s)[1..] == Runes(s[Width(s)..]);
    }
  }

  lemma {:induction false} PiecesOfBlank(a: seq<int>, s: string)
    requires Blank(s)
    ensures Pieces(a + Runes(s)) == Pieces(a)
    decreases |s|
  {
    if s == "" {
      assert a + Runes(s) == a;
    } else {
      var r := FirstRune(s);
      PiecesOfBlank(a + [r], s[Width(s)..]);
      assert a + Runes(s) == a + [r] + Runes(s[Width(s)..]);
      PiecesThenSeparator(a, r);
    }
  }

  lemma {:induction false} TrimEndBlank(s: string)
    ensures Blank(s[TrimEnd(s)..])
  {
    if Blank(s) {
      assert s[0..] == s;
    } else {
      TrimEndBlank(s[Width(s)..]);
      assert s[TrimEnd(s)..] == s[Width(s)..][TrimEnd(s[Width(s)..])..];
    }
  }

  lemma TrimmingKeepsPieces(s: string)
    ensures Pieces(Runes(TrimSpace(s))) == Pieces(Runes(s))
    ensures Canonical(TrimSpace(s)) == Canonical(s)
  {
    var t := TrimLeft(s);
    var p := TrimEnd(t);
    PiecesOfTrimLeft(s);
    RunesOfCut(t, p);
    TrimEndBlank(t);
    PiecesOfBlank(Runes(t[..p]), t[p..]);
    assert Pieces(Runes(TrimSpace(s))) == Pieces(Runes(s));
  }

  /** One rune of the loop: what is written next, given what was written and whether the rune
      before was a separator. */
  function WriteRune(b: seq<int>, lastSep: bool, r: int): seq<int> {
    if !Separator(r) then b + [LowerRune(r)]
    else if !lastSep && |b| > 0 then b + [UNDERSCORE]
    else b
  }

  /** strings.Trim(b, "_") on what the loop has written: at most one underscore goes, and it
      is at the end. */
  lemma TrimWritten(done: seq<int>)
    requires Scalars(done)
    ensures var b := Written(done);
            && (b != [] ==> b[0] != UNDERSCORE)
            && (b != [] && b[|b| - 1] == UNDERSCORE ==> b[..|b| - 1] == Join(Pieces(done)))
            && (b == [] || b[|b| - 1] != UNDERSCORE ==> b == Join(Pieces(done)))
  {
    PiecesArePieces(done);
    if Pieces(done) != [] { JoinEndsInLetter(Pieces(done)); }
  }

  /** The loop of the source: one pass over the runes with a flag for the last separator. */
  method CanonicalName(name: string) returns (r: string)
    ensures r == Canonical(name)
  {
    var trimmed := TrimSpace(name);
    TrimmingKeepsPieces(name);
    var b := WriteRunes(trimmed);
    TrimWritten(Runes(trimmed));
    if |b| > 0 && b[|b| - 1] == UNDERSCORE { b := b[..|b| - 1]; }
    CanonicalScalars(Runes(trimmed));
    r := Encode(b);
  }

  lemma ReadRune(done: seq<int>, rest: string)
    requires rest != ""
    ensures done + Runes(rest) == (done + [FirstRune(rest)]) + Runes(rest[Width(rest)..])
  {
  }

  /** The state of the loop at byte i, after the runes of `done`. */
  ghost predicate Reading(trimmed: string, i: nat, done: seq<int>, b: seq<int>, lastSep: bool) {
    && i <= |trimmed| && done + Runes(trimmed[i..]) == Runes(trimmed)
    && Scalars(done) && b == Written(done) && lastSep == AfterSeparator(done)
  }

  lemma ReadingStep(trimmed: string, i: nat, done: seq<int>, b: seq<int>, lastSep: bool, rune: int, size: nat)
    requires Reading(trimmed, i, done, b, lastSep) && i < |trimmed|
    requires rune == FirstRune(trimmed[i..]) && size == Width(trimmed[i..])
    ensures 0 < size && i + size <= |trimmed|
    ensures Reading(trimmed, i + size, done + [rune], WriteRune(b, lastSep, rune), Separator(rune))
  {
    ReadRune(done, trimmed[i..]);
    assert trimmed[i..][size..] == trimmed[i + size..];
    WrittenStep(done, rune);
  }

  lemma ReadNothing(trimmed: string)
    ensures Reading(trimmed, 0, [], [], false)
  {
    assert trimmed[0..] == trimmed && [] + Runes(trimmed) == Runes(trimmed);
  }

  lemma ReadAll(trimmed: string, done: seq<int>, b: seq<int>, lastSep: bool)
    requires Reading(trimmed, |trimmed|, done, b, lastSep)
    ensures b == Written(Runes(trimmed))
  {
    assert trimmed[|trimmed|..] == "" && done + [] == done;
  }

  method WriteRunes(trimmed: string) returns (b: seq<int>)
    ensures b == Written(Runes(trimmed))
  {
    b := [];
    var lastSep := false;
    var i := 0;
    ghost var done: seq<int> := [];
    ReadNothing(trimmed);
    while i < |trimmed|
      invariant i <= |trimmed| && Reading(trimmed, i, done, b, lastSep)
    {
      var rest := trimmed[i..];
      var rune, size := FirstRune(rest), Width(rest);
      ReadingStep(trimmed, i, done, b, lastSep, rune, size);
      b := WriteRune(b, lastSep, rune);
      lastSep := Separator(rune);
      done := done + [rune];
      i := i + size;
    }
    ReadAll(trimmed, done, b, lastSep);
  }
}
