/** How Go reads a string as runes.

    A Go string is a sequence of bytes. Here it is a Dafny `string` in which every
    character stands for one byte; a character above 255, which no Go string holds, counts
    as an invalid byte, so every statement below is about at least the Go strings.
    The byte ranges are those of RFC 3629, section 4. */
module Utf8 {

  const RUNE_ERROR := 0xFFFD

  predicate Within(c: char, low: int, high: int) { low <= c as int <= high }

  predicate Continuation(c: char) { Within(c, 0x80, 0xBF) }

  /** A Unicode scalar value: a code point that is not a surrogate. */
  predicate Scalar(r: int) { 0 <= r <= 0x10FFFF && !(0xD800 <= r <= 0xDFFF) }

  /** The length a lead byte announces, 0 for a byte that cannot lead. */
  function LeadLength(c: char): (n: nat)
    ensures n <= 4
  {
    if Within(c, 0x00, 0x7F) then 1
    else if Within(c, 0xC2, 0xDF) then 2
    else if Within(c, 0xE0, 0xEF) then 3
    else if Within(c, 0xF0, 0xF4) then 4
    else 0
  }

  /** The second byte is what excludes overlong forms, surrogates and values above 10FFFF. */
  predicate SecondByte(lead: char, c: char) {
    if lead as int == 0xE0 then Within(c, 0xA0, 0xBF)
    else if lead as int == 0xED then Within(c, 0x80, 0x9F)
    else if lead as int == 0xF0 then Within(c, 0x90, 0xBF)
    else if lead as int == 0xF4 then Within(c, 0x80, 0x8F)
    else Continuation(c)
  }

  predicate StartsWellFormed(s: string)
    requires s != ""
  {
    var n := LeadLength(s[0]);
    && 1 <= n <= |s|
    && (n >= 2 ==> SecondByte(s[0], s[1]))
    && (n >= 3 ==> Continuation(s[2]))
    && (n >= 4 ==> Continuation(s[3]))
  }

  /** How many bytes the first rune takes; an invalid byte is a rune of one byte. */
  function Width(s: string): (n: nat)
    requires s != ""
    ensures 1 <= n <= 4 && n <= |s|
  {
    if StartsWellFormed(s) then LeadLength(s[0]) else 1
  }

  /** The first rune; an invalid byte reads as the replacement character. */
  function FirstRune(s: string): (r: int)
    requires s != ""
    ensures Scalar(r)
  {
    if !StartsWellFormed(s) then RUNE_ERROR
    else
      var b := s[0] as int;
      match LeadLength(s[0])
      case 1 => b
      case 2 => (b - 0xC0) * 64 + (s[1] as int - 0x80)
      case 3 => (b - 0xE0) * 4096 + (s[1] as int - 0x80) * 64 + (s[2] as int - 0x80)
      case _ => (b - 0xF0) * 262144 + (s[1] as int - 0x80) * 4096
                + (s[2] as int - 0x80) * 64 + (s[3] as int - 0x80)
  }

  /** The runes a `for range` over the string visits. */
  function Runes(s: string): (rs: seq<int>)
    ensures |rs| <= |s|
    ensures s == "" <==> rs == []
    ensures forall i :: 0 <= i < |rs| ==> Scalar(rs[i])
  {
    if s == "" then [] else [FirstRune(s)] + Runes(s[Width(s)..])
  }

  /** Valid UTF-8: no byte is read as invalid. */
  predicate Valid(s: string) {
    s == "" || (StartsWellFormed(s) && Valid(s[Width(s)..]))
  }

  /** p is a position at which some rune of s starts, or the end of s. */
  predicate RuneStart(s: string, p: nat) {
    p == 0 || (s != "" && Width(s) <= p && RuneStart(s[Width(s)..], p - Width(s)))
  }

  function EncodeRune(r: int): (s: string)
    requires Scalar(r)
    ensures 1 <= |s| <= 4
  {
    if r < 0x80 then [r as char]
    else if r < 0x800 then [(0xC0 + r / 64) as char, (0x80 + r % 64) as char]
    else if r < 0x10000 then
      [(0xE0 + r / 4096) as char, (0x80 + r / 64 % 64) as char, (0x80 + r % 64) as char]
    else
      [(0xF0 + r / 262144) as char, (0x80 + r / 4096 % 64) as char,
       (0x80 + r / 64 % 64) as char, (0x80 + r % 64) as char]
  }

  predicate Scalars(rs: seq<int>) { forall i :: 0 <= i < |rs| ==> Scalar(rs[i]) }

  function Encode(rs: seq<int>): string
    requires Scalars(rs)
  {
    if rs == [] then "" else EncodeRune(rs[0]) + Encode(rs[1..])
  }

  // ----- Encoding and decoding undo each other.

  /** The three continuation digits of a rune, base 64. */
  lemma Digits(r: int)
    requires 0 <= r
    ensures r == r / 64 * 64 + r % 64
    ensures r == r / 4096 * 4096 + r / 64 % 64 * 64 + r % 64
    ensures r == r / 262144 * 262144 + r / 4096 % 64 * 4096 + r / 64 % 64 * 64 + r % 64
  {
    var a, b := r / 64, r / 4096;
    assert b == a / 64 && r / 262144 == b / 64;
  }

  lemma DecodeFour(r: int, rest: string)
    requires 0x10000 <= r && Scalar(r)
    ensures StartsWellFormed(EncodeRune(r) + rest)
    ensures Width(EncodeRune(r) + rest) == 4
    ensures FirstRune(EncodeRune(r) + rest) == r
  {
    var e := EncodeRune(r);
    var s := e + rest;
    assert s[0] == e[0] && s[1] == e[1] && s[2] == e[2] && s[3] == e[3];
    Digits(r);
    var d0, d1 := r / 262144, r / 4096 % 64;
    assert 0 <= d0 <= 4 && (d0 == 0 ==> d1 >= 16) && (d0 == 4 ==> d1 <= 15);
  }

  lemma DecodeThree(r: int, rest: string)
    requires 0x800 <= r < 0x10000 && Scalar(r)
    ensures StartsWellFormed(EncodeRune(r) + rest)
    ensures Width(EncodeRune(r) + rest) == 3
    ensures FirstRune(EncodeRune(r) + rest) == r
  {
    var e := EncodeRune(r);
    var s := e + rest;
    assert s[0] == e[0] && s[1] == e[1] && s[2] == e[2];
    Digits(r);
    var d0, d1 := r / 4096, r / 64 % 64;
    assert 0 <= d0 <= 15 && (d0 == 0 ==> d1 >= 32) && (d0 == 13 ==> d1 <= 31);
  }

  /** A rune written first is the rune read first, whatever follows it. */
  lemma DecodeEncoded(r: int, rest: string)
    requires Scalar(r)
    ensures StartsWellFormed(EncodeRune(r) + rest)
    ensures Width(EncodeRune(r) + rest) == |EncodeRune(r)|
    ensures FirstRune(EncodeRune(r) + rest) == r
  {
    if r >= 0x10000 {
      DecodeFour(r, rest);
    } else if r >= 0x800 {
      DecodeThree(r, rest);
    } else {
      var e := EncodeRune(r);
      var s := e + rest;
      assert s[0] == e[0] && (|e| == 2 ==> s[1] == e[1]);
      Digits(r);
    }
  }

  lemma {:induction false} RunesOfEncode(rs: seq<int>)
    requires Scalars(rs)
    ensures Runes(Encode(rs)) == rs
    ensures Valid(Encode(rs))
  {
    if rs != [] {
      DecodeEncoded(rs[0], Encode(rs[1..]));
      RunesOfEncode(rs[1..]);
      assert Encode(rs)[|EncodeRune(rs[0])|..] == Encode(rs[1..]);
    }
  }

  lemma EncodeThree(s: string)
    requires s != "" && StartsWellFormed(s) && LeadLength(s[0]) == 3
    ensures EncodeRune(FirstRune(s)) == s[..Width(s)]
  {
    assert FirstRune(s) / 64 == (s[0] as int - 0xE0) * 64 + (s[1] as int - 0x80);
  }

  lemma DigitsOf(r: int, d0: int, d1: int, d2: int, d3: int)
    requires r == d0 * 262144 + d1 * 4096 + d2 * 64 + d3 && 0 <= d1 < 64 && 0 <= d2 < 64 && 0 <= d3 < 64
    ensures r / 262144 == d0 && r / 4096 % 64 == d1 && r / 64 % 64 == d2 && r % 64 == d3
  {
    assert r / 64 == d0 * 4096 + d1 * 64 + d2;
    assert r / 4096 == d0 * 64 + d1;
  }

  lemma EncodeFour(s: string)
    requires s != "" && StartsWellFormed(s) && LeadLength(s[0]) == 4
    ensures EncodeRune(FirstRune(s)) == s[..Width(s)]
  {
    DigitsOf(FirstRune(s), s[0] as int - 0xF0, s[1] as int - 0x80, s[2] as int - 0x80, s[3] as int - 0x80);
  }

  lemma EncodeDecoded(s: string)
    requires s != "" && StartsWellFormed(s)
    ensures EncodeRune(FirstRune(s)) == s[..Width(s)]
  {
    if LeadLength(s[0]) == 3 { EncodeThree(s); } else if LeadLength(s[0]) == 4 { EncodeFour(s); }
  }

  /** The string begins with the encoding of r. */
  predicate BeginsWith(s: string, r: int) { Scalar(r) && EncodeRune(r) <= s }

  /** A rune is read where the encoding of one begins, and what does not begin one is read as U+FFFD, a
      byte at a time. */
  lemma FirstRuneIff(s: string)
    requires s != ""
    ensures StartsWellFormed(s) <==> exists r :: BeginsWith(s, r)
    ensures forall r :: BeginsWith(s, r) ==> FirstRune(s) == r && Width(s) == |EncodeRune(r)|
    ensures (forall r :: !BeginsWith(s, r)) ==> FirstRune(s) == 0xFFFD && Width(s) == 1
  {
    if StartsWellFormed(s) {
      EncodeDecoded(s);
      assert BeginsWith(s, FirstRune(s));
    }
    forall r | BeginsWith(s, r)
      ensures StartsWellFormed(s) && FirstRune(s) == r && Width(s) == |EncodeRune(r)|
    {
      DecodeEncoded(r, s[|EncodeRune(r)|..]);
      assert s == EncodeRune(r) + s[|EncodeRune(r)|..];
    }
  }

  lemma Rejoined(s: string, w: nat)
    requires w <= |s|
    ensures s[..w] + s[w..] == s
  {
  }

  lemma EncodeStep(rs: seq<int>, first: int, rest: seq<int>)
    requires Scalars(rs) && rs == [first] + rest
    ensures Scalar(first) && Scalars(rest) && Encode(rs) == EncodeRune(first) + Encode(rest)
  {
    assert rs[0] == first && rs[1..] == rest;
  }

  /** Valid UTF-8 and lists of scalar values correspond one to one. */
  lemma {:induction false} EncodeOfRunes(s: string)
    requires Valid(s)
    ensures Encode(Runes(s)) == s
  {
    if s != "" {
      EncodeDecoded(s);
      EncodeOfRunes(s[Width(s)..]);
      RunesStep(s);
      EncodeStep(Runes(s), FirstRune(s), Runes(s[Width(s)..]));
      Rejoined(s, Width(s));
    }
  }

  // ----- Cutting a string at the start of a rune.

  /** Cutting at a rune start does not change how the first rune reads, even when the bytes
      on either side of the cut are invalid. */
  lemma CutKeepsFirst(s: string, p: nat)
    requires s != "" && RuneStart(s, p) && p > 0
    ensures p <= |s| && s[..p] != ""
    ensures StartsWellFormed(s[..p]) == StartsWellFormed(s)
    ensures Width(s[..p]) == Width(s) && FirstRune(s[..p]) == FirstRune(s)
  {
    RuneStartInside(s, p);
  }

  lemma {:induction false} RuneStartInside(s: string, p: nat)
    requires RuneStart(s, p)
    ensures p <= |s|
  {
    if p > 0 { RuneStartInside(s[Width(s)..], p - Width(s)); }
  }

  lemma {:induction false} RuneStartAtEnd(s: string)
    ensures RuneStart(s, |s|)
  {
    if s != "" { RuneStartAtEnd(s[Width(s)..]); }
  }

  lemma {:induction false} ValidityOfCut(s: string, p: nat)
    requires RuneStart(s, p) && p <= |s|
    ensures Valid(s) == (Valid(s[..p]) && Valid(s[p..]))
  {
    if p == 0 {
      assert s[p..] == s;
    } else {
      var w := Width(s);
      CutKeepsFirst(s, p);
      ValidityOfCut(s[w..], p - w);
      assert s[..p][w..] == s[w..][..p - w] && s[w..][p - w..] == s[p..];
    }
  }

  lemma Slices(s: string, w: nat, p: nat)
    requires w <= p <= |s|
    ensures s[..p][w..] == s[w..][..p - w] && s[w..][p - w..] == s[p..]
  {
  }

  /** The runes of a prefix that ends at a rune start. */
  lemma RunesOfPrefix(s: string, p: nat)
    requires s != "" && RuneStart(s, p) && 0 < p <= |s|
    ensures Width(s) <= p && Runes(s[..p]) == [FirstRune(s)] + Runes(s[Width(s)..][..p - Width(s)])
  {
    CutKeepsFirst(s, p);
    Slices(s, Width(s), p);
  }

  lemma Regroup(whole: seq<int>, prefix: seq<int>, first: seq<int>, a: seq<int>, b: seq<int>)
    requires whole == first + (a + b) && prefix == first + a
    ensures whole == prefix + b
  {
  }

  lemma RunesStep(s: string)
    requires s != ""
    ensures Runes(s) == [FirstRune(s)] + Runes(s[Width(s)..])
  {
  }

  /** The runes of a cut, from those of the same cut after the first rune. */
  lemma CutAfterFirst(s: string, p: nat, first: int, rest: string)
    requires s != "" && RuneStart(s, p) && 0 < p <= |s| && Width(s) <= p
    requires first == FirstRune(s) && rest == s[Width(s)..]
    requires Runes(rest) == Runes(rest[..p - Width(s)]) + Runes(s[p..])
    ensures Runes(s) == Runes(s[..p]) + Runes(s[p..])
  {
    RunesOfPrefix(s, p);
    RunesStep(s);
    Regroup(Runes(s), Runes(s[..p]), [first], Runes(rest[..p - Width(s)]), Runes(s[p..]));
  }

  lemma CutAtStart(s: string)
    ensures Runes(s) == Runes(s[..0]) + Runes(s[0..])
  {
    assert s[..0] == "" && s[0..] == s;
    assert Runes("") == [] && [] + Runes(s) == Runes(s);
  }

  lemma {:induction false} CutRunes(s: string, p: nat)
    requires RuneStart(s, p) && p <= |s|
    ensures Runes(s) == Runes(s[..p]) + Runes(s[p..])
  {
    if p == 0 {
      CutAtStart(s);
    } else {
      var w := Width(s);
      CutRunes(s[w..], p - w);
      Slices(s, w, p);
      CutAfterFirst(s, p, FirstRune(s), s[w..]);
    }
  }

  /** A cut at a rune start splits the runes, and validity, into those of the two parts. */
  lemma RunesOfCut(s: string, p: nat)
    requires RuneStart(s, p)
    ensures p <= |s|
    ensures Runes(s) == Runes(s[..p]) + Runes(s[p..])
    ensures Valid(s) == (Valid(s[..p]) && Valid(s[p..]))
  {
    RuneStartInside(s, p);
    CutRunes(s, p);
    ValidityOfCut(s, p);
  }

  /** The rune starts of a prefix cut at a rune start are those of the whole string. */
  lemma {:induction false} RuneStartsOfCut(s: string, p: nat, q: nat)
    requires RuneStart(s, p) && q <= p
    ensures p <= |s| && RuneStart(s[..p], q) == RuneStart(s, q)
  {
    RuneStartInside(s, p);
    if q > 0 {
      var w := Width(s);
      CutKeepsFirst(s, p);
      if w <= q {
        Slices(s, w, p);
        RuneStartsOfCut(s[w..], p - w, q - w);
      }
    }
  }

  // ----- ASCII.

  predicate Ascii(s: string) { forall i :: 0 <= i < |s| ==> Within(s[i], 0x00, 0x7F) }

  function Codes(s: string): (rs: seq<int>) { seq(|s|, i requires 0 <= i < |s| => s[i] as int) }

  lemma FirstIsAscii(s: string)
    requires s != "" && Within(s[0], 0x00, 0x7F)
    ensures Width(s) == 1 && FirstRune(s) == s[0] as int
  {
  }

  lemma HeadAndTail(a: string, rest: string)
    requires a != "" && Ascii(a)
    ensures (a + rest)[0] == a[0] && (a + rest)[1..] == a[1..] + rest && Within(a[0], 0x00, 0x7F)
    ensures Codes(a) == [a[0] as int] + Codes(a[1..])
  {
  }

  lemma {:induction false} StartAfterAscii(a: string, rest: string)
    requires Ascii(a)
    ensures RuneStart(a + rest, |a|)
  {
    if a != "" {
      HeadAndTail(a, rest);
      FirstIsAscii(a + rest);
      StartAfterAscii(a[1..], rest);
    }
  }

  lemma {:induction false} AsciiCodes(a: string, rest: string)
    requires Ascii(a)
    ensures Runes(a + rest) == Codes(a) + Runes(rest)
  {
    if a == "" {
      assert a + rest == rest && Codes(a) == [];
    } else {
      HeadAndTail(a, rest);
      FirstIsAscii(a + rest);
      RunesStep(a + rest);
      AsciiCodes(a[1..], rest);
      Regroup(Runes(a + rest), Codes(a), [a[0] as int], Codes(a[1..]), Runes(rest));
    }
  }

  /** ASCII bytes are runes of their own, whatever bytes follow them. */
  lemma RunesAfterAscii(a: string, rest: string)
    requires Ascii(a)
    ensures Runes(a + rest) == Codes(a) + Runes(rest)
    ensures RuneStart(a + rest, |a|)
  {
    AsciiCodes(a, rest);
    StartAfterAscii(a, rest);
  }

  lemma {:induction false} EncodeCodes(s: string)
    requires Ascii(s)
    ensures Scalars(Codes(s)) && Encode(Codes(s)) == s
  {
    if s != "" {
      EncodeCodes(s[1..]);
      assert Codes(s) == [s[0] as int] + Codes(s[1..]);
    }
  }

  lemma {:induction false} EncodeAppend(a: seq<int>, b: seq<int>)
    requires Scalars(a) && Scalars(b)
    ensures Scalars(a + b) && Encode(a + b) == Encode(a) + Encode(b)
  {
    if a == [] {
      assert a + b == b;
    } else {
      EncodeAppend(a[1..], b);
      assert (a + b)[0] == a[0] && (a + b)[1..] == a[1..] + b;
      assert EncodeRune(a[0]) + (Encode(a[1..]) + Encode(b)) == (EncodeRune(a[0]) + Encode(a[1..])) + Encode(b);
    }
  }
}
