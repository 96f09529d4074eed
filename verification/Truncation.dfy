/** Cutting a string to a byte limit without splitting a rune. */
module Truncation {
  import opened Numbers
  import opened Utf8

  /** Where the cut falls: the end of the last whole rune that fits. */
  function CutAt(v: string, limit: int): (p: nat)
    ensures p <= |v|
  {
    if v == "" || limit < Width(v) then 0 else Width(v) + CutAt(v[Width(v)..], limit - Width(v))
  }

  function Truncated(v: string, limit: int): string { v[..CutAt(v, limit)] }

  /** The cut is a rune start within the limit, and no rune start within the limit is later. */
  lemma {:induction false} CutIsLongest(v: string, limit: int)
    ensures RuneStart(v, CutAt(v, limit))
    ensures CutAt(v, limit) == 0 || CutAt(v, limit) <= limit
    ensures forall q: nat :: RuneStart(v, q) && q <= limit ==> q <= CutAt(v, limit)
  {
    if v == "" || limit < Width(v) {
    } else {
      var w := Width(v);
      CutIsLongest(v[w..], limit - w);
      forall q: nat | RuneStart(v, q) && q <= limit
        ensures q <= CutAt(v, limit)
      {
        if q > 0 { assert RuneStart(v[w..], q - w); }
      }
    }
  }

  /** A string that fits is kept whole, and only such a string keeps its length. */
  lemma KeptWholeIffFits(v: string, limit: int)
    ensures |Truncated(v, limit)| == |v| <==> Truncated(v, limit) == v
    ensures Truncated(v, limit) == v <==> v == "" || |v| <= limit
  {
    CutIsLongest(v, limit);
    RuneStartAtEnd(v);
  }

  /** Every whole-rune prefix within the limit is a prefix of the result; the rest of the
      string keeps its reading; valid UTF-8 stays valid. */
  lemma TruncatedIsLongestPrefix(v: string, limit: int, p: nat)
    requires RuneStart(v, p) && p <= limit
    ensures p <= |v| && v[..p] <= Truncated(v, limit)
    ensures Runes(v) == Runes(Truncated(v, limit)) + Runes(v[CutAt(v, limit)..])
    ensures Valid(v) ==> Valid(Truncated(v, limit))
  {
    CutIsLongest(v, limit);
    RuneStartInside(v, p);
    RunesOfCut(v, CutAt(v, limit));
  }

  /** Two cuts in a row are one cut at the smaller limit. */
  lemma TruncateTwice(v: string, m: int, n: int)
    ensures Truncated(Truncated(v, m), n) == Truncated(v, Min(m, n))
  {
    var p, q := CutAt(v, m), CutAt(v, Min(m, n));
    CutIsLongest(v, m);
    CutIsLongest(v, Min(m, n));
    CutIsLongest(v[..p], n);
    var r := CutAt(v[..p], n);
    assert q <= p;
    RuneStartsOfCut(v, p, q);
    RuneStartsOfCut(v, p, r);
    assert r == q;
  }

  /** When no rune start but 0 is within the limit, the first rune is itself too long: the
      code's branch that would keep a first rune of fitting size is never taken. */
  lemma FallbackUnreachable(v: string, limit: int)
    requires 0 < limit < |v|
    ensures limit < Width(v) ==> forall q: nat :: 0 < q <= limit ==> !RuneStart(v, q)
    ensures Width(v) <= limit ==> exists q: nat :: 0 < q <= limit && RuneStart(v, q)
    ensures CutAt(v, limit) == 0 <==> limit < Width(v)
  {
    if Width(v) <= limit {
      var w: nat := Width(v);
      assert RuneStart(v[w..], w - w);
      assert 0 < w <= limit && RuneStart(v, w);
    } else {
      forall q: nat | 0 < q <= limit ensures !RuneStart(v, q) { assert q < Width(v); }
    }
  }

  /** The cut seen from position p of the string. */
  function CutFrom(v: string, limit: int, p: nat): nat
    requires p <= |v|
  {
    p + CutAt(v[p..], limit - p)
  }

  /** Moving over a rune that fits leaves the cut where it is; a rune that does not fit is
      where the cut falls. */
  lemma CutFromStep(v: string, limit: int, p: nat)
    requires p < |v|
    ensures var next := p + Width(v[p..]);
            && next <= |v|
            && (next <= limit ==> CutFrom(v, limit, next) == CutFrom(v, limit, p))
            && (limit < next ==> CutFrom(v, limit, p) == p)
  {
    assert v[p..][Width(v[p..])..] == v[p + Width(v[p..])..];
  }

  /** The loop of the source, over the positions at which runes start. */
  method TruncateUtf8(value: string, limit: int) returns (r: string)
    ensures r == Truncated(value, limit)
  {
    KeptWholeIffFits(value, limit);
    if limit <= 0 { return ""; }
    if |value| <= limit { return value; }
    var last: nat, i: nat := 0, 0;
    assert value[0..] == value;
    while i < |value| && i <= limit
      invariant i <= |value| && last < |value| && last <= limit
      invariant CutFrom(value, limit, last) == CutAt(value, limit)
      invariant (i == 0 && last == 0) || i == last + Width(value[last..])
    {
      if i > 0 { CutFromStep(value, limit, last); }
      last := i;
      i := i + Width(value[i..]);
    }
    // The positions ran past the limit: the rune at `last` does not fit.
    CutFromStep(value, limit, last);
    if last == 0 {
      assert limit < Width(value);  // see FallbackUnreachable
      return "";
    }
    return value[..last];
  }
}
