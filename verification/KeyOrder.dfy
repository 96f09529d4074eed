/** The order in which attribute names are visited: by canonical name, then by the name. */
module KeyOrder {
  import opened Names

  /** Go's `<` on strings: bytewise, a proper prefix first. */
  predicate LexLess(a: string, b: string) {
    b != "" && (a == "" || a[0] < b[0] || (a[0] == b[0] && LexLess(a[1..], b[1..])))
  }

  predicate KeyLess(a: string, b: string) {
    if Canonical(a) == Canonical(b) then LexLess(a, b) else LexLess(Canonical(a), Canonical(b))
  }

  /** The two agree before byte i, where the first ends or has the smaller byte. */
  predicate LessFrom(a: string, b: string, i: nat) {
    i <= |a| && i < |b| && a[..i] == b[..i] && (i == |a| || a[i] < b[i])
  }

  lemma LessFromNext(a: string, b: string, i: nat)
    requires a != "" && b != "" && a[0] == b[0]
    ensures LessFrom(a[1..], b[1..], i) <==> LessFrom(a, b, i + 1)
  {
    if i + 1 <= |a| && i + 1 <= |b| {
      assert a[..i + 1] == [a[0]] + a[1..][..i] && b[..i + 1] == [b[0]] + b[1..][..i];
      assert a[..i + 1][1..] == a[1..][..i] && b[..i + 1][1..] == b[1..][..i];
    }
  }

  lemma HeadAgrees(a: string, b: string, i: nat)
    requires LessFrom(a, b, i) && i > 0
    ensures a != "" && b != "" && a[0] == b[0]
  {
    assert a[..i][0] == a[0] && b[..i][0] == b[0];
  }

  /** One string is less than another exactly when there is such a byte. */
  lemma {:induction false} LexLessIff(a: string, b: string)
    ensures LexLess(a, b) <==> exists i: nat :: LessFrom(a, b, i)
  {
    forall i: nat | LessFrom(a, b, i) && i > 0 ensures a != "" && b != "" && a[0] == b[0] { HeadAgrees(a, b, i); }
    if a != "" && b != "" && a[0] == b[0] {
      LexLessIff(a[1..], b[1..]);
      if i: nat :| LessFrom(a[1..], b[1..], i) {
        LessFromNext(a, b, i);
      }
      if i: nat :| LessFrom(a, b, i) {
        assert i > 0;
        LessFromNext(a, b, i - 1);
      }
    } else {
      assert LexLess(a, b) ==> LessFrom(a, b, 0);
    }
  }

  lemma {:induction false} LexTotal(a: string, b: string)
    ensures a == b ==> !LexLess(a, b)
    ensures a != b ==> LexLess(a, b) != LexLess(b, a)
  {
    if a != "" && b != "" && a[0] == b[0] {
      LexTotal(a[1..], b[1..]);
      assert a == [a[0]] + a[1..] && b == [b[0]] + b[1..];
    }
  }

  lemma {:induction false} LexTransitive(a: string, b: string, c: string)
    requires LexLess(a, b) && LexLess(b, c)
    ensures LexLess(a, c)
  {
    if a != "" && a[0] == b[0] && b[0] == c[0] { LexTransitive(a[1..], b[1..], c[1..]); }
  }

  /** The sorting order is a strict total order on names. */
  lemma KeyLessTotal(a: string, b: string)
    ensures a == b ==> !KeyLess(a, b)
    ensures a != b ==> KeyLess(a, b) != KeyLess(b, a)
  {
    LexTotal(a, b);
    LexTotal(Canonical(a), Canonical(b));
  }

  lemma KeyLessTransitive(a: string, b: string, c: string)
    requires KeyLess(a, b) && KeyLess(b, c)
    ensures KeyLess(a, c)
  {
    var x, y, z := Canonical(a), Canonical(b), Canonical(c);
    LexTotal(x, y);
    LexTotal(y, z);
    LexTotal(x, z);
    if x != y && y != z { LexTransitive(x, y, z); }
    if x == y && y == z { LexTransitive(a, b, c); }
  }

  /** Every earlier element is less than every later one. */
  ghost predicate Ascending(ks: seq<string>, less: (string, string) -> bool) {
    forall i, j :: 0 <= i < j < |ks| ==> less(ks[i], ks[j])
  }

  ghost predicate Strict(less: (string, string) -> bool) {
    (forall a :: !less(a, a)) && forall a, b :: less(a, b) ==> !less(b, a)
  }

  lemma HeadFirst(a: seq<string>, less: (string, string) -> bool)
    requires Ascending(a, less) && Strict(less) && a != []
    ensures forall k :: k in a[1..] <==> k in a && k != a[0]
    ensures forall k :: k in a[1..] ==> less(a[0], k)
    ensures Ascending(a[1..], less)
  {
    forall k ensures k in a[1..] ==> k in a && less(a[0], k) {
      if k in a[1..] {
        var n :| 0 <= n < |a| - 1 && a[1..][n] == k;
        assert a[n + 1] == k;
      }
    }
    assert a == [a[0]] + a[1..];
  }

  lemma AscendingCons(h: string, t: seq<string>, less: (string, string) -> bool)
    requires Ascending(t, less) && forall k :: k in t ==> less(h, k)
    ensures Ascending([h] + t, less)
  {
  }

  /** There is at most one way to list a set in ascending order. */
  lemma {:induction false} AscendingUnique(a: seq<string>, b: seq<string>, less: (string, string) -> bool)
    requires Ascending(a, less) && Ascending(b, less) && Strict(less)
    requires forall k :: k in a <==> k in b
    ensures a == b
  {
    assert a == [] || a[0] in a;
    assert b == [] || b[0] in b;
    if a != [] && b != [] {
      HeadFirst(a, less);
      HeadFirst(b, less);
      assert a[0] == b[0];
      AscendingUnique(a[1..], b[1..], less);
      assert a == [a[0]] + a[1..] && b == [b[0]] + b[1..];
    }
  }

  /** ks lists the set in the sorting order. */
  ghost predicate InKeyOrder(ks: seq<string>, keys: set<string>) {
    Ascending(ks, KeyLess) && forall k :: k in ks <==> k in keys
  }

  lemma InKeyOrderUnique(a: seq<string>, b: seq<string>, keys: set<string>)
    requires InKeyOrder(a, keys) && InKeyOrder(b, keys)
    ensures a == b
  {
    KeyLessStrict();
    AscendingUnique(a, b, KeyLess);
  }

  lemma KeyLessStrict()
    ensures Strict(KeyLess)
  {
    forall x, y ensures !KeyLess(x, x) && (KeyLess(x, y) ==> !KeyLess(y, x)) {
      KeyLessTotal(x, x);
      KeyLessTotal(x, y);
    }
  }

  /** Puts a new name where the order wants it. */
  function Insert(ks: seq<string>, k: string): seq<string> {
    if ks == [] || KeyLess(k, ks[0]) then [k] + ks else [ks[0]] + Insert(ks[1..], k)
  }

  lemma {:induction false} InsertMembers(ks: seq<string>, k: string)
    ensures forall x :: x in Insert(ks, k) <==> x == k || x in ks
  {
    if ks != [] && !KeyLess(k, ks[0]) {
      InsertMembers(ks[1..], k);
      assert ks == [ks[0]] + ks[1..];
    }
  }

  lemma {:induction false} InsertKeepsOrder(ks: seq<string>, k: string)
    requires Ascending(ks, KeyLess) && k !in ks
    ensures Ascending(Insert(ks, k), KeyLess)
    ensures forall x :: x in Insert(ks, k) <==> x == k || x in ks
  {
    InsertMembers(ks, k);
    if ks != [] {
      KeyLessStrict();
      HeadFirst(ks, KeyLess);
      if KeyLess(k, ks[0]) {
        forall x | x in ks ensures KeyLess(k, x) {
          if x != ks[0] { KeyLessTransitive(k, ks[0], x); }
        }
        AscendingCons(k, ks, KeyLess);
      } else {
        KeyLessTotal(k, ks[0]);
        InsertKeepsOrder(ks[1..], k);
        AscendingCons(ks[0], Insert(ks[1..], k), KeyLess);
      }
    }
  }

  lemma {:induction false} OrderExists(keys: set<string>)
    ensures exists ks :: InKeyOrder(ks, keys)
  {
    if keys == {} {
      assert InKeyOrder([], keys);
    } else {
      var k :| k in keys;
      OrderExists(keys - {k});
      var ks :| InKeyOrder(ks, keys - {k});
      InsertKeepsOrder(ks, k);
      assert InKeyOrder(Insert(ks, k), keys);
    }
  }

  /** ks lists the set, each element once. */
  ghost predicate Lists(ks: seq<string>, keys: set<string>) {
    (forall k :: k in ks <==> k in keys) && forall i, j :: 0 <= i < j < |ks| ==> ks[i] != ks[j]
  }

  lemma InKeyOrderLists(ks: seq<string>, keys: set<string>)
    requires InKeyOrder(ks, keys)
    ensures Lists(ks, keys)
  {
    KeyLessStrict();
    forall i, j | 0 <= i < j < |ks| ensures ks[i] != ks[j] { assert KeyLess(ks[i], ks[j]); }
  }

  /** The set in the sorting order. */
  ghost function SortedKeys(keys: set<string>): (ks: seq<string>)
    ensures Lists(ks, keys)
  {
    OrderExists(keys);
    var ks :| InKeyOrder(ks, keys);
    InKeyOrderLists(ks, keys);
    ks
  }

  /** Sorting gives the same list whatever order the keys are read in. */
  method SortKeys(keys: set<string>) returns (ks: seq<string>)
    ensures ks == SortedKeys(keys)
  {
    ks := [];
    var rest := keys;
    while rest != {}
      invariant rest <= keys
      invariant InKeyOrder(ks, keys - rest)
      decreases rest
    {
      var k :| k in rest;
      InsertKeepsOrder(ks, k);
      ks := Insert(ks, k);
      rest := rest - {k};
    }
    InKeyOrderUnique(ks, SortedKeys(keys), keys);
  }
}
