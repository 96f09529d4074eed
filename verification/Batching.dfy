/** Splitting a queue into payloads: in order, under a count limit and a byte limit. */
module Batching {
  /** What the exporter looks at in an observation: whether it has an end time and the size of
      its encoding. `position` is its place in the order of acceptance. */
  datatype Observation = Observation(position: nat, ended: bool, size: nat)

  /** An observation that is to be sent, with its index in the queue. */
  datatype Queued = Queued(index: nat, observation: Observation)

  type Group = seq<Queued>

  datatype Limits = Limits(batchSize: int, maxBytes: int)

  const DEFAULT_BATCH_SIZE := 100

  /** `{"spans":[` and `]}` around the encodings. */
  const WRAPPER_BYTES := 12

  function BatchSize(lim: Limits): (n: int)
    ensures n > 0
  {
    if lim.batchSize <= 0 then DEFAULT_BATCH_SIZE else lim.batchSize
  }

  function SumSizes(group: Group): nat {
    if group == [] then 0 else SumSizes(group[..|group| - 1]) + group[|group| - 1].observation.size
  }

  /** The length of the compact JSON text of a payload: one comma between two encodings. */
  function PayloadSize(group: Group): nat {
    WRAPPER_BYTES + SumSizes(group) + if group == [] then 0 else |group| - 1
  }

  predicate Fits(lim: Limits, group: Group) { |group| <= BatchSize(lim) && PayloadSize(group) <= lim.maxBytes }

  predicate TooLarge(lim: Limits, item: Queued) { PayloadSize([item]) > lim.maxBytes }

  /** The items that can be sent at all. */
  function Sendable(lim: Limits, items: seq<Queued>): seq<Queued> {
    if items == [] then []
    else
      var last := items[|items| - 1];
      Sendable(lim, items[..|items| - 1]) + if TooLarge(lim, last) then [] else [last]
  }

  function Flatten<T>(groups: seq<seq<T>>): seq<T> {
    if groups == [] then [] else Flatten(groups[..|groups| - 1]) + groups[|groups| - 1]
  }

  /** Puts an item in the last group when it fits there, and otherwise in a new one. */
  function Place(lim: Limits, groups: seq<Group>, item: Queued): seq<Group> {
    var n := |groups| - 1;
    if n >= 0 && Fits(lim, groups[n] + [item]) then groups[..n] + [groups[n] + [item]] else groups + [[item]]
  }

  function Batches(lim: Limits, items: seq<Queued>): seq<Group> {
    if items == [] then [] else Place(lim, Batches(lim, items[..|items| - 1]), items[|items| - 1])
  }

  // ----- The text of a payload.

  /** Texts with a comma between two. */
  function Listed(texts: seq<string>): string {
    if texts == [] then ""
    else if |texts| == 1 then texts[0]
    else Listed(texts[..|texts| - 1]) + "," + texts[|texts| - 1]
  }

  /** The compact JSON text of a payload. */
  function PayloadText(texts: seq<string>): string { "{\"spans\":[" + Listed(texts) + "]}" }

  ghost predicate Encodes(texts: seq<string>, group: Group) {
    |texts| == |group| && forall i :: 0 <= i < |group| ==> |texts[i]| == group[i].observation.size
  }

  lemma {:induction false} ListedLength(texts: seq<string>, group: Group)
    requires Encodes(texts, group)
    ensures |Listed(texts)| == SumSizes(group) + if group == [] then 0 else |group| - 1
  {
    if group != [] {
      var n := |group| - 1;
      ListedLength(texts[..n], group[..n]);
      if n == 0 { assert texts[..0] == [] && Listed([]) == ""; }
    }
  }

  /** The size of a payload is the length of its text. */
  lemma PayloadSizeIsLength(texts: seq<string>, group: Group)
    requires Encodes(texts, group)
    ensures |PayloadText(texts)| == PayloadSize(group)
  {
    ListedLength(texts, group);
    assert |"{\"spans\":["| == 10 && |"]}"| == 2;
  }

  // ----- The loop of the source.

  lemma SumSnoc(group: Group, item: Queued)
    ensures SumSizes(group + [item]) == SumSizes(group) + item.observation.size
  {
    assert (group + [item])[..|group|] == group;
  }

  lemma FlattenSnoc<T>(groups: seq<seq<T>>, group: seq<T>)
    ensures Flatten(groups + [group]) == Flatten(groups) + group
  {
    assert (groups + [group])[..|groups|] == groups;
  }

  lemma BatchesSnoc(lim: Limits, items: seq<Queued>, item: Queued)
    ensures Batches(lim, items + [item]) == Place(lim, Batches(lim, items), item)
  {
    assert (items + [item])[..|items|] == items;
  }

  /** The indexes of the items that cannot be sent. */
  function Oversize(lim: Limits, items: seq<Queued>): set<nat> {
    set q | q in items && TooLarge(lim, q) :: q.index
  }

  function Closed(done: seq<Group>, current: Group): seq<Group> { if current == [] then done else done + [current] }

  /** The groups made of the first n items, the last one still open. */
  ghost predicate Made(lim: Limits, items: seq<Queued>, n: nat, done: seq<Group>, current: Group) {
    n <= |items| && (current == [] ==> done == [])
    && Closed(done, current) == Batches(lim, Sendable(lim, items[..n]))
  }

  lemma Skips(lim: Limits, items: seq<Queued>, n: nat, done: seq<Group>, current: Group)
    requires n < |items| && Made(lim, items, n, done, current) && TooLarge(lim, items[n])
    ensures Made(lim, items, n + 1, done, current)
    ensures |Sendable(lim, items[..n + 1])| == |Sendable(lim, items[..n])|
    ensures Oversize(lim, items[..n + 1]) == Oversize(lim, items[..n]) + {items[n].index}
  {
    assert items[..n + 1] == items[..n] + [items[n]];
    assert items[..n + 1][..n] == items[..n];
    assert Sendable(lim, items[..n + 1]) == Sendable(lim, items[..n]);
  }

  lemma Places(lim: Limits, items: seq<Queued>, n: nat, done: seq<Group>, current: Group)
    requires n < |items| && Made(lim, items, n, done, current) && !TooLarge(lim, items[n])
    ensures if current != [] && Fits(lim, current + [items[n]]) then Made(lim, items, n + 1, done, current + [items[n]])
            else Made(lim, items, n + 1, Closed(done, current), [items[n]])
    ensures |Sendable(lim, items[..n + 1])| == |Sendable(lim, items[..n])| + 1
    ensures Oversize(lim, items[..n + 1]) == Oversize(lim, items[..n])
  {
    assert items[..n + 1][..n] == items[..n];
    assert items[..n + 1] == items[..n] + [items[n]];
    var before := Sendable(lim, items[..n]);
    assert Sendable(lim, items[..n + 1]) == before + [items[n]];
    BatchesSnoc(lim, before, items[n]);
    if current != [] { assert (done + [current])[..|done|] == done; }
  }

  /** `errors` counts the items too large, one error each. */
  method SplitPayloadGroups(lim: Limits, items: seq<Queued>)
      returns (groups: seq<Group>, errors: nat, dropped: set<nat>)
    ensures groups == Batches(lim, Sendable(lim, items))
    ensures errors == |items| - |Sendable(lim, items)| && dropped == Oversize(lim, items)
  {
    var batchSize := if lim.batchSize <= 0 then DEFAULT_BATCH_SIZE else lim.batchSize;
    var done: seq<Group>, current: Group := [], [];
    errors, dropped := 0, {};
    for n := 0 to |items|
      invariant |current| <= batchSize && Made(lim, items, n, done, current)
      invariant errors == n - |Sendable(lim, items[..n])| && dropped == Oversize(lim, items[..n])
    {
      var item := items[n];
      if TooLarge(lim, item) { Skips(lim, items, n, done, current); } else { Places(lim, items, n, done, current); }
      if PayloadSize([item]) > lim.maxBytes {
        errors, dropped := errors + 1, dropped + {item.index};
      } else if |current| == 0 {
        current := [item];
      } else if |current| >= batchSize || PayloadSize(current + [item]) > lim.maxBytes {
        done, current := done + [current], [item];
      } else {
        current := current + [item];
      }
    }
    assert items[..|items|] == items;
    groups := if |current| > 0 then done + [current] else done;
  }

  // ----- Batching loses nothing, keeps order and keeps the limits.

  lemma PlaceConcatenates(lim: Limits, groups: seq<Group>, item: Queued)
    ensures Flatten(Place(lim, groups, item)) == Flatten(groups) + [item]
  {
    var n := |groups| - 1;
    if n >= 0 && Fits(lim, groups[n] + [item]) {
      FlattenSnoc(groups[..n], groups[n] + [item]);
      assert Flatten(groups[..n]) + (groups[n] + [item]) == Flatten(groups) + [item];
    } else {
      FlattenSnoc(groups, [item]);
    }
  }

  lemma {:induction false} BatchesConcatenate(lim: Limits, items: seq<Queued>)
    ensures Flatten(Batches(lim, items)) == items
  {
    if items != [] {
      var n := |items| - 1;
      BatchesConcatenate(lim, items[..n]);
      PlaceConcatenates(lim, Batches(lim, items[..n]), items[n]);
      assert items[..n] + [items[n]] == items;
    }
  }

  ghost predicate AllFit(lim: Limits, groups: seq<Group>) {
    forall g :: 0 <= g < |groups| ==> groups[g] != [] && Fits(lim, groups[g])
  }

  lemma {:induction false} BatchesFit(lim: Limits, items: seq<Queued>)
    requires forall k :: 0 <= k < |items| ==> !TooLarge(lim, items[k])
    ensures AllFit(lim, Batches(lim, items))
  {
    if items != [] { BatchesFit(lim, items[..|items| - 1]); }
  }

  lemma {:induction false} SendableFits(lim: Limits, items: seq<Queued>)
    ensures forall k :: 0 <= k < |Sendable(lim, items)| ==> !TooLarge(lim, Sendable(lim, items)[k])
    ensures forall q :: q in Sendable(lim, items) <==> q in items && !TooLarge(lim, q)
  {
    if items != [] {
      var n := |items| - 1;
      SendableFits(lim, items[..n]);
      assert items == items[..n] + [items[n]];
    }
  }

  // ----- Batching uses the fewest groups.

  /** Leaving items out at the front or at the end leaves a group under its limits. */
  lemma {:induction false} SubgroupFits(lim: Limits, group: Group, from: nat, to: nat)
    requires from <= to <= |group| && Fits(lim, group)
    ensures Fits(lim, group[from..to])
    decreases |group|
  {
    if to < |group| {
      var n := |group| - 1;
      SumSnoc(group[..n], group[n]);
      assert group[..n] + [group[n]] == group;
      SubgroupFits(lim, group[..n], from, to);
      assert group[..n][from..to] == group[from..to];
    } else {
      assert group[from..to] == group[from..];
      SumOfSuffix(group, from);
    }
  }

  lemma {:induction false} SumOfSuffix(group: Group, from: nat)
    requires from <= |group|
    ensures SumSizes(group[from..]) <= SumSizes(group)
  {
    if from < |group| {
      var n := |group| - 1;
      SumOfSuffix(group[..n], from);
      assert group[from..][..n - from] == group[..n][from..];
    } else {
      assert group[from..] == [];
    }
  }

  /** A split of the items under the limits; a group may even be empty. */
  ghost predicate Split(lim: Limits, groups: seq<Group>, items: seq<Queued>) {
    Flatten(groups) == items && forall g :: 0 <= g < |groups| ==> Fits(lim, groups[g])
  }

  function LastSize(groups: seq<Group>): nat { if groups == [] then 0 else |groups[|groups| - 1]| }

  /** `greedy` is ahead of `other`: fewer groups, or as many with a shorter last one. */
  ghost predicate Ahead(greedy: seq<Group>, other: seq<Group>) {
    |greedy| < |other| || (|greedy| == |other| && LastSize(greedy) <= LastSize(other))
  }

  /** Of two ways to end the same items, the shorter is a suffix of the longer. */
  lemma SuffixOfSame<T>(a: seq<T>, x: seq<T>, b: seq<T>, y: seq<T>)
    requires a + x == b + y && |x| <= |y|
    ensures x == y[|y| - |x|..]
  {
    forall k | 0 <= k < |x| ensures x[k] == y[|y| - |x| + k] {
      assert (a + x)[|a| + k] == (b + y)[|b| + |y| - |x| + k];
    }
  }

  /** One more item on both sides keeps the greedy side ahead. */
  lemma StaysAhead(lim: Limits, groups: seq<Group>, other: seq<Group>, last: Group, item: Queued)
    requires Flatten(groups) == Flatten(other + [last]) && Ahead(groups, other + [last]) && Fits(lim, last + [item])
    ensures Ahead(Place(lim, groups, item), other + [last + [item]])
  {
    if |groups| == |other| + 1 {
      var n := |groups| - 1;
      FlattenSnoc(other, last);
      SuffixOfSame(Flatten(groups[..n]), groups[n], Flatten(other), last);
      var cut := |last| - |groups[n]|;
      SubgroupFits(lim, last + [item], cut, |last| + 1);
      assert (last + [item])[cut..|last| + 1] == groups[n] + [item];
    }
  }

  /** A split of the items without the last one. */
  lemma WithoutLast(lim: Limits, items: seq<Queued>, init: seq<Group>, last: Group)
    requires Split(lim, init + [last], items) && last != []
    ensures items != []
    ensures var n, k := |items| - 1, |last| - 1;
            items[n] == last[k] && Split(lim, init + [last[..k]], items[..n])
  {
    var n, k := |items| - 1, |last| - 1;
    FlattenSnoc(init, last);
    FlattenSnoc(init, last[..k]);
    SubgroupFits(lim, last, 0, k);
  }

  lemma {:induction false} GreedyStaysAhead(lim: Limits, items: seq<Queued>, other: seq<Group>)
    requires Split(lim, other, items)
    ensures Ahead(Batches(lim, items), other)
    decreases |items|, |other|
  {
    if items == [] {
    } else {
      var m, n := |other| - 1, |items| - 1;
      var init, last := other[..m], other[m];
      if last == [] {
        GreedyStaysAhead(lim, items, init);
      } else {
        var k := |last| - 1;
        WithoutLast(lim, items, init, last);
        BatchesConcatenate(lim, items[..n]);
        GreedyStaysAhead(lim, items[..n], init + [last[..k]]);
        StaysAhead(lim, Batches(lim, items[..n]), init, last[..k], last[k]);
        assert init + [last] == other;
      }
    }
  }

  /** The batches of a queue are non-empty and under both limits, they concatenate to the
      queue without exactly the items too large alone, and no split of those items under the
      limits has fewer groups. */
  lemma BatchingCorrectAndOptimal(lim: Limits, items: seq<Queued>, other: seq<Group>)
    ensures var groups := Batches(lim, Sendable(lim, items));
            && (forall g :: 0 <= g < |groups| ==>
                  && 1 <= |groups[g]| <= (if lim.batchSize <= 0 then 100 else lim.batchSize)
                  && PayloadSize(groups[g]) <= lim.maxBytes)
            && Flatten(groups) == Sendable(lim, items)
            && (forall q :: q in Flatten(groups) <==> q in items && !TooLarge(lim, q))
            && (Split(lim, other, Sendable(lim, items)) ==> |groups| <= |other|)
  {
    SendableFits(lim, items);
    BatchesFit(lim, Sendable(lim, items));
    BatchesConcatenate(lim, Sendable(lim, items));
    if Split(lim, other, Sendable(lim, items)) { GreedyStaysAhead(lim, Sendable(lim, items), other); }
  }
}
