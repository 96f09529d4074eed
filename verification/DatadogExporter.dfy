/** The Datadog exporter as an object: its queue is compacted in place in the array that holds
    it, and every call is proved to do what Datadog says. */
module DatadogExporter {
  import opened Model
  import opened Redaction
  import opened Batching
  import opened Retry
  import opened Datadog
  import DatadogRuns

  // ----- Compaction.

  /** The observations whose index is not in `gone`. */
  function Remaining(pending: seq<Observation>, gone: set<nat>): seq<Observation> {
    if pending == [] then []
    else
      var n := |pending| - 1;
      Remaining(pending[..n], gone) + if n in gone then [] else [pending[n]]
  }

  method CompactPending(buf: array<Observation>, n: nat, skipped: set<nat>, delivered: set<nat>) returns (m: nat)
    requires n <= buf.Length
    modifies buf
    ensures m <= n && buf[..m] == Remaining(old(buf[..n]), skipped + delivered)
    ensures forall k :: m <= k < buf.Length ==> buf[k] == old(buf[k])
  {
    m := 0;
    ghost var was := buf[..n];
    for i := 0 to n
      invariant m <= i && buf[..m] == Remaining(was[..i], skipped + delivered)
      invariant forall k :: m <= k < buf.Length ==> buf[k] == old(buf[k])
    {
      assert was[..i + 1][..i] == was[..i];
      var observation := buf[i];
      if i !in skipped && i !in delivered {
        buf[m] := observation;
        m := m + 1;
      }
    }
    assert was[..n] == was;
  }

  function Indexes(group: Group): set<nat> { set q | q in group :: q.index }

  /** The indexes of the observations that have no end time or are too large alone. */
  function Unsendable(cfg: Config, pending: seq<Observation>): set<nat> {
    set i: nat | i < |pending| && !CanBeSent(cfg, pending[i])
  }

  lemma {:induction false} PreparedMembers(pending: seq<Observation>, q: Queued)
    ensures q in Prepared(pending)
       <==> q.index < |pending| && q.observation == pending[q.index] && pending[q.index].ended
  {
    if pending != [] { PreparedMembers(pending[..|pending| - 1], q); }
  }

  lemma TooLargeAnyIndex(lim: Limits, o: Observation, i: nat, j: nat)
    ensures TooLarge(lim, Queued(i, o)) == TooLarge(lim, Queued(j, o))
  {
    assert SumSizes([Queued(i, o)]) == SumSizes([Queued(j, o)]);
  }

  lemma OversizeHas(cfg: Config, pending: seq<Observation>, i: nat)
    ensures i in Oversize(cfg.limits, Prepared(pending))
       <==> i < |pending| && pending[i].ended && !CanBeSent(cfg, pending[i])
  {
    var items := Prepared(pending);
    if i < |pending| {
      var q := Queued(i, pending[i]);
      PreparedMembers(pending, q);
      TooLargeAnyIndex(cfg.limits, pending[i], i, 0);
      assert q in items && TooLarge(cfg.limits, q) ==> q.index in Oversize(cfg.limits, items);
    }
    forall q | q in items ensures q.index < |pending| && q.observation == pending[q.index] && pending[q.index].ended {
      PreparedMembers(pending, q);
    }
  }

  lemma UnsendableSplits(cfg: Config, pending: seq<Observation>, noEnd: set<nat>)
    requires forall i: nat :: i in noEnd <==> i < |pending| && !pending[i].ended
    ensures noEnd + Oversize(cfg.limits, Prepared(pending)) == Unsendable(cfg, pending)
  {
    forall i: nat ensures i in noEnd + Oversize(cfg.limits, Prepared(pending)) <==> i in Unsendable(cfg, pending) {
      OversizeHas(cfg, pending, i);
    }
  }

  /** What is gone: what cannot be sent, and what was delivered. */
  ghost predicate GoneIs(cfg: Config, pending: seq<Observation>, delivered: Group, gone: set<nat>) {
    forall i: nat :: i < |pending| ==> (i in gone <==> !CanBeSent(cfg, pending[i]) || i in Indexes(delivered))
  }

  /** The last observation cannot be sent. */
  lemma LastUnsendable(cfg: Config, pending: seq<Observation>, delivered: Group, gone: set<nat>, n: nat)
    requires |pending| == n + 1 && !CanBeSent(cfg, pending[n]) && GoneIs(cfg, pending, delivered, gone)
    ensures ToSend(cfg, pending) == ToSend(cfg, pending[..n])
    ensures GoneIs(cfg, pending[..n], delivered, gone) && n in gone
  {
    ToSendSnoc(cfg, pending);
  }

  /** The last observation was delivered, and so were all others that can be sent. */
  lemma LastTaken(cfg: Config, pending: seq<Observation>, delivered: Group, gone: set<nat>, n: nat)
    requires |pending| == n + 1 && CanBeSent(cfg, pending[n]) && GoneIs(cfg, pending, delivered, gone)
    requires delivered == ToSend(cfg, pending)
    ensures GoneIs(cfg, pending[..n], ToSend(cfg, pending[..n]), gone) && n in gone
  {
    var init, q := ToSend(cfg, pending[..n]), Queued(n, pending[n]);
    ToSendSnoc(cfg, pending);
    assert forall p :: p in delivered <==> p in init || p == q;
    assert q in delivered;
    forall i: nat | i < n ensures i in Indexes(delivered) <==> i in Indexes(init) {
      assert forall p :: p in delivered && p.index == i ==> p in init;
    }
  }

  /** The last observation is left. */
  lemma LastLeft(cfg: Config, pending: seq<Observation>, delivered: Group, rest: Group, gone: set<nat>, n: nat)
    requires |pending| == n + 1 && CanBeSent(cfg, pending[n]) && GoneIs(cfg, pending, delivered, gone)
    requires rest != [] && delivered + rest == ToSend(cfg, pending)
    ensures var before := rest[..|rest| - 1];
            && delivered + before == ToSend(cfg, pending[..n]) && rest == before + [Queued(n, pending[n])]
            && GoneIs(cfg, pending[..n], delivered, gone) && n !in gone
  {
    var init, q, before := ToSend(cfg, pending[..n]), Queued(n, pending[n]), rest[..|rest| - 1];
    ToSendSnoc(cfg, pending);
    SplitOff(delivered, rest, init, q);
    IndexesBelow(cfg, pending[..n]);
    assert forall p :: p in delivered ==> p in delivered + before;
  }

  lemma SplitOff(delivered: Group, rest: Group, init: Group, q: Queued)
    requires rest != [] && delivered + rest == init + [q]
    ensures delivered + rest[..|rest| - 1] == init && rest == rest[..|rest| - 1] + [q]
  {
    var before := rest[..|rest| - 1];
    assert (delivered + rest)[..|delivered + rest| - 1] == delivered + before;
    assert (init + [q])[..|init|] == init;
    assert (delivered + rest)[|delivered + rest| - 1] == rest[|rest| - 1];
  }

  lemma RemainingSnoc(pending: seq<Observation>, gone: set<nat>, n: nat)
    requires |pending| == n + 1
    ensures Remaining(pending, gone) == Remaining(pending[..n], gone) + if n in gone then [] else [pending[n]]
  {
  }

  /** Removing by index what was delivered and what cannot be sent leaves the rest of what can
      be sent, in order. */
  lemma {:induction false} RemainingIsRest(cfg: Config, pending: seq<Observation>, delivered: Group, rest: Group,
                                           gone: set<nat>)
    requires delivered + rest == ToSend(cfg, pending) && GoneIs(cfg, pending, delivered, gone)
    ensures Remaining(pending, gone) == Observations(rest)
    decreases |pending|
  {
    if pending == [] {
      assert rest == [];
    } else {
      var n := |pending| - 1;
      RemainingSnoc(pending, gone, n);
      if !CanBeSent(cfg, pending[n]) {
        LastUnsendable(cfg, pending, delivered, gone, n);
        RemainingIsRest(cfg, pending[..n], delivered, rest, gone);
      } else if rest == [] {
        assert delivered + [] == delivered && ToSend(cfg, pending[..n]) + [] == ToSend(cfg, pending[..n]);
        LastTaken(cfg, pending, delivered, gone, n);
        RemainingIsRest(cfg, pending[..n], ToSend(cfg, pending[..n]), [], gone);
      } else {
        LastLeft(cfg, pending, delivered, rest, gone, n);
        RemainingIsRest(cfg, pending[..n], delivered, rest[..|rest| - 1], gone);
        DatadogRuns.ObservationsSnoc(rest[..|rest| - 1], Queued(n, pending[n]));
      }
    }
  }

  lemma ToSendSnoc(cfg: Config, pending: seq<Observation>)
    requires pending != []
    ensures var n := |pending| - 1;
            ToSend(cfg, pending) == ToSend(cfg, pending[..n])
              + if CanBeSent(cfg, pending[n]) then [Queued(n, pending[n])] else []
  {
    var n := |pending| - 1;
    var before, q := Prepared(pending[..n]), Queued(n, pending[n]);
    if pending[n].ended {
      assert (before + [q])[..|before|] == before;
      TooLargeAnyIndex(cfg.limits, pending[n], n, 0);
    } else {
      assert Prepared(pending) == before;
    }
  }

  lemma {:induction false} IndexesBelow(cfg: Config, pending: seq<Observation>)
    ensures forall q :: q in ToSend(cfg, pending) ==> q.index < |pending|
  {
    SendableFits(cfg.limits, Prepared(pending));
    forall q | q in ToSend(cfg, pending) ensures q.index < |pending| { PreparedMembers(pending, q); }
  }

  lemma {:induction false} NothingGone(pending: seq<Observation>, n: nat)
    requires 0 < n <= |pending|
    ensures Remaining(pending[..n], {0}) == pending[1..n]
  {
    assert pending[..n][..n - 1] == pending[..n - 1];
    if n > 1 { NothingGone(pending, n - 1); }
  }

  // ----- Sending.

  /** The loop over groups: stops at the first failure. */
  method SendGroups(cfg: Config, world: World, groups: seq<Group>, at: nat)
      returns (failure: Option<Fault>, end: nat, delivered: set<nat>)
    ensures var d := SendAll(cfg, world, groups, at);
            && failure == d.failure && end == d.end
            && d.done <= |groups| && delivered == Indexes(Flatten(groups[..d.done]))
  {
    end, delivered := at, {};
    ghost var d := Delivery(0, None, at, []);
    for i := 0 to |groups|
      invariant d == SendAll(cfg, world, groups[..i], at) && d.failure.None? && d.done == i && end == d.end
      invariant delivered == Indexes(Flatten(groups[..i]))
    {
      DatadogRuns.SendStep(cfg, world, groups, i, at);
      var outcome;
      outcome, end := PostPayload(cfg.policy, world, end);
      d := SendNext(cfg, world, d, groups[i]);
      if outcome.Undelivered? {
        DatadogRuns.FailureStays(cfg, world, groups, i + 1, at);
        return Some(outcome.fault), end, delivered;
      }
      delivered := delivered + Indexes(groups[i]);
    }
    assert groups[..|groups|] == groups;
    failure := None;
  }

  class Exporter {
    const cfg: Config
    const world: World
    var buf: array<Observation>
    var len: nat
    var shutdown: bool
    var lastShutdown: Answer
    var at: nat
    var accepted: nat
    ghost var past: History

    ghost predicate Valid()
      reads this
    {
      len <= buf.Length && accepted == |past.accepted|
    }

    ghost function Contents(): Store
      requires Valid()
      reads this, buf
    {
      Store(buf[..len], shutdown, lastShutdown, at, past)
    }

    constructor (config: Config, server: World)
      ensures Valid() && fresh(buf) && cfg == config && world == server && Contents() == EMPTY
    {
      cfg, world := config, server;
      buf, len, shutdown, lastShutdown, at, accepted := new Observation[0], 0, false, [], 0, 0;
      past := EMPTY.past;
    }

    /** Appends to the queue, in a larger array when this one is full. */
    method Append(batch: seq<Observation>)
      requires Valid()
      modifies this, buf
      ensures Valid() && (buf == old(buf) || fresh(buf)) && Contents() == Accept(old(Contents()), batch)
    {
      ghost var before := buf[..len];
      if len + |batch| > buf.Length {
        var larger := new Observation[len + |batch|](_ => Observation(0, false, 0));
        for i := 0 to len
          invariant larger[..i] == before[..i]
          modifies larger
        {
          larger[i] := buf[i];
        }
        buf := larger;
      }
      assert buf[..len] == before;
      AppendInPlace(batch);
    }

    method AppendInPlace(batch: seq<Observation>)
      requires Valid() && len + |batch| <= buf.Length
      modifies this`len, this`accepted, this`past, buf
      ensures Valid() && Contents() == Accept(old(Contents()), batch)
    {
      ghost var more := Numbered(batch, accepted);
      for i := 0 to |batch|
        invariant buf[..len + i] == old(buf[..len]) + more[..i]
        modifies buf
      {
        buf[len + i] := batch[i].(position := accepted + i);
      }
      len, accepted := len + |batch|, accepted + |batch|;
      past := past.(accepted := past.accepted + more);
    }

    /** Collects what can be sent; on a redaction failure only the head is skipped. */
    method PreparePendingPayloads() returns (failed: bool, groups: seq<Group>, errors: nat, skipped: set<nat>)
      requires Valid()
      ensures failed <==> len > 0 && !ValidOptions(cfg.redaction)
      ensures failed ==> skipped == {0}
      ensures !failed ==> groups == Groups(cfg, buf[..len]) && skipped == Unsendable(cfg, buf[..len])
      ensures !failed ==> errors == |Prepared(buf[..len])| - |ToSend(cfg, buf[..len])|
    {
      var items: seq<Queued> := [];
      ghost var pending := buf[..len];
      failed, groups, errors, skipped := false, [], 0, {};
      for i := 0 to len
        invariant i > 0 ==> ValidOptions(cfg.redaction)
        invariant items == Prepared(pending[..i])
        invariant forall k: nat :: k in skipped <==> k < i && !pending[k].ended
      {
        if !ValidOptions(cfg.redaction) { return true, [], 0, {i}; }
        assert pending[..i + 1][..i] == pending[..i];
        if buf[i].ended {
          items := items + [Queued(i, buf[i])];
        } else {
          skipped := skipped + {i};
        }
      }
      assert pending[..len] == pending;
      var large;
      groups, errors, large := SplitPayloadGroups(cfg.limits, items);
      UnsendableSplits(cfg, pending, skipped);
      skipped := skipped + large;
    }

    /** After a redaction failure. */
    method SkipHead(skipped: set<nat>)
      requires Valid() && len > 0 && skipped == {0}
      modifies this`len, this`past, buf
      ensures Valid() && var s := old(Contents());
              Contents() == s.(pending := s.pending[1..], past := s.past.(skipped := s.past.skipped + [s.pending[0]]))
    {
      ghost var pending := buf[..len];
      NothingGone(pending, len);
      assert pending[..len] == pending && pending[1..len] == pending[1..];
      assert skipped + {} == {0};
      past := past.(skipped := past.skipped + [buf[0]]);
      len := CompactPending(buf, len, skipped, {});
    }

    method DrainLocked(op: Operation, ended: Option<string>) returns (answer: Answer)
      requires Valid()
      modifies this, buf
      ensures Valid() && buf == old(buf) && (Contents(), answer) == Drain(cfg, world, op, ended, old(Contents()))
    {
      if ended.Some? { return [Error(op, Fault(ended.value, false, false))]; }
      var failed, groups, errors, skipped := PreparePendingPayloads();
      if failed {
        SkipHead(skipped);
        return [Error(op, REDACTION_FAULT)];
      }
      answer := SendPrepared(op, groups, errors, skipped);
    }

    method SendPrepared(op: Operation, groups: seq<Group>, errors: nat, skipped: set<nat>) returns (answer: Answer)
      requires Valid() && groups == Groups(cfg, buf[..len]) && skipped == Unsendable(cfg, buf[..len])
      requires errors == |Prepared(buf[..len])| - |ToSend(cfg, buf[..len])|
      modifies this, buf
      ensures Valid() && buf == old(buf) && SendAll(cfg, world, groups, old(at)).done <= |groups|
      ensures var d := SendAll(cfg, world, groups, old(at));
              && Contents() == AfterSending(cfg, old(Contents()), d)
              && answer == if d.failure.Some? then [Error(op, d.failure.value)] else seq(errors, _ => TOO_LARGE)
    {
      var failure := Send(groups, skipped);
      answer := if failure.Some? then [Error(op, failure.value)] else seq(errors, _ => TOO_LARGE);
    }

    /** Sends the groups, then compacts or clears the queue. */
    method Send(groups: seq<Group>, skipped: set<nat>) returns (failure: Option<Fault>)
      requires Valid() && groups == Groups(cfg, buf[..len]) && skipped == Unsendable(cfg, buf[..len])
      modifies this, buf
      ensures Valid() && buf == old(buf) && failure == SendAll(cfg, world, groups, old(at)).failure
      ensures SendAll(cfg, world, groups, old(at)).done <= |groups|
      ensures Contents() == AfterSending(cfg, old(Contents()), SendAll(cfg, world, groups, old(at)))
    {
      var delivered;
      ghost var d := SendAll(cfg, world, groups, at);
      SendAllDone(cfg, world, groups, at);
      failure, at, delivered := SendGroups(cfg, world, groups, at);
      Settle(d, failure, skipped, delivered);
    }

    /** What stays in the queue after sending: nothing, or what was neither sent nor skipped. */
    method Settle(ghost d: Delivery, failure: Option<Fault>, skipped: set<nat>, delivered: set<nat>)
      requires Valid() && skipped == Unsendable(cfg, buf[..len]) && failure == d.failure && at == d.end
      requires d.done <= |Groups(cfg, buf[..len])| && (failure.None? ==> d.done == |Groups(cfg, buf[..len])|)
      requires delivered == Indexes(Flatten(Groups(cfg, buf[..len])[..d.done]))
      modifies this, buf
      ensures Valid() && buf == old(buf) && Contents() == AfterSending(cfg, old(Contents()), d)
    {
      ghost var before := Contents();
      past := AfterSending(cfg, before, d).past;
      if failure.Some? && !failure.value.retryable {
        len := 0;
        return;
      }
      CompactionIsRest(cfg, before.pending, d.done, skipped, delivered);
      len := CompactPending(buf, len, skipped, delivered);
    }

    method Export(ended: Option<string>, batch: seq<Observation>) returns (answer: Answer)
      requires Valid()
      modifies this, buf
      ensures Valid() && (buf == old(buf) || fresh(buf))
      ensures (Contents(), answer) == Step(cfg, world, old(Contents()), ExportCall(ended, batch))
    {
      if shutdown { return [EXPORTER_CLOSED]; }
      Append(batch);
      answer := DrainLocked(Exporting, ended);
    }

    method Flush(ended: Option<string>) returns (answer: Answer)
      requires Valid()
      modifies this, buf
      ensures Valid() && buf == old(buf) && (Contents(), answer) == Step(cfg, world, old(Contents()), FlushCall(ended))
    {
      if shutdown { return lastShutdown; }
      answer := DrainLocked(Flushing, ended);
    }

    method Shutdown(ended: Option<string>) returns (answer: Answer)
      requires Valid()
      modifies this, buf
      ensures Valid() && buf == old(buf) &&
              (Contents(), answer) == Step(cfg, world, old(Contents()), ShutdownCall(ended))
    {
      if shutdown { return lastShutdown; }
      shutdown := true;
      answer := DrainLocked(ShuttingDown, ended);
      lastShutdown := answer;
    }
  }

  /** After k groups, compaction leaves the observations of the others. */
  lemma CompactionIsRest(cfg: Config, pending: seq<Observation>, k: nat, skipped: set<nat>, delivered: set<nat>)
    requires k <= |Groups(cfg, pending)| && skipped == Unsendable(cfg, pending)
    requires delivered == Indexes(Flatten(Groups(cfg, pending)[..k]))
    ensures Remaining(pending, skipped + delivered) == Observations(Flatten(Groups(cfg, pending)[k..]))
    ensures k == |Groups(cfg, pending)| ==> Remaining(pending, skipped + delivered) == []
  {
    var groups := Groups(cfg, pending);
    DatadogRuns.CutFlatten(groups, k);
    BatchesConcatenate(cfg.limits, ToSend(cfg, pending));
    RemainingIsRest(cfg, pending, Flatten(groups[..k]), Flatten(groups[k..]), skipped + delivered);
  }
}
