/** What holds of every run of the Datadog exporter, whatever the server answers. */
module DatadogRuns {
  import opened Model
  import opened Redaction
  import opened Batching
  import opened Retry
  import opened Datadog

  // ----- The queue splits into what can be sent and what cannot.

  lemma ObservationsSnoc(group: Group, q: Queued)
    ensures Observations(group + [q]) == Observations(group) + [q.observation]
  {
  }

  lemma ObservationsAppend(a: Group, b: Group)
    ensures Observations(a + b) == Observations(a) + Observations(b)
  {
  }

  lemma {:induction false} SendsOnlySendable(cfg: Config, pending: seq<Observation>)
    ensures Observations(ToSend(cfg, pending)) == Only(cfg, pending, true)
  {
    if pending != [] {
      var n := |pending| - 1;
      var q := Queued(n, pending[n]);
      SendsOnlySendable(cfg, pending[..n]);
      assert !q.observation.ended ==> Prepared(pending) == Prepared(pending[..n]);
      if q.observation.ended {
        assert (Prepared(pending[..n]) + [q])[..|Prepared(pending[..n])|] == Prepared(pending[..n]);
        assert TooLarge(cfg.limits, q) == TooLarge(cfg.limits, Queued(0, q.observation)) by {
          assert SumSizes([q]) == SumSizes([Queued(0, q.observation)]);
        }
        ObservationsSnoc(ToSend(cfg, pending[..n]), q);
      }
    }
  }

  lemma OneMoreSplit<T>(a: seq<T>, b: seq<T>, whole: seq<T>, x: T)
    requires whole != [] && x == whole[|whole| - 1] && multiset(a) + multiset(b) == multiset(whole[..|whole| - 1])
    ensures multiset(a + [x]) + multiset(b + []) == multiset(whole)
    ensures multiset(a + []) + multiset(b + [x]) == multiset(whole)
  {
    assert whole[..|whole| - 1] + [x] == whole && a + [] == a && b + [] == b;
  }

  lemma {:induction false} OnlySplits(cfg: Config, pending: seq<Observation>)
    ensures multiset(Only(cfg, pending, true)) + multiset(Only(cfg, pending, false)) == multiset(pending)
  {
    if pending != [] {
      var n := |pending| - 1;
      OnlySplits(cfg, pending[..n]);
      OneMoreSplit(Only(cfg, pending[..n], true), Only(cfg, pending[..n], false), pending, pending[n]);
    }
  }

  ghost predicate Increasing(os: seq<Observation>) {
    forall i, j :: 0 <= i < j < |os| ==> os[i].position < os[j].position
  }

  lemma {:induction false} OnlyIncreasing(cfg: Config, before: seq<Observation>, pending: seq<Observation>)
    requires Increasing(before + pending)
    ensures Increasing(before + Only(cfg, pending, true))
    ensures forall o :: o in Only(cfg, pending, true) ==> o in pending
    decreases |pending|
  {
    if pending != [] {
      var n := |pending| - 1;
      var init, last := pending[..n], pending[n];
      assert Increasing(before + init) by { assert before + init == (before + pending)[..|before| + n]; }
      OnlyIncreasing(cfg, before, init);
      assert forall o :: o in before + init ==>
               o.position < last.position by { LastIsLargest(before + init, last, before + pending); }
      if CanBeSent(cfg, last) {
        SnocIncreasing(before + Only(cfg, init, true), last);
        assert (before + Only(cfg, init, true)) + [last] == before + Only(cfg, pending, true);
      } else {
        assert Only(cfg, pending, true) == Only(cfg, init, true);
      }
    }
  }

  lemma LastIsLargest(init: seq<Observation>, last: Observation, all: seq<Observation>)
    requires Increasing(all) && |all| == |init| + 1 && all[|init|] == last && forall i :: 0 <= i < |init| ==>
               all[i] == init[i]
    ensures forall o :: o in init ==> o.position < last.position
  {
  }

  lemma SnocIncreasing(os: seq<Observation>, last: Observation)
    requires Increasing(os) && forall o :: o in os ==> o.position < last.position
    ensures Increasing(os + [last])
  {
  }

  // ----- Requests.

  function Gained(sent: Sent): seq<Observation> { if sent.response.Accepted? then Observations(sent.payload) else [] }

  function Gains(wire: seq<Sent>): (gs: seq<seq<Observation>>)
    ensures |gs| == |wire|
  {
    seq(|wire|, i requires 0 <= i < |wire| => Gained(wire[i]))
  }

  /** The observations of the payloads that the server accepted, in order. */
  function Confirmed(wire: seq<Sent>): seq<Observation> { Flatten(Gains(wire)) }

  lemma {:induction false} FlattenAppend<T>(a: seq<seq<T>>, b: seq<seq<T>>)
    ensures Flatten(a + b) == Flatten(a) + Flatten(b)
  {
    if b == [] {
      assert a + b == a;
    } else {
      var n := |b| - 1;
      FlattenAppend(a, b[..n]);
      assert (a + b)[..|a| + n] == a + b[..n] && (a + b)[|a| + n] == b[n];
      assert (Flatten(a) + Flatten(b[..n])) + b[n] == Flatten(a) + (Flatten(b[..n]) + b[n]);
    }
  }

  lemma ConfirmedAppend(a: seq<Sent>, b: seq<Sent>)
    ensures Confirmed(a + b) == Confirmed(a) + Confirmed(b)
  {
    assert Gains(a + b) == Gains(a) + Gains(b);
    FlattenAppend(Gains(a), Gains(b));
  }

  lemma {:induction false} FlattenOfEmpty<T>(groups: seq<seq<T>>)
    requires forall i :: 0 <= i < |groups| ==> groups[i] == []
    ensures Flatten(groups) == []
  {
    if groups != [] { FlattenOfEmpty(groups[..|groups| - 1]); }
  }

  lemma OnlyTheLastConfirms(world: World, group: Group, start: nat, end: nat)
    requires start < end && forall i: nat :: start <= i < end - 1 ==> Transient(world, i)
    ensures Confirmed(Requests(world, group, start, end))
         == (if world.response(end - 1).Accepted? then Observations(group) else [])
  {
    var gains := Gains(Requests(world, group, start, end));
    var n := |gains| - 1;
    forall i | 0 <= i < n ensures gains[i] == [] { assert Transient(world, start + i); }
    FlattenOfEmpty(gains[..n]);
    FlattenSnoc(gains[..n], gains[n]);
    assert gains[..n] + [gains[n]] == gains && [] + gains[n] == gains[n];
  }

  predicate Sane(cfg: Config) { 0 <= cfg.policy.maxRetries < MAX_INT64 }

  ghost predicate WithinLimits(cfg: Config, wire: seq<Sent>) {
    forall i :: 0 <= i < |wire| ==> wire[i].payload != [] && Fits(cfg.limits, wire[i].payload)
  }

  /** The groups delivered are exactly those the server accepted, and every request carries
      one of the groups. */
  lemma {:induction false} SendAllConfirms(cfg: Config, world: World, groups: seq<Group>, at: nat)
    requires Sane(cfg)
    ensures var d := SendAll(cfg, world, groups, at);
            && d.done <= |groups| && Confirmed(d.wire) == Observations(Flatten(groups[..d.done]))
            && (AllFit(cfg.limits, groups) ==> WithinLimits(cfg, d.wire))
            && d.end == at + |d.wire|
  {
    if groups != [] {
      var n := |groups| - 1;
      var d := SendAll(cfg, world, groups[..n], at);
      SendAllConfirms(cfg, world, groups[..n], at);
      SendAllDone(cfg, world, groups[..n], at);
      assert groups[..n][..d.done] == groups[..d.done];
      if d.failure.None? { SendNextConfirms(cfg, world, d, groups); }
    }
  }

  lemma PostConfirms(cfg: Config, world: World, group: Group, at: nat)
    requires Sane(cfg)
    ensures var (outcome, end) := Post(cfg.policy, world, at);
            at < end
            && Confirmed(Requests(world, group, at, end)) == if outcome.Delivered? then Observations(group) else []
  {
    var (outcome, end) := Post(cfg.policy, world, at);
    PostLaws(cfg.policy, world, at);
    OnlyTheLastConfirms(world, group, at, end);
  }

  lemma TakeConfirms(groups: seq<Group>, k: nat)
    requires k < |groups|
    ensures Observations(Flatten(groups[..k + 1])) == Observations(Flatten(groups[..k])) + Observations(groups[k])
  {
    assert groups[..k] + [groups[k]] == groups[..k + 1];
    FlattenSnoc(groups[..k], groups[k]);
    ObservationsAppend(Flatten(groups[..k]), groups[k]);
  }

  lemma SendNextWire(cfg: Config, world: World, d: Delivery, group: Group)
    requires d.failure.None?
    ensures var (outcome, end) := Post(cfg.policy, world, d.end);
            var next, wire := SendNext(cfg, world, d, group), Requests(world, group, d.end, end);
            && end >= d.end && next.end == end && next.wire == d.wire + wire
            && Confirmed(next.wire) == Confirmed(d.wire) + Confirmed(wire)
            && next.done == d.done + if outcome.Delivered? then 1 else 0
  {
    PostAdvances(cfg.policy, world, d.end, 1);
    var (outcome, end) := Post(cfg.policy, world, d.end);
    ConfirmedAppend(d.wire, Requests(world, group, d.end, end));
  }

  lemma SendNextConfirms(cfg: Config, world: World, d: Delivery, groups: seq<Group>)
    requires Sane(cfg) && d.failure.None? && d.done == |groups| - 1
    requires Confirmed(d.wire) == Observations(Flatten(groups[..d.done]))
    ensures var next := SendNext(cfg, world, d, groups[d.done]);
            && next.done <= |groups| && Confirmed(next.wire) == Observations(Flatten(groups[..next.done]))
            && next.end == d.end + |next.wire| - |d.wire|
            && forall i :: 0 <= i < |next.wire| ==> if i < |d.wire| then next.wire[i] == d.wire[i]
                                                   else next.wire[i].payload == groups[d.done]
  {
    PostConfirms(cfg, world, groups[d.done], d.end);
    SendNextWire(cfg, world, d, groups[d.done]);
    TakeConfirms(groups, d.done);
  }

  /** A failure ends the sending. */
  lemma {:induction false} FailureStays(cfg: Config, world: World, groups: seq<Group>, n: nat, at: nat)
    requires n <= |groups| && SendAll(cfg, world, groups[..n], at).failure.Some?
    ensures SendAll(cfg, world, groups, at) == SendAll(cfg, world, groups[..n], at)
    decreases |groups|
  {
    if n == |groups| {
      assert groups[..n] == groups;
    } else {
      var m := |groups| - 1;
      assert groups[..m][..n] == groups[..n];
      FailureStays(cfg, world, groups[..m], n, at);
    }
  }

  lemma SendStep(cfg: Config, world: World, groups: seq<Group>, n: nat, at: nat)
    requires n < |groups|
    ensures SendAll(cfg, world, groups[..n + 1], at)
         == SendNext(cfg, world, SendAll(cfg, world, groups[..n], at), groups[n])
    ensures Flatten(groups[..n + 1]) == Flatten(groups[..n]) + groups[n]
  {
    assert groups[..n + 1][..n] == groups[..n];
  }

  // ----- Drains that are cut short.

  /** A drain whose k-th group is given up in a retry sleep: the groups before it are
      acknowledged, nothing more is sent, the answer is the fault of the sleep, and the group and
      all after it are cleared. */
  lemma CutShortDrainClears(cfg: Config, world: World, op: Operation, s: Store, k: nat, before: Delivery, end: nat)
    requires Sane(cfg) && ValidOptions(cfg.redaction)
    requires k < |Groups(cfg, s.pending)| && before == SendAll(cfg, world, Groups(cfg, s.pending)[..k], s.at)
    requires before.failure.None? && end == Post(cfg.policy, world, before.end).1
    requires before.end < end && GivenUp(cfg.policy, world, before.end, end)
    ensures var (after, answer) := Drain(cfg, world, op, None, s);
            var groups := Groups(cfg, s.pending);
            && answer == [Error(op, Fault(world.sleep(end - 1).value, false, false))]
            && after.at == end && after.pending == []
            && after.past.acknowledged == s.past.acknowledged + Observations(Flatten(groups[..k]))
            && after.past.cleared == s.past.cleared + Observations(Flatten(groups[k..]))
  {
    var groups := Groups(cfg, s.pending);
    SleepLaws(cfg.policy, world, before.end);
    SendAllDone(cfg, world, groups[..k], s.at);
    SendStep(cfg, world, groups, k, s.at);
    FailureStays(cfg, world, groups, k + 1, s.at);
    DrainAnswers(cfg, world, op, None, s);
  }

  /** What a drain answers: the context's error, the failure of the redaction, the failure that
      ended the sending, or one error for each ended observation that is too large alone. */
  lemma DrainAnswers(cfg: Config, world: World, op: Operation, ended: Option<string>, s: Store)
    ensures var answer := Drain(cfg, world, op, ended, s).1;
            var d := SendAll(cfg, world, Groups(cfg, s.pending), s.at);
            if ended.Some? then answer == [Error(op, Fault(ended.value, false, false))]
            else if s.pending != [] && !ValidOptions(cfg.redaction) then
              answer == [Error(op, Fault("redaction", false, true))]
            else if d.failure.Some? then answer == [Error(op, d.failure.value)]
            else
              && |answer| == |Only(cfg, Ended(s.pending), false)|
              && forall i :: 0 <= i < |answer| ==>
                   answer[i] == Error(Preparing, Fault("payload_too_large", false, true))
  {
    PreparedAreEnded(s.pending);
    UnsendableCount(cfg, s.pending);
    SendableShorter(cfg.limits, Prepared(s.pending));
    SendAllDone(cfg, world, Groups(cfg, s.pending), s.at);
  }

  lemma {:induction false} UnsendableCount(cfg: Config, pending: seq<Observation>)
    ensures |Prepared(pending)| - |ToSend(cfg, pending)| == |Only(cfg, Ended(pending), false)|
  {
    if pending != [] {
      var n := |pending| - 1;
      UnsendableCount(cfg, pending[..n]);
      var q := Queued(n, pending[n]);
      if pending[n].ended {
        assert Prepared(pending) == Prepared(pending[..n]) + [q] &&
               Ended(pending) == Ended(pending[..n]) + [pending[n]];
        assert Prepared(pending)[..|Prepared(pending)| - 1] == Prepared(pending[..n]);
        assert Ended(pending)[..|Ended(pending)| - 1] == Ended(pending[..n]);
        assert TooLarge(cfg.limits, q) == TooLarge(cfg.limits, Queued(0, pending[n])) by {
          SingleSize(q);
          SingleSize(Queued(0, pending[n]));
        }
        assert |ToSend(cfg, pending)| == |ToSend(cfg, pending[..n])| + if TooLarge(cfg.limits, q) then 0 else 1;
      } else {
        assert Prepared(pending) == Prepared(pending[..n]) && Ended(pending) == Ended(pending[..n]);
      }
    }
  }

  // ----- One drain.

  lemma Cut<T>(s: seq<T>, k: nat)
    requires k <= |s|
    ensures s[..k] + s[k..] == s
  {
  }

  lemma CutFlatten<T>(groups: seq<seq<T>>, k: nat)
    requires k <= |groups|
    ensures Flatten(groups[..k]) + Flatten(groups[k..]) == Flatten(groups)
  {
    Cut(groups, k);
    FlattenAppend(groups[..k], groups[k..]);
  }

  /** Delivered groups followed by the others are what can be sent, in order. */
  lemma GroupsSplit(cfg: Config, pending: seq<Observation>, k: nat)
    requires k <= |Groups(cfg, pending)|
    ensures var groups := Groups(cfg, pending);
            Observations(Flatten(groups[..k])) + Observations(Flatten(groups[k..])) == Only(cfg, pending, true)
  {
    var groups := Groups(cfg, pending);
    CutFlatten(groups, k);
    BatchesConcatenate(cfg.limits, ToSend(cfg, pending));
    ObservationsAppend(Flatten(groups[..k]), Flatten(groups[k..]));
    SendsOnlySendable(cfg, pending);
  }

  function Ended(pending: seq<Observation>): seq<Observation> {
    if pending == [] then []
    else
      var n := |pending| - 1;
      Ended(pending[..n]) + if pending[n].ended then [pending[n]] else []
  }

  lemma {:induction false} PreparedAreEnded(pending: seq<Observation>)
    ensures Observations(Prepared(pending)) == Ended(pending)
  {
    if pending != [] {
      var n := |pending| - 1;
      PreparedAreEnded(pending[..n]);
      ObservationsSnoc(Prepared(pending[..n]), Queued(n, pending[n]));
    }
  }

  lemma {:induction false} SendableIsAll(lim: Limits, items: seq<Queued>)
    requires |Sendable(lim, items)| == |items|
    ensures Sendable(lim, items) == items
  {
    if items != [] {
      SendableShorter(lim, items[..|items| - 1]);
      SendableIsAll(lim, items[..|items| - 1]);
      assert items == items[..|items| - 1] + [items[|items| - 1]];
    }
  }

  /** A drain that answers nil leaves the queue empty, with every ended observation
      acknowledged and none too large. */
  lemma NilDrainAcknowledgesAll(cfg: Config, world: World, op: Operation, ended: Option<string>, s: Store)
    ensures var (after, answer) := Drain(cfg, world, op, ended, s);
            answer == [] ==> after.pending == [] && after.past.acknowledged == s.past.acknowledged + Ended(s.pending)
  {
    var (after, answer) := Drain(cfg, world, op, ended, s);
    if answer == [] {
      var groups := Groups(cfg, s.pending);
      SendableShorter(cfg.limits, Prepared(s.pending));
      SendAllDone(cfg, world, groups, s.at);
      SendableIsAll(cfg.limits, Prepared(s.pending));
      PreparedAreEnded(s.pending);
      BatchesConcatenate(cfg.limits, ToSend(cfg, s.pending));
      assert groups[..|groups|] == groups;
    }
  }

  /** The ways a drain can end. A done context changes nothing. A redaction failure drops the
      head of the queue. A retryable failure in group k leaves exactly the observations of
      groups k and later. Anything else empties the queue. */
  lemma DrainOutcomes(cfg: Config, world: World, op: Operation, ended: Option<string>, s: Store)
    ensures var (after, answer) := Drain(cfg, world, op, ended, s);
            var groups := Groups(cfg, s.pending);
            var k := SendAll(cfg, world, groups, s.at).done;
            if ended.Some? then after == s && answer != []
            else if s.pending != [] && !ValidOptions(cfg.redaction) then
              after.pending == s.pending[1..] && after.at == s.at
            else
              && k <= |groups| && after.past.acknowledged == s.past.acknowledged + Observations(Flatten(groups[..k]))
              && (if answer != [] && answer[0].fault.retryable
                  then k < |groups| && after.pending == Observations(Flatten(groups[k..])) && after.pending != []
                  else after.pending == [])
  {
    var groups := Groups(cfg, s.pending);
    var d := SendAll(cfg, world, groups, s.at);
    SendAllDone(cfg, world, groups, s.at);
    SendableShorter(cfg.limits, Prepared(s.pending));
    if d.failure.Some? {
      SendAllStopsEarly(cfg, world, groups, s.at);
      SendableFits(cfg.limits, Prepared(s.pending));
      BatchesFit(cfg.limits, ToSend(cfg, s.pending));
      HeadGroupIsInFlatten(groups, d.done);
    }
  }

  lemma HeadGroupIsInFlatten(groups: seq<Group>, k: nat)
    requires k < |groups| && groups[k] != []
    ensures Flatten(groups[k..]) != []
  {
    var rest := groups[k..];
    assert rest == [rest[0]] + rest[1..];
    FlattenAppend([rest[0]], rest[1..]);
    FlattenSnoc([], rest[0]);
    assert [] + [rest[0]] == [rest[0]];
  }

  lemma {:induction false} SendAllStopsEarly(cfg: Config, world: World, groups: seq<Group>, at: nat)
    requires SendAll(cfg, world, groups, at).failure.Some?
    ensures SendAll(cfg, world, groups, at).done < |groups|
  {
    var n := |groups| - 1;
    SendAllDone(cfg, world, groups[..n], at);
  }

  // ----- Runs.

  /** Every accepted observation is in exactly one place, and acknowledged observations
      followed by the queue are in the order of acceptance. */
  ghost predicate Accounted(s: Store) {
    var h := s.past;
    && multiset(h.acknowledged) + multiset(h.skipped) + multiset(h.cleared) + multiset(s.pending)
       == multiset(h.accepted)
    && Increasing(h.acknowledged + s.pending)
    && forall i :: 0 <= i < |h.accepted| ==> h.accepted[i].position == i
  }

  /** What was acknowledged is what the server accepted, and no request broke a limit. */
  ghost predicate Honest(cfg: Config, s: Store) {
    Confirmed(s.past.wire) == s.past.acknowledged && WithinLimits(cfg, s.past.wire) && s.at == |s.past.wire|
  }

  lemma PositionsAreSmall(s: Store, o: Observation)
    requires Accounted(s) && (o in s.past.acknowledged || o in s.pending)
    ensures o.position < |s.past.accepted|
  {
    assert o in multiset(s.past.accepted);
  }

  lemma AcceptAccounted(s: Store, batch: seq<Observation>)
    requires Accounted(s)
    ensures Accounted(Accept(s, batch))
  {
    var more := Numbered(batch, |s.past.accepted|);
    var before := s.past.acknowledged + s.pending;
    forall o | o in before ensures o.position < |s.past.accepted| { PositionsAreSmall(s, o); }
    assert Increasing(before + more);
    assert before + more == s.past.acknowledged + (s.pending + more);
  }

  lemma SplitCounts(acknowledged: seq<Observation>, skipped: seq<Observation>, cleared: seq<Observation>,
                    pending: seq<Observation>, delivered: seq<Observation>,
                    rest: seq<Observation>, left: seq<Observation>)
    requires multiset(delivered + rest) + multiset(left) == multiset(pending)
    ensures multiset(acknowledged + delivered) + multiset(skipped + left) + multiset(cleared) + multiset(rest)
         == multiset(acknowledged) + multiset(skipped) + multiset(cleared) + multiset(pending)
  {
    assert multiset(delivered + rest) == multiset(delivered) + multiset(rest);
  }

  lemma SplitOrder(acknowledged: seq<Observation>, delivered: seq<Observation>, rest: seq<Observation>)
    requires Increasing(acknowledged + (delivered + rest))
    ensures Increasing((acknowledged + delivered) + rest) && Increasing(acknowledged + delivered)
  {
    var all := acknowledged + (delivered + rest);
    assert (acknowledged + delivered) + rest == all;
    assert acknowledged + delivered == all[..|acknowledged| + |delivered|];
  }

  /** Splitting the queue as a drain does keeps the account. */
  lemma SplitAccounted(cfg: Config, s: Store, delivered: seq<Observation>, rest: seq<Observation>)
    requires Accounted(s) && delivered + rest == Only(cfg, s.pending, true)
    ensures var h := s.past;
            && multiset(h.acknowledged + delivered) + multiset(h.skipped + Only(cfg, s.pending, false))
               + multiset(h.cleared) + multiset(rest) == multiset(h.accepted)
            && Increasing((h.acknowledged + delivered) + rest)
            && Increasing(h.acknowledged + delivered)
  {
    var h := s.past;
    OnlySplits(cfg, s.pending);
    SplitCounts(h.acknowledged, h.skipped, h.cleared, s.pending, delivered, rest, Only(cfg, s.pending, false));
    OnlyIncreasing(cfg, h.acknowledged, s.pending);
    SplitOrder(h.acknowledged, delivered, rest);
  }

  lemma SendingAccounted(cfg: Config, s: Store, d: Delivery)
    requires Accounted(s) && d.done <= |Groups(cfg, s.pending)| &&
             (d.failure.None? ==> d.done == |Groups(cfg, s.pending)|)
    ensures Accounted(AfterSending(cfg, s, d))
  {
    var groups := Groups(cfg, s.pending);
    var delivered, rest := Observations(Flatten(groups[..d.done])), Observations(Flatten(groups[d.done..]));
    GroupsSplit(cfg, s.pending, d.done);
    SplitAccounted(cfg, s, delivered, rest);
    var acknowledged := s.past.acknowledged + delivered;
    assert acknowledged + [] == acknowledged;
    if d.failure.None? { assert rest == []; }
  }

  lemma HeadSkippedAccounted(s: Store)
    requires Accounted(s) && s.pending != []
    ensures Accounted(s.(pending := s.pending[1..], past := s.past.(skipped := s.past.skipped + [s.pending[0]])))
  {
    var after := s.past.acknowledged + s.pending[1..];
    var n := |s.past.acknowledged|;
    assert s.pending == [s.pending[0]] + s.pending[1..];
    forall i, j | 0 <= i < j < |after| ensures after[i].position < after[j].position {
      var all := s.past.acknowledged + s.pending;
      assert after[i] == all[if i < n then i else i + 1] && after[j] == all[if j < n then j else j + 1];
    }
  }

  lemma DrainAccounted(cfg: Config, world: World, op: Operation, ended: Option<string>, s: Store)
    requires Accounted(s)
    ensures Accounted(Drain(cfg, world, op, ended, s).0)
  {
    if ended.Some? {
    } else if s.pending != [] && !ValidOptions(cfg.redaction) {
      HeadSkippedAccounted(s);
    } else {
      SendAllDone(cfg, world, Groups(cfg, s.pending), s.at);
      SendingAccounted(cfg, s, SendAll(cfg, world, Groups(cfg, s.pending), s.at));
    }
  }

  lemma DrainHonest(cfg: Config, world: World, op: Operation, ended: Option<string>, s: Store)
    requires Sane(cfg) && Honest(cfg, s)
    ensures Honest(cfg, Drain(cfg, world, op, ended, s).0)
  {
    var groups := Groups(cfg, s.pending);
    var d := SendAll(cfg, world, groups, s.at);
    SendableFits(cfg.limits, Prepared(s.pending));
    BatchesFit(cfg.limits, ToSend(cfg, s.pending));
    SendAllConfirms(cfg, world, groups, s.at);
    ConfirmedAppend(s.past.wire, d.wire);
  }

  lemma {:induction false} RunAccounted(cfg: Config, world: World, s: Store, calls: seq<Call>)
    requires Accounted(s)
    ensures Accounted(Run(cfg, world, s, calls))
    ensures Sane(cfg) && Honest(cfg, s) ==> Honest(cfg, Run(cfg, world, s, calls))
    decreases |calls|
  {
    if calls != [] {
      StepAccounted(cfg, world, s, calls[0]);
      if Sane(cfg) && Honest(cfg, s) { StepHonest(cfg, world, s, calls[0]); }
      RunAccounted(cfg, world, Step(cfg, world, s, calls[0]).0, calls[1..]);
    }
  }

  lemma StepAccounted(cfg: Config, world: World, s: Store, call: Call)
    requires Accounted(s)
    ensures Accounted(Step(cfg, world, s, call).0)
  {
    match call
    case ExportCall(ended, batch) =>
      AcceptAccounted(s, batch);
      DrainAccounted(cfg, world, Exporting, ended, Accept(s, batch));
    case FlushCall(ended) => DrainAccounted(cfg, world, Flushing, ended, s);
    case ShutdownCall(ended) => DrainAccounted(cfg, world, ShuttingDown, ended, s.(shutdown := true));
  }

  lemma StepHonest(cfg: Config, world: World, s: Store, call: Call)
    requires Sane(cfg) && Honest(cfg, s)
    ensures Honest(cfg, Step(cfg, world, s, call).0)
  {
    match call
    case ExportCall(ended, batch) => DrainHonest(cfg, world, Exporting, ended, Accept(s, batch));
    case FlushCall(ended) => DrainHonest(cfg, world, Flushing, ended, s);
    case ShutdownCall(ended) => DrainHonest(cfg, world, ShuttingDown, ended, s.(shutdown := true));
  }

  lemma {:induction false} NumberedOnce(accepted: seq<Observation>, o: Observation)
    requires forall i :: 0 <= i < |accepted| ==> accepted[i].position == i
    ensures multiset(accepted)[o] == if o in accepted then 1 else 0
  {
    if accepted != [] {
      var n := |accepted| - 1;
      NumberedOnce(accepted[..n], o);
      assert accepted == accepted[..n] + [accepted[n]];
    }
  }

  /** First in, first out, at most once. Over any sequence of calls and any server: each
      accepted observation is in exactly one place (acknowledged, skipped, cleared or
      pending), nothing else is anywhere, and the acknowledged observations followed by the
      pending ones are in the order of acceptance. */
  lemma FifoAtMostOnce(cfg: Config, world: World, calls: seq<Call>, o: Observation)
    ensures var s := Run(cfg, world, EMPTY, calls);
            var places := multiset(s.past.acknowledged) + multiset(s.past.skipped)
                          + multiset(s.past.cleared) + multiset(s.pending);
            && places[o] == (if o in s.past.accepted then 1 else 0)
            && Increasing(s.past.acknowledged + s.pending)
            && (o in s.past.accepted ==> o.position < |s.past.accepted| && s.past.accepted[o.position] == o)
  {
    RunAccounted(cfg, world, EMPTY, calls);
    NumberedOnce(Run(cfg, world, EMPTY, calls).past.accepted, o);
  }

  /** Over any run, the acknowledged observations are exactly those of the payloads that the
      server accepted, in order, and every request was within both limits. */
  lemma AcknowledgedIsConfirmed(cfg: Config, world: World, calls: seq<Call>)
    requires Sane(cfg)
    ensures var s := Run(cfg, world, EMPTY, calls);
            Confirmed(s.past.wire) == s.past.acknowledged && WithinLimits(cfg, s.past.wire)
  {
    RunAccounted(cfg, world, EMPTY, calls);
  }

  ghost predicate ConfirmedRun(cfg: Config, world: World, calls: seq<Call>) {
    var s := Run(cfg, world, EMPTY, calls);
    Confirmed(s.past.wire) == s.past.acknowledged
  }

  lemma NoAttempts(cfg: Config, world: World, d: Delivery, group: Group)
    requires cfg.policy.maxRetries == MAX_INT64 && d.failure.None? && d.wire == []
    ensures SendNext(cfg, world, d, group) == Delivery(d.done + 1, None, d.end, [])
  {
    assert Attempts(cfg.policy) < 1;
    assert Requests(world, group, d.end, d.end) == [];
  }

  lemma {:induction false} NothingIsSent(cfg: Config, world: World, groups: seq<Group>, at: nat)
    requires cfg.policy.maxRetries == MAX_INT64
    ensures SendAll(cfg, world, groups, at) == Delivery(|groups|, None, at, [])
  {
    if groups != [] {
      var n := |groups| - 1;
      NothingIsSent(cfg, world, groups[..n], at);
      NoAttempts(cfg, world, SendAll(cfg, world, groups[..n], at), groups[n]);
    }
  }

  /** With the largest maxRetries, all that can be sent is acknowledged without any request. */
  lemma UnsentIsAcknowledged(cfg: Config, world: World, op: Operation, s: Store)
    requires cfg.policy.maxRetries == MAX_INT64 && ValidOptions(cfg.redaction)
    ensures var after := Drain(cfg, world, op, None, s).0;
            after.past.acknowledged == s.past.acknowledged + Only(cfg, s.pending, true)
            && after.past.wire == s.past.wire
  {
    var groups := Groups(cfg, s.pending);
    NothingIsSent(cfg, world, groups, s.at);
    GroupsSplit(cfg, s.pending, |groups|);
    assert groups[|groups|..] == [] && Observations(Flatten<Queued>([])) == [];
  }

  lemma UnconfirmedRun(cfg: Config, world: World, o: Observation)
    requires cfg.policy.maxRetries == MAX_INT64 && ValidOptions(cfg.redaction)
    requires o.position == 0 && CanBeSent(cfg, o)
    ensures !ConfirmedRun(cfg, world, [ExportCall(None, [o])])
  {
    var calls := [ExportCall(None, [o])];
    var s := Accept(EMPTY, [o]);
    assert Numbered([o], 0) == [o] && s.pending == [o];
    assert Only(cfg, [o], true) == [o] by { assert [o][..0] == []; }
    UnsentIsAcknowledged(cfg, world, Exporting, s);
    assert Run(cfg, world, EMPTY, calls) == Run(cfg, world, Step(cfg, world, EMPTY, calls[0]).0, []);
  }

  /** A limit under which some encoding, which is never empty, can be sent. */
  predicate SomeFit(cfg: Config) { ValidOptions(cfg.redaction) && cfg.limits.maxBytes > WRAPPER_BYTES }

  lemma SingleSize(item: Queued)
    ensures PayloadSize([item]) == WRAPPER_BYTES + item.observation.size
  {
    assert SumSizes([item]) == item.observation.size by { assert [item][..0] == []; }
  }

  /** Encodings are not empty. */
  ghost predicate Encoded(os: seq<Observation>) { forall o :: o in os ==> o.size > 0 }

  ghost predicate EncodedCalls(calls: seq<Call>) {
    forall i :: 0 <= i < |calls| && calls[i].ExportCall? ==> Encoded(calls[i].batch)
  }

  lemma SomeRunUnconfirmed(cfg: Config) returns (world: World, calls: seq<Call>)
    requires cfg.policy.maxRetries == MAX_INT64 && SomeFit(cfg)
    ensures EncodedCalls(calls) && !ConfirmedRun(cfg, world, calls)
  {
    var o := Observation(0, true, 1);
    SingleSize(Queued(0, o));
    world, calls := World(_ => Accepted, _ => 0, _ => None), [ExportCall(None, [o])];
    UnconfirmedRun(cfg, world, o);
  }

  /** A queue in which nothing can be sent: none is acknowledged and no request is made. */
  ghost predicate Silent(s: Store) { Encoded(s.pending) && s.past.acknowledged == [] && s.past.wire == [] }

  lemma {:induction false} NothingFits(cfg: Config, pending: seq<Observation>)
    requires Encoded(pending) && cfg.limits.maxBytes <= WRAPPER_BYTES
    ensures Only(cfg, pending, true) == []
  {
    if pending != [] {
      var n := |pending| - 1;
      NothingFits(cfg, pending[..n]);
      SingleSize(Queued(0, pending[n]));
    }
  }

  lemma DrainSilent(cfg: Config, world: World, op: Operation, ended: Option<string>, s: Store)
    requires Silent(s) && !SomeFit(cfg)
    ensures Silent(Drain(cfg, world, op, ended, s).0)
  {
    if ended.None? && ValidOptions(cfg.redaction) {
      NothingFits(cfg, s.pending);
      SendsOnlySendable(cfg, s.pending);
      assert |Observations(ToSend(cfg, s.pending))| == 0;
    }
  }

  lemma {:induction false} RunSilent(cfg: Config, world: World, s: Store, calls: seq<Call>)
    requires Silent(s) && !SomeFit(cfg) && EncodedCalls(calls)
    ensures Silent(Run(cfg, world, s, calls))
    decreases |calls|
  {
    if calls != [] {
      match calls[0] {
        case ExportCall(ended, batch) => DrainSilent(cfg, world, Exporting, ended, Accept(s, batch));
        case FlushCall(ended) => DrainSilent(cfg, world, Flushing, ended, s);
        case ShutdownCall(ended) => DrainSilent(cfg, world, ShuttingDown, ended, s.(shutdown := true));
      }
      RunSilent(cfg, world, Step(cfg, world, s, calls[0]).0, calls[1..]);
    }
  }

  lemma ConfirmedWhen(cfg: Config, world: World, calls: seq<Call>)
    requires Sane(cfg) || (!SomeFit(cfg) && EncodedCalls(calls))
    ensures ConfirmedRun(cfg, world, calls)
  {
    if Sane(cfg) { AcknowledgedIsConfirmed(cfg, world, calls); } else { RunSilent(cfg, world, EMPTY, calls); }
  }

  /** For every server and every run, acknowledged means accepted by the server, if and only
      if MaxRetries is not the largest integer or nothing can be sent at all. */
  lemma ConfirmedIffRetriesFit(cfg: Config)
    requires 0 <= cfg.policy.maxRetries <= MAX_INT64
    ensures (forall world, calls :: EncodedCalls(calls) ==> ConfirmedRun(cfg, world, calls))
       <==> cfg.policy.maxRetries < MAX_INT64 || !SomeFit(cfg)
  {
    if Sane(cfg) || !SomeFit(cfg) {
      forall world, calls | EncodedCalls(calls) ensures ConfirmedRun(cfg, world, calls) {
        ConfirmedWhen(cfg, world, calls);
      }
    } else {
      var world, calls := SomeRunUnconfirmed(cfg);
    }
  }

  lemma {:induction false} NothingAfterShutdown(cfg: Config, world: World, s: Store, calls: seq<Call>)
    requires s.shutdown
    ensures Run(cfg, world, s, calls) == s
    decreases |calls|
  {
    if calls != [] { NothingAfterShutdown(cfg, world, s, calls[1..]); }
  }

  lemma {:induction false} RunAppend(cfg: Config, world: World, s: Store, a: seq<Call>, b: seq<Call>)
    ensures Run(cfg, world, s, a + b) == Run(cfg, world, Run(cfg, world, s, a), b)
    decreases |a|
  {
    if a == [] {
      assert a + b == b;
    } else {
      RunAppend(cfg, world, Step(cfg, world, s, a[0]).0, a[1..], b);
      assert (a + b)[1..] == a[1..] + b;
    }
  }

  /** After the first Shutdown nothing is sent, accepted or changed; every Export is refused
      and every other call repeats the answer of that Shutdown. */
  lemma ShutdownIsFinal(cfg: Config, world: World, before: seq<Call>, ended: Option<string>, after: seq<Call>,
                        next: Call)
    requires !Run(cfg, world, EMPTY, before).shutdown
    ensures var first := Step(cfg, world, Run(cfg, world, EMPTY, before), ShutdownCall(ended));
            var end := Run(cfg, world, EMPTY, before + [ShutdownCall(ended)] + after);
            && end == first.0
            && Step(cfg, world, end, next)
               == (end, if next.ExportCall? then [Error(Exporting, Fault("exporter_closed", false, true))] else first.1)
  {
    var s := Run(cfg, world, EMPTY, before);
    var down := ShutdownCall(ended);
    RunAppend(cfg, world, EMPTY, before, [down]);
    assert Run(cfg, world, s, [down]) == Run(cfg, world, Step(cfg, world, s, down).0, []);
    RunAppend(cfg, world, EMPTY, before + [down], after);
    NothingAfterShutdown(cfg, world, Step(cfg, world, s, down).0, after);
  }

  function NameOf(call: Call): Operation {
    match call
    case ExportCall(_, _) => Exporting
    case FlushCall(_) => Flushing
    case ShutdownCall(_) => ShuttingDown
  }

  /** Every error of an answer names the call, but for those about observations too large alone. */
  lemma AnswersNameTheCall(cfg: Config, world: World, s: Store, call: Call, i: nat)
    requires !s.shutdown && i < |Step(cfg, world, s, call).1|
    ensures var e := Step(cfg, world, s, call).1[i];
            e.operation == NameOf(call) || e == Error(Preparing, Fault("payload_too_large", false, true))
  {
    match call
    case ExportCall(ended, batch) => DrainAnswers(cfg, world, Exporting, ended, Accept(s, batch));
    case FlushCall(ended) => DrainAnswers(cfg, world, Flushing, ended, s);
    case ShutdownCall(ended) => DrainAnswers(cfg, world, ShuttingDown, ended, s.(shutdown := true));
  }

  /** Before a shutdown every Export, even one whose context is done, puts its whole batch into the
      queue; nothing else does, and only a Shutdown shuts the exporter down, whatever it answers. */
  lemma OnlyExportsAccept(cfg: Config, world: World, s: Store, call: Call)
    requires !s.shutdown
    ensures var after := Step(cfg, world, s, call).0;
            && after.past.accepted
               == s.past.accepted + (if call.ExportCall? then Numbered(call.batch, |s.past.accepted|) else [])
            && (after.shutdown <==> call.ShutdownCall?)
  {
  }

  // ----- Why an observation left the queue.

  /** Only what cannot be sent is skipped; only what can be sent is acknowledged or cleared. */
  ghost predicate RightlyGone(cfg: Config, s: Store) {
    && (forall o :: o in s.past.skipped ==> !CanBeSent(cfg, o))
    && (forall o :: o in s.past.acknowledged ==> CanBeSent(cfg, o))
    && (forall o :: o in s.past.cleared ==> CanBeSent(cfg, o))
  }

  lemma {:induction false} OnlyMembers(cfg: Config, pending: seq<Observation>, sendable: bool)
    ensures forall o :: o in Only(cfg, pending, sendable) ==> CanBeSent(cfg, o) == sendable
  {
    if pending != [] { OnlyMembers(cfg, pending[..|pending| - 1], sendable); }
  }

  lemma DrainRightly(cfg: Config, world: World, op: Operation, ended: Option<string>, s: Store)
    requires RightlyGone(cfg, s) && ValidOptions(cfg.redaction)
    ensures RightlyGone(cfg, Drain(cfg, world, op, ended, s).0)
  {
    var groups := Groups(cfg, s.pending);
    var k := SendAll(cfg, world, groups, s.at).done;
    SendAllDone(cfg, world, groups, s.at);
    GroupsSplit(cfg, s.pending, k);
    var delivered, rest := Observations(Flatten(groups[..k])), Observations(Flatten(groups[k..]));
    assert forall o :: o in delivered || o in rest ==> o in delivered + rest;
    OnlyMembers(cfg, s.pending, true);
    OnlyMembers(cfg, s.pending, false);
  }

  /** Over any run with a valid redaction limit: an observation is skipped only for having no
      end time or being too large alone, and never otherwise acknowledged or cleared. */
  lemma {:induction false} RunRightly(cfg: Config, world: World, s: Store, calls: seq<Call>)
    requires RightlyGone(cfg, s) && ValidOptions(cfg.redaction)
    ensures RightlyGone(cfg, Run(cfg, world, s, calls))
    decreases |calls|
  {
    if calls != [] {
      match calls[0] {
        case ExportCall(ended, batch) => DrainRightly(cfg, world, Exporting, ended, Accept(s, batch));
        case FlushCall(ended) => DrainRightly(cfg, world, Flushing, ended, s);
        case ShutdownCall(ended) => DrainRightly(cfg, world, ShuttingDown, ended, s.(shutdown := true));
      }
      RunRightly(cfg, world, Step(cfg, world, s, calls[0]).0, calls[1..]);
    }
  }
}
