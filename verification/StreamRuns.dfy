/** What holds of every run of a stream handle. */
module StreamRuns {
  import opened Model
  import opened Streams

  // ----- Exported once, with the events of the calls before.

  predicate NoTerminal(calls: seq<Call>) { forall i :: 0 <= i < |calls| ==> !Terminal(calls[i]) }

  predicate HasFirstToken(calls: seq<Call>) { exists i :: 0 <= i < |calls| && calls[i].FirstToken? }

  /** The calls that add an event: the chunks and the first FirstToken. */
  function Adding(calls: seq<Call>): seq<Call> {
    if calls == [] then []
    else
      var n := |calls| - 1;
      var adds := calls[n].Chunk? || (calls[n].FirstToken? && !HasFirstToken(calls[..n]));
      Adding(calls[..n]) + if adds then [calls[n]] else []
  }

  function Events(event: Call -> Observation, calls: seq<Call>): (os: seq<Observation>)
    ensures |os| == |calls|
  {
    seq(|calls|, i requires 0 <= i < |calls| => event(calls[i]))
  }

  lemma HasFirstTokenSnoc(calls: seq<Call>, call: Call)
    ensures HasFirstToken(calls + [call]) <==> HasFirstToken(calls) || call.FirstToken?
  {
    if HasFirstToken(calls) {
      var i :| 0 <= i < |calls| && calls[i].FirstToken?;
      assert (calls + [call])[i].FirstToken?;
    }
    assert (calls + [call])[|calls|] == call;
  }

  lemma {:induction false} RunCollects(event: Call -> Observation, ms: Call -> int, calls: seq<Call>)
    requires NoTerminal(calls)
    ensures var p := Run(event, ms, FRESH, calls);
            !p.ended && p.events == Events(event, Adding(calls)) && (p.firstTokenEmitted <==> HasFirstToken(calls))
  {
    if calls != [] {
      var n := |calls| - 1;
      RunCollects(event, ms, calls[..n]);
      HasFirstTokenSnoc(calls[..n], calls[n]);
      assert calls[..n] + [calls[n]] == calls;
      assert !Terminal(calls[n]);
    }
  }

  lemma {:induction false} EndedStays(event: Call -> Observation, ms: Call -> int, p: Progress, calls: seq<Call>,
                                      i: nat)
    requires i <= |calls| && Run(event, ms, p, calls[..i]).ended
    ensures Run(event, ms, p, calls) == Run(event, ms, p, calls[..i])
    decreases |calls|
  {
    if i == |calls| {
      assert calls[..i] == calls;
    } else {
      var n := |calls| - 1;
      assert calls[..n][..i] == calls[..i];
      EndedStays(event, ms, p, calls[..n], i);
    }
  }

  predicate FirstTerminal(calls: seq<Call>, k: nat) { k < |calls| && Terminal(calls[k]) && NoTerminal(calls[..k]) }

  lemma EndedAfter(event: Call -> Observation, ms: Call -> int, calls: seq<Call>, k: nat, i: nat)
    requires FirstTerminal(calls, k) && k < i <= |calls|
    ensures Run(event, ms, FRESH, calls[..i]).ended
  {
    RunCollects(event, ms, calls[..k]);
    assert calls[..k + 1][..k] == calls[..k];
    assert calls[..i][..k + 1] == calls[..k + 1];
    EndedStays(event, ms, FRESH, calls[..i], k + 1);
  }

  /** Which calls export: the first End or Error, and no other. */
  lemma ExportsOnce(event: Call -> Observation, ms: Call -> int, calls: seq<Call>, k: nat, i: nat)
    requires FirstTerminal(calls, k) && i < |calls|
    ensures Advance(event, ms, Run(event, ms, FRESH, calls[..i]), calls[i]).1 <==> i == k
  {
    if i < k {
      assert calls[..k][i] == calls[i];
    } else if i > k {
      EndedAfter(event, ms, calls, k, i);
    } else {
      RunCollects(event, ms, calls[..k]);
    }
  }

  /** However calls interleave, the first End or Error, and no other call, exports: at most
      one observation. Its events are those of the chunk and first-token calls before it, in
      order, and at the end one cancellation event exactly when it is a cancellation. */
  lemma ExportedOnce(h: Handle, calls: seq<Call>, k: nat, i: nat)
    requires FirstTerminal(calls, k) && i < |calls|
    ensures ExportAt(h, FRESH, calls, i).Some? <==> i == k
    ensures var o := ExportAt(h, FRESH, calls, k);
            o.Some? && o.value.events ==
              Events(EventMaker(h), Adding(calls[..k]) + if StatusOf(calls[k]) == "canceled" then [calls[k]] else [])
  {
    ExportsOnce(EventMaker(h), Timer(h), calls, k, i);
    ExportsOnce(EventMaker(h), Timer(h), calls, k, k);
    RunCollects(EventMaker(h), Timer(h), calls[..k]);
    EventsOfLast(EventMaker(h), Timer(h), Run(EventMaker(h), Timer(h), FRESH, calls[..k]),
                 Adding(calls[..k]), calls[k]);
  }

  lemma EventsOfLast(event: Call -> Observation, ms: Call -> int, p: Progress, adding: seq<Call>, call: Call)
    requires Terminal(call) && !p.ended && p.events == Events(event, adding)
    ensures Advance(event, ms, p, call).0.events
         == Events(event, adding + if StatusOf(call) == "canceled" then [call] else [])
  {
  }

  /** With no End or Error nothing is exported, and a handle that began ended never exports. */
  lemma NothingToExport(h: Handle, calls: seq<Call>, i: nat)
    requires i < |calls|
    ensures NoTerminal(calls) ==> ExportAt(h, FRESH, calls, i) == None
    ensures ExportAt(h, DEAD, calls, i) == None
  {
    assert calls[..i][..0] == [];
    EndedStays(EventMaker(h), Timer(h), DEAD, calls[..i], 0);
  }

  predicate OneFirstToken(calls: seq<Call>) {
    forall i, j :: 0 <= i < j < |calls| ==> calls[i].Chunk? || calls[j].Chunk?
  }

  /** The chunk calls, in order. */
  function Chunks(calls: seq<Call>): seq<Call> {
    if calls == [] then []
    else Chunks(calls[..|calls| - 1]) + if calls[|calls| - 1].Chunk? then [calls[|calls| - 1]] else []
  }

  /** The calls that add an event are all the chunks, in order, and at most one FirstToken,
      which is there exactly when there is one at all. */
  lemma {:induction false} AddingLaws(calls: seq<Call>)
    ensures forall i :: 0 <= i < |Adding(calls)| ==> Adding(calls)[i].Chunk? || Adding(calls)[i].FirstToken?
    ensures OneFirstToken(Adding(calls)) && (HasFirstToken(Adding(calls)) <==> HasFirstToken(calls))
    ensures Chunks(Adding(calls)) == Chunks(calls)
  {
    if calls != [] {
      var n := |calls| - 1;
      var before := Adding(calls[..n]);
      AddingLaws(calls[..n]);
      HasFirstTokenSnoc(calls[..n], calls[n]);
      HasFirstTokenSnoc(before, calls[n]);
      assert calls[..n] + [calls[n]] == calls;
      if Adding(calls) != before {
        assert Adding(calls) == before + [calls[n]];
        assert (before + [calls[n]])[..|before|] == before;
      }
    }
  }

  /** A handle opened without a provider or a model never exports; any other begins with no event. */
  lemma OpenedWithout(o: Opening, calls: seq<Call>, i: nat)
    requires i < |calls|
    ensures o.provider == "" || o.model == "" ==> ExportAt(StartStream(o).0, StartStream(o).1, calls, i) == None
    ensures o.provider != "" && o.model != "" ==> StartStream(o).1 == FRESH
  {
    NothingToExport(StartStream(o).0, calls, i);
  }
}
