/** Where the recorder's spans are: none is lost, repeated or changed, and order is kept. */
module RecorderSpans {
  import opened Model
  import opened Recorder
  import opened RecorderRuns

  // ----- Conservation.

  /** A drop after shutdown is of a span that was never numbered. */
  function NumberedDrops(dropped: seq<Dropped>): seq<Span> {
    if dropped == [] then []
    else
      var last := dropped[|dropped| - 1];
      NumberedDrops(dropped[..|dropped| - 1]) + if last.reason.AfterShutdown? then [] else [last.span]
  }

  /** The numbered spans that are anywhere but in the queue. */
  function Outside(s: Store): multiset<Span> {
    multiset(s.recorded) + multiset(NumberedDrops(s.dropped)) + multiset(s.discarded)
  }

  function Places(s: Store): multiset<Span> { Outside(s) + multiset(s.pending) }

  /** The numbered spans are exactly where a store has them, each once. */
  ghost predicate Conserved(s: Store) { Places(s) == multiset(s.stamped) }

  /** What was numbered in between is what was added to the places. */
  ghost predicate Balanced(s: Store, after: Store) {
    Places(after) + multiset(s.stamped) == Places(s) + multiset(after.stamped)
  }

  lemma Balances<T>(places0: multiset<T>, stamped0: multiset<T>, places1: multiset<T>, stamped1: multiset<T>,
                    places2: multiset<T>, stamped2: multiset<T>)
    requires places1 + stamped0 == places0 + stamped1 && places2 + stamped1 == places1 + stamped2
    ensures places2 + stamped0 == places0 + stamped2
  {
    forall x ensures places2[x] + stamped0[x] == places0[x] + stamped2[x] {
      assert (places1 + stamped0)[x] == (places0 + stamped1)[x] && (places2 + stamped1)[x] == (places1 + stamped2)[x];
    }
    forall x ensures (places2 + stamped0)[x] == (places0 + stamped2)[x] {
      assert places2[x] + stamped0[x] == places0[x] + stamped2[x];
    }
  }

  lemma DropOutside(s: Store, span: Span, reason: Reason, e: ObsError)
    ensures Outside(DropSpan(s, span, reason, e))
         == Outside(s) + if reason.AfterShutdown? then multiset{} else multiset{span}
  {
    var d := Dropped(span, reason, e);
    assert (s.dropped + [d])[..|s.dropped|] == s.dropped;
  }

  lemma KeepOutside(s: Store, span: Span, origin: Origin)
    ensures Outside(KeepSpan(s, span, origin)) == Outside(s) + multiset{span}
  {
  }

  /** Loops that do not take from the queue. */
  predicate Adds(each: Each) { each.Accepting? || each.Closing? || each.Queueing? || each.Refusing? }

  lemma AcceptBalanced(cfg: Config, s: Store, span: Span, op: Operation)
    ensures Balanced(s, Accept(cfg, s, span, op))
  {
    var next := Number(s, span);
    var stamped := Stamp(span, next.sequence);
    DropOutside(next, stamped, OverCapacity, CapacityError(op));
    KeepOutside(next, stamped, Direct);
  }

  lemma EnqueueBalanced(s: Store, span: Span)
    ensures Balanced(s, Enqueue(s, span))
  {
  }

  lemma RefuseBalanced(s: Store, span: Span, e: ObsError)
    ensures Balanced(s, DropNumbered(s, span, e))
  {
    var next := Number(s, span);
    DropOutside(next, Stamp(span, next.sequence), Injected, e);
  }

  lemma HandleBalanced(cfg: Config, each: Each, s: Store, span: Span)
    requires Adds(each)
    ensures Balanced(s, Handle(cfg, each, s, span))
  {
    match each
    case Accepting => AcceptBalanced(cfg, s, span, Exporting);
    case Closing => DropOutside(s, span, AfterShutdown, CLOSED);
    case Queueing => EnqueueBalanced(s, span);
    case Refusing(e) => RefuseBalanced(s, span, e);
  }

  lemma BalanceChains(a: Store, b: Store, c: Store)
    requires Balanced(a, b) && Balanced(b, c)
    ensures Balanced(a, c)
  {
    Balances(Places(a), multiset(a.stamped), Places(b), multiset(b.stamped), Places(c), multiset(c.stamped));
  }

  lemma {:induction false} LoopBalanced(cfg: Config, each: Each, s: Store, spans: seq<Span>)
    requires Adds(each)
    ensures Balanced(s, HandleAll(cfg, each, s, spans))
  {
    if spans != [] {
      var n := |spans| - 1;
      LoopBalanced(cfg, each, s, spans[..n]);
      HandleBalanced(cfg, each, HandleAll(cfg, each, s, spans[..n]), spans[n]);
      BalanceChains(s, HandleAll(cfg, each, s, spans[..n]), HandleAll(cfg, each, s, spans));
    }
  }

  lemma BalanceConserves(s: Store, after: Store)
    requires Conserved(s) && Balanced(s, after)
    ensures Conserved(after)
  {
    forall x ensures Places(after)[x] == multiset(after.stamped)[x] {
      assert (Places(after) + multiset(s.stamped))[x] == (Places(s) + multiset(after.stamped))[x];
    }
  }

  /** Loops that take from the queue. */
  predicate Takes(each: Each) { each.Delivering? || each.Losing? }

  lemma LoseOutside(s: Store, span: Span, e: ObsError, after: Store)
    requires after == DropSpan(s, span, Injected, e)
    ensures Outside(after) == Outside(s) + multiset{span} && after.stamped == s.stamped
  {
    DropOutside(s, span, Injected, e);
  }

  lemma DeliverOutside(cfg: Config, s: Store, span: Span, after: Store)
    requires after == Deliver(cfg, s, span)
    ensures Outside(after) == Outside(s) + multiset{span} && after.stamped == s.stamped
  {
    if Full(cfg, s) {
      DropOutside(s, span, OverCapacity, CapacityError(Flushing));
    } else {
      KeepOutside(s, span, Delivered);
    }
  }

  lemma TakeOutside(cfg: Config, each: Each, s: Store, span: Span, after: Store)
    requires Takes(each) && after == Handle(cfg, each, s, span)
    ensures Outside(after) == Outside(s) + multiset{span} && after.stamped == s.stamped
  {
    if each.Delivering? { DeliverOutside(cfg, s, span, after); } else { LoseOutside(s, span, each.error, after); }
  }

  lemma MultisetSnoc<T>(xs: seq<T>)
    requires xs != []
    ensures multiset(xs) == multiset(xs[..|xs| - 1]) + multiset{xs[|xs| - 1]}
  {
    assert xs == xs[..|xs| - 1] + [xs[|xs| - 1]];
  }

  /** They move every span out of the queue, to one place. */
  lemma {:induction false} TakeLoop(cfg: Config, each: Each, s: Store, spans: seq<Span>)
    requires Takes(each)
    ensures Outside(HandleAll(cfg, each, s, spans)) == Outside(s) + multiset(spans)
    ensures HandleAll(cfg, each, s, spans).stamped == s.stamped
  {
    if spans != [] {
      var n := |spans| - 1;
      TakeLoop(cfg, each, s, spans[..n]);
      TakeOutside(cfg, each, HandleAll(cfg, each, s, spans[..n]), spans[n], HandleAll(cfg, each, s, spans));
      MultisetSnoc(spans);
    }
  }

  /** A queue emptied by such a loop. */
  lemma TakenConserved(cfg: Config, each: Each, s: Store, after: Store)
    requires Takes(each) && Conserved(s) && after.pending == [] && after.stamped == s.stamped
    requires Outside(after) == Outside(HandleAll(cfg, each, s, s.pending))
    ensures Conserved(after)
  {
    TakeLoop(cfg, each, s, s.pending);
  }

  // ----- Conservation by the critical sections.

  lemma FlushConserves(cfg: Config, s: Store)
    requires Conserved(s)
    ensures Conserved(CommitFlush(cfg, s).0)
  {
    var counted := CountCall(s, Exporting);
    if s.pending != [] {
      match Matching(cfg.onExport, Count(counted, Exporting)) {
        case Some(f) => FailResendConserves(cfg, counted, f);
        case None =>
          TakeLoop(cfg, Delivering, counted, s.pending);
          TakenConserved(cfg, Delivering, counted, Resend(cfg, counted).0);
      }
    }
  }

  lemma FailResendConserves(cfg: Config, s: Store, f: Failure)
    requires Conserved(s)
    ensures Conserved(FailResend(cfg, s, f).0)
  {
    var e := InjectedError(Exporting, f);
    if !e.retryable || e.dropped {
      TakeLoop(cfg, Losing(e), s, s.pending);
      TakenConserved(cfg, Losing(e), s, FailResend(cfg, s, f).0);
    }
  }

  lemma ShutdownConserves(s: Store)
    requires Conserved(s)
    ensures Conserved(CommitShutdown(s).0)
  {
    assert multiset(s.discarded + s.pending) == multiset(s.discarded) + multiset(s.pending);
  }

  lemma InjectedExportConserves(cfg: Config, s: Store, f: Failure, spans: seq<Span>)
    requires Conserved(s)
    ensures Conserved(CommitInjectedExport(cfg, s, f, spans).0)
  {
    var e := InjectedError(Exporting, f);
    var each := if e.retryable && !e.dropped then Queueing else Refusing(e);
    LoopBalanced(cfg, each, s, spans);
    BalanceConserves(s, HandleAll(cfg, each, s, spans));
  }

  lemma ExportConserves(cfg: Config, s: Store, spans: seq<Span>)
    requires Conserved(s)
    ensures Conserved(CommitExport(cfg, s, spans).0)
  {
    var each := if s.shutdown then Closing else Accepting;
    LoopBalanced(cfg, each, s, spans);
    BalanceConserves(s, HandleAll(cfg, each, s, spans));
  }

  lemma RecordConserves(cfg: Config, s: Store, span: Span)
    requires Conserved(s)
    ensures Conserved(CommitRecord(cfg, s, span).0)
  {
    AcceptBalanced(cfg, s, span, Recording);
    BalanceConserves(s, Accept(cfg, s, span, Recording));
  }

  /** No critical section loses, repeats or changes a numbered span. */
  /** What moves no span keeps conservation. */
  lemma BooksConserve(s: Store, after: Store)
    requires Conserved(s) && after.recorded == s.recorded && after.pending == s.pending && after.dropped == s.dropped
    requires after.discarded == s.discarded && after.stamped == s.stamped
    ensures Conserved(after)
  {
  }

  lemma ConservedInvariant(cfg: Config)
    ensures Invariant(cfg, Conserved)
  {
    assert Conserved(EMPTY);
    forall s | Conserved(s) ensures KeptBySections(cfg, s, Conserved) {
      forall span ensures Conserved(CommitRecord(cfg, s, span).0) { RecordConserves(cfg, s, span); }
      forall f, spans ensures Conserved(CommitInjectedExport(cfg, s, f, spans).0) {
        InjectedExportConserves(cfg, s, f, spans);
      }
      forall spans ensures Conserved(CommitExport(cfg, s, spans).0) { ExportConserves(cfg, s, spans); }
      forall epoch, call ensures Conserved(Begin(epoch, s, call).0) { BooksConserve(s, Begin(epoch, s, call).0); }
      forall call, e ensures Conserved(Report(s, call, e).0) { BooksConserve(s, Report(s, call, e).0); }
      FlushConserves(cfg, s);
      ShutdownConserves(s);
    }
  }

  // ----- Numbers.

  function Mapped<T>(number: T -> int, xs: seq<T>): (ns: seq<int>)
    ensures |ns| == |xs| && forall i :: 0 <= i < |xs| ==> ns[i] == number(xs[i])
  {
    seq(|xs|, i requires 0 <= i < |xs| => number(xs[i]))
  }

  function Stamps(spans: seq<Span>): (ns: seq<int>)
    ensures |ns| == |spans| && forall i :: 0 <= i < |spans| ==> ns[i] == StampOf(spans[i])
  {
    Mapped(StampOf, spans)
  }

  /** The i-th span numbered carries the number i, and its events theirs. */
  ghost predicate Numbered(s: Store) {
    && |s.stamped| == s.sequence
    && (forall i :: 0 <= i < |s.stamped| ==> StampOf(s.stamped[i]) == i + 1)
    && forall x :: x in s.stamped ==> EventsNumbered(x)
  }

  lemma NumberKeeps(s: Store, span: Span)
    requires Numbered(s)
    ensures Numbered(Number(s, span))
  {
    StampLaws(span, s.sequence + 1, Stamp(span, s.sequence + 1));
  }

  lemma {:induction false} LoopNumbers(cfg: Config, each: Each, s: Store, spans: seq<Span>)
    requires Numbered(s)
    ensures Numbered(HandleAll(cfg, each, s, spans))
  {
    if spans != [] {
      var n := |spans| - 1;
      LoopNumbers(cfg, each, s, spans[..n]);
      NumberKeeps(HandleAll(cfg, each, s, spans[..n]), spans[n]);
    }
  }

  lemma FlushNumbers(cfg: Config, s: Store)
    requires Numbered(s)
    ensures Numbered(CommitFlush(cfg, s).0)
  {
    var counted := CountCall(s, Exporting);
    LoopNumbers(cfg, Delivering, counted, s.pending);
    match Matching(cfg.onExport, Count(counted, Exporting)) {
      case Some(f) => LoopNumbers(cfg, Losing(InjectedError(Exporting, f)), counted, s.pending);
      case None =>
    }
  }

  lemma InjectedExportNumbers(cfg: Config, s: Store, f: Failure, spans: seq<Span>)
    requires Numbered(s)
    ensures Numbered(CommitInjectedExport(cfg, s, f, spans).0)
  {
    var e := InjectedError(Exporting, f);
    LoopNumbers(cfg, if e.retryable && !e.dropped then Queueing else Refusing(e), s, spans);
  }

  lemma NumberedInvariant(cfg: Config)
    ensures Invariant(cfg, Numbered)
  {
    assert Numbered(EMPTY);
    forall s | Numbered(s) ensures KeptBySections(cfg, s, Numbered) {
      forall span ensures Numbered(CommitRecord(cfg, s, span).0) { NumberKeeps(s, span); }
      forall f, spans ensures Numbered(CommitInjectedExport(cfg, s, f, spans).0) {
        InjectedExportNumbers(cfg, s, f, spans);
      }
      forall spans ensures Numbered(CommitExport(cfg, s, spans).0) {
        LoopNumbers(cfg, Closing, s, spans);
        LoopNumbers(cfg, Accepting, s, spans);
      }
      FlushNumbers(cfg, s);
    }
  }

  lemma {:induction false} NumberedOnce(stamped: seq<Span>, span: Span)
    requires forall i :: 0 <= i < |stamped| ==> StampOf(stamped[i]) == i + 1
    ensures multiset(stamped)[span] == if span in stamped then 1 else 0
  {
    if stamped != [] {
      var n := |stamped| - 1;
      NumberedOnce(stamped[..n], span);
      MultisetSnoc(stamped);
      assert stamped == stamped[..n] + [stamped[n]];
    }
  }

  lemma AlwaysConserved(cfg: Config, steps: seq<Step>)
    ensures Conserved(Run(cfg, INITIAL, steps).store)
  {
    ConservedInvariant(cfg);
    RunKeeps(cfg, Conserved, INITIAL, steps);
  }

  lemma AlwaysNumbered(cfg: Config, steps: seq<Step>)
    ensures Numbered(Run(cfg, INITIAL, steps).store)
  {
    NumberedInvariant(cfg);
    RunKeeps(cfg, Numbered, INITIAL, steps);
  }

  /** Span conservation, over every interleaving. The spans numbered in the epoch carry 1, 2
      and so on; each of them, unchanged, is in exactly one place among the recorded, the
      pending, the numbered dropped and those a shutdown discarded, and nothing else is there. */
  lemma SpanConservation(cfg: Config, steps: seq<Step>, s: Store, span: Span)
    requires s == Run(cfg, INITIAL, steps).store
    ensures |s.stamped| == s.sequence && forall i :: 0 <= i < |s.stamped| ==> StampOf(s.stamped[i]) == i + 1
    ensures forall x :: x in s.stamped ==> EventsNumbered(x)
    ensures (multiset(s.recorded) + multiset(s.pending)
             + multiset(NumberedDrops(s.dropped)) + multiset(s.discarded))[span]
         == if span in s.stamped then 1 else 0
  {
    AlwaysConserved(cfg, steps);
    AlwaysNumbered(cfg, steps);
    NumberedOnce(s.stamped, span);
    assert Places(s)[span] == multiset(s.stamped)[span];
  }

  // ----- The same for the numbers alone.

  lemma Without<T>(xs: seq<T>, j: nat)
    requires j < |xs|
    ensures multiset(xs) == multiset(xs[..j] + xs[j + 1..]) + multiset{xs[j]}
  {
    assert xs == xs[..j] + [xs[j]] + xs[j + 1..];
  }

  lemma MappedWithout<T>(number: T -> int, xs: seq<T>, j: nat)
    requires j < |xs|
    ensures multiset(Mapped(number, xs)) == multiset(Mapped(number, xs[..j] + xs[j + 1..])) + multiset{number(xs[j])}
  {
    var ns := Mapped(number, xs);
    Without(ns, j);
    assert Mapped(number, xs[..j] + xs[j + 1..]) == ns[..j] + ns[j + 1..];
  }

  lemma SameWithout<T>(xs: multiset<T>, ys: multiset<T>, x: T)
    requires xs + multiset{x} == ys + multiset{x}
    ensures xs == ys
  {
    assert (xs + multiset{x}) - multiset{x} == xs && (ys + multiset{x}) - multiset{x} == ys;
  }

  lemma StillSame<T>(xs: seq<T>, ys: seq<T>, j: nat)
    requires multiset(xs) == multiset(ys) && xs != [] && j < |ys| && ys[j] == xs[0]
    ensures multiset(xs[..0] + xs[1..]) == multiset(ys[..j] + ys[j + 1..])
  {
    Without(xs, 0);
    Without(ys, j);
    SameWithout(multiset(xs[..0] + xs[1..]), multiset(ys[..j] + ys[j + 1..]), xs[0]);
  }

  /** The same elements have the same numbers. */
  lemma {:induction false} SameNumbers<T>(number: T -> int, xs: seq<T>, ys: seq<T>)
    requires multiset(xs) == multiset(ys)
    ensures multiset(Mapped(number, xs)) == multiset(Mapped(number, ys))
    decreases |xs|
  {
    if xs == [] {
      assert |multiset(ys)| == 0;
    } else {
      assert xs[0] in multiset(ys);
      var j :| 0 <= j < |ys| && ys[j] == xs[0];
      StillSame(xs, ys, j);
      SameNumbers(number, xs[..0] + xs[1..], ys[..j] + ys[j + 1..]);
      MappedWithout(number, xs, 0);
      MappedWithout(number, ys, j);
    }
  }

  lemma AllPlaces(recorded: seq<Span>, pending: seq<Span>, drops: seq<Span>, discarded: seq<Span>, all: seq<Span>)
    requires all == recorded + pending + drops + discarded
    ensures multiset(all) == multiset(recorded) + multiset(pending) + multiset(drops) + multiset(discarded)
    ensures multiset(Stamps(all))
         == multiset(Stamps(recorded)) + multiset(Stamps(pending))
            + multiset(Stamps(drops)) + multiset(Stamps(discarded))
  {
    assert Stamps(all) == Stamps(recorded) + Stamps(pending) + Stamps(drops) + Stamps(discarded);
  }

  lemma {:induction false} CountingUp(ns: seq<int>, k: int)
    requires forall i :: 0 <= i < |ns| ==> ns[i] == i + 1
    ensures multiset(ns)[k] == if 1 <= k <= |ns| then 1 else 0
  {
    if ns != [] {
      var n := |ns| - 1;
      CountingUp(ns[..n], k);
      MultisetSnoc(ns);
    }
  }

  lemma NumbersConserved(s: Store, k: int)
    requires Conserved(s) && Numbered(s)
    ensures var places := multiset(Stamps(s.recorded)) + multiset(Stamps(s.pending))
                          + multiset(Stamps(NumberedDrops(s.dropped))) + multiset(Stamps(s.discarded));
            places[k] == if 1 <= k <= s.sequence then 1 else 0
  {
    var all := s.recorded + s.pending + NumberedDrops(s.dropped) + s.discarded;
    AllPlaces(s.recorded, s.pending, NumberedDrops(s.dropped), s.discarded, all);
    assert multiset(all) == Places(s);
    SameNumbers(StampOf, all, s.stamped);
    CountingUp(Stamps(s.stamped), k);
  }

  /** Sequence conservation, over every interleaving: the numbers 1 to `sequence` of the epoch
      are split without gap or repeat among the recorded, the pending, the numbered dropped
      spans and those a shutdown discarded. */
  lemma SequenceConservation(cfg: Config, steps: seq<Step>, k: int)
    ensures var s := Run(cfg, INITIAL, steps).store;
            var places := multiset(Stamps(s.recorded)) + multiset(Stamps(s.pending))
                          + multiset(Stamps(NumberedDrops(s.dropped))) + multiset(Stamps(s.discarded));
            places[k] == if 1 <= k <= s.sequence then 1 else 0
  {
    AlwaysConserved(cfg, steps);
    AlwaysNumbered(cfg, steps);
    NumbersConserved(Run(cfg, INITIAL, steps).store, k);
  }
}
