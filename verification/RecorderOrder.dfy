/** The order of the recorder's spans. */
module RecorderOrder {
  import opened Model
  import opened Recorder
  import opened RecorderRuns
  import opened RecorderSpans

  // ----- Order, on numbers alone.

  /** The numbers of the recorded spans, how each came in, the numbers in the queue, and the
      last number given. */
  datatype Line = Line(recorded: seq<int>, origins: seq<Origin>, queue: seq<int>, last: int)

  ghost predicate Increasing(ns: seq<int>) { forall i, j :: 0 <= i < j < |ns| ==> ns[i] < ns[j] }

  ghost predicate UpTo(ns: seq<int>, last: int) { forall i :: 0 <= i < |ns| ==> ns[i] <= last }

  /** Recorded spans of one origin are in the order of their numbers. */
  ghost predicate ByOrigin(recorded: seq<int>, origins: seq<Origin>) {
    && |origins| == |recorded|
    && forall i, j :: 0 <= i < j < |recorded| && origins[i] == origins[j] ==> recorded[i] < recorded[j]
  }

  /** What was delivered came before what waits. */
  ghost predicate DeliveredFirst(recorded: seq<int>, origins: seq<Origin>, queue: seq<int>)
    requires |origins| == |recorded|
  {
    forall i, j :: 0 <= i < |recorded| && origins[i] == Delivered && 0 <= j < |queue| ==> recorded[i] < queue[j]
  }

  ghost predicate Ordered(l: Line) {
    && ByOrigin(l.recorded, l.origins) && DeliveredFirst(l.recorded, l.origins, l.queue)
    && Increasing(l.queue) && UpTo(l.recorded, l.last) && UpTo(l.queue, l.last)
  }

  function Taken(l: Line): Line { l.(last := l.last + 1) }

  function RecordedNext(l: Line): Line {
    Line(l.recorded + [l.last + 1], l.origins + [Direct], l.queue, l.last + 1)
  }

  function QueuedNext(l: Line): Line { Line(l.recorded, l.origins, l.queue + [l.last + 1], l.last + 1) }

  function HeadDelivered(l: Line): Line
    requires l.queue != []
  {
    Line(l.recorded + [l.queue[0]], l.origins + [Delivered], l.queue[1..], l.last)
  }

  lemma TakenOrdered(l: Line)
    requires Ordered(l)
    ensures Ordered(Taken(l))
  {
  }

  lemma RecordedNextOrdered(l: Line)
    requires Ordered(l)
    ensures Ordered(RecordedNext(l))
  {
    var n := RecordedNext(l);
    assert ByOrigin(n.recorded, n.origins);
    assert DeliveredFirst(n.recorded, n.origins, n.queue);
    assert UpTo(n.recorded, n.last) && UpTo(n.queue, n.last);
  }

  lemma QueuedNextOrdered(l: Line)
    requires Ordered(l)
    ensures Ordered(QueuedNext(l))
  {
    var n := QueuedNext(l);
    assert Increasing(n.queue);
    assert DeliveredFirst(n.recorded, n.origins, n.queue);
    assert UpTo(n.recorded, n.last) && UpTo(n.queue, n.last);
  }

  lemma HeadDeliveredOrdered(l: Line)
    requires Ordered(l) && l.queue != []
    ensures Ordered(HeadDelivered(l))
  {
    var n := HeadDelivered(l);
    assert ByOrigin(n.recorded, n.origins);
    assert DeliveredFirst(n.recorded, n.origins, n.queue);
    assert Increasing(n.queue) && UpTo(n.recorded, n.last) && UpTo(n.queue, n.last);
  }

  lemma HeadLostOrdered(l: Line)
    requires Ordered(l) && l.queue != []
    ensures Ordered(l.(queue := l.queue[1..]))
  {
    var n := l.(queue := l.queue[1..]);
    assert Increasing(n.queue) && UpTo(n.queue, n.last);
    assert DeliveredFirst(n.recorded, n.origins, n.queue);
  }

  lemma EmptiedOrdered(l: Line)
    requires Ordered(l)
    ensures Ordered(l.(queue := []))
  {
  }

  // ----- One span of a loop.

  function LineWith(s: Store, queue: seq<int>): Line { Line(Stamps(s.recorded), s.origins, queue, s.sequence) }

  function LineOf(s: Store): Line { LineWith(s, Stamps(s.pending)) }

  lemma StampsSnoc(spans: seq<Span>, span: Span)
    ensures Stamps(spans + [span]) == Stamps(spans) + [StampOf(span)]
  {
  }

  lemma AcceptLine(cfg: Config, s: Store, span: Span, op: Operation)
    ensures LineOf(Accept(cfg, s, span, op)) == if Full(cfg, s) then Taken(LineOf(s)) else RecordedNext(LineOf(s))
  {
    StampReadsBack(span, s.sequence + 1);
    StampsSnoc(s.recorded, Stamp(span, s.sequence + 1));
  }

  lemma AcceptOrdered(cfg: Config, s: Store, span: Span, op: Operation)
    requires Ordered(LineOf(s))
    ensures Ordered(LineOf(Accept(cfg, s, span, op)))
  {
    AcceptLine(cfg, s, span, op);
    TakenOrdered(LineOf(s));
    RecordedNextOrdered(LineOf(s));
  }

  lemma EnqueueOrdered(s: Store, span: Span)
    requires Ordered(LineOf(s))
    ensures Ordered(LineOf(Enqueue(s, span)))
  {
    StampReadsBack(span, s.sequence + 1);
    StampsSnoc(s.pending, Stamp(span, s.sequence + 1));
    QueuedNextOrdered(LineOf(s));
    assert LineOf(Enqueue(s, span)) == QueuedNext(LineOf(s));
  }

  lemma AddOrdered(cfg: Config, each: Each, s: Store, span: Span)
    requires Adds(each) && Ordered(LineOf(s))
    ensures Ordered(LineOf(Handle(cfg, each, s, span)))
  {
    match each
    case Accepting => AcceptOrdered(cfg, s, span, Exporting);
    case Closing =>
    case Queueing => EnqueueOrdered(s, span);
    case Refusing(e) => TakenOrdered(LineOf(s));
  }

  lemma {:induction false} AddLoopOrdered(cfg: Config, each: Each, s: Store, spans: seq<Span>)
    requires Adds(each) && Ordered(LineOf(s))
    ensures Ordered(LineOf(HandleAll(cfg, each, s, spans)))
  {
    if spans != [] {
      var n := |spans| - 1;
      AddLoopOrdered(cfg, each, s, spans[..n]);
      AddOrdered(cfg, each, HandleAll(cfg, each, s, spans[..n]), spans[n]);
    }
  }

  /** One span taken from the head of a queue of numbers. */
  lemma TakeStep(cfg: Config, each: Each, before: Store, queue: seq<int>, span: Span)
    requires Takes(each) && queue != [] && queue[0] == StampOf(span) && Ordered(LineWith(before, queue))
    ensures Ordered(LineWith(Handle(cfg, each, before, span), queue[1..]))
  {
    var l, after := LineWith(before, queue), Handle(cfg, each, before, span);
    StampsSnoc(before.recorded, span);
    assert LineWith(after, queue[1..]) == HeadDelivered(l) || LineWith(after, queue[1..]) == l.(queue := queue[1..]);
    HeadDeliveredOrdered(l);
    HeadLostOrdered(l);
  }

  /** After n spans the rest of the queue is still in order behind them. */
  lemma {:induction false} TakeLoopOrdered(cfg: Config, each: Each, s: Store, spans: seq<Span>, n: nat)
    requires Takes(each) && n <= |spans| && Ordered(LineWith(s, Stamps(spans)))
    ensures Ordered(LineWith(HandleAll(cfg, each, s, spans[..n]), Stamps(spans)[n..]))
  {
    if n == 0 {
      assert spans[..0] == [] && Stamps(spans)[0..] == Stamps(spans);
    } else {
      var m := n - 1;
      TakeLoopOrdered(cfg, each, s, spans, m);
      assert spans[..n][..m] == spans[..m] && Stamps(spans)[m..][1..] == Stamps(spans)[n..];
      TakeStep(cfg, each, HandleAll(cfg, each, s, spans[..m]), Stamps(spans)[m..], spans[m]);
    }
  }

  // ----- Critical sections.

  ghost predicate InLine(s: Store) { Ordered(LineOf(s)) }

  lemma SameLine(s: Store, t: Store)
    requires InLine(s) && LineOf(t) == LineOf(s)
    ensures InLine(t)
  {
  }

  lemma TakenInLine(cfg: Config, each: Each, s: Store, after: Store)
    requires Takes(each) && InLine(s) && after.pending == []
    requires LineWith(after, []) == LineWith(HandleAll(cfg, each, s, s.pending), [])
    ensures InLine(after)
  {
    TakeLoopOrdered(cfg, each, s, s.pending, |s.pending|);
    assert s.pending[..|s.pending|] == s.pending && Stamps(s.pending)[|s.pending|..] == [];
    assert Stamps(after.pending) == [];
  }

  lemma FailResendInLine(cfg: Config, s: Store, f: Failure)
    requires InLine(s)
    ensures InLine(FailResend(cfg, s, f).0)
  {
    var e := InjectedError(Exporting, f);
    var end := FailResend(cfg, s, f).0;
    if !e.retryable || e.dropped { TakenInLine(cfg, Losing(e), s, end); } else { SameLine(s, end); }
  }

  lemma FlushInLine(cfg: Config, s: Store)
    requires InLine(s)
    ensures InLine(CommitFlush(cfg, s).0)
  {
    var counted := CountCall(s, Exporting);
    SameLine(s, counted);
    var end := CommitFlush(cfg, s).0;
    if s.pending == [] {
      SameLine(s, end);
    } else {
      match Matching(cfg.onExport, Count(counted, Exporting)) {
        case Some(f) => FailResendInLine(cfg, counted, f);
        case None => TakenInLine(cfg, Delivering, counted, end);
      }
    }
  }

  lemma ShutdownInLine(s: Store)
    requires InLine(s)
    ensures InLine(CommitShutdown(s).0)
  {
    EmptiedOrdered(LineOf(s));
    assert LineOf(CommitShutdown(s).0) == LineOf(s).(queue := []);
  }

  lemma InjectedExportInLine(cfg: Config, s: Store, f: Failure, spans: seq<Span>)
    requires InLine(s)
    ensures InLine(CommitInjectedExport(cfg, s, f, spans).0)
  {
    var e := InjectedError(Exporting, f);
    var each := if e.retryable && !e.dropped then Queueing else Refusing(e);
    AddLoopOrdered(cfg, each, s, spans);
    SameLine(HandleAll(cfg, each, s, spans), CommitInjectedExport(cfg, s, f, spans).0);
  }

  lemma ExportInLine(cfg: Config, s: Store, spans: seq<Span>)
    requires InLine(s)
    ensures InLine(CommitExport(cfg, s, spans).0)
  {
    AddLoopOrdered(cfg, if s.shutdown then Closing else Accepting, s, spans);
  }

  lemma SameSpansInLine(cfg: Config, epoch: nat, s: Store, call: Call, e: ObsError)
    requires InLine(s)
    ensures InLine(Begin(epoch, s, call).0) && InLine(Report(s, call, e).0)
  {
    SameLine(s, Begin(epoch, s, call).0);
    SameLine(s, Report(s, call, e).0);
  }

  /** No critical section reorders spans. */
  lemma InLineInvariant(cfg: Config)
    ensures Invariant(cfg, InLine)
  {
    assert InLine(EMPTY) by { assert Stamps(EMPTY.pending) == [] && Stamps(EMPTY.recorded) == []; }
    forall s | InLine(s) ensures KeptBySections(cfg, s, InLine) {
      forall epoch, call ensures InLine(Begin(epoch, s, call).0) { SameSpansInLine(cfg, epoch, s, call, CLOSED); }
      forall call, e ensures InLine(Report(s, call, e).0) { SameSpansInLine(cfg, 0, s, call, e); }
      forall span ensures InLine(CommitRecord(cfg, s, span).0) { AcceptOrdered(cfg, s, span, Recording); }
      forall f, spans ensures InLine(CommitInjectedExport(cfg, s, f, spans).0) {
        InjectedExportInLine(cfg, s, f, spans);
      }
      forall spans ensures InLine(CommitExport(cfg, s, spans).0) { ExportInLine(cfg, s, spans); }
      FlushInLine(cfg, s);
      ShutdownInLine(s);
    }
  }

  /** Pending is strictly increasing in its numbers, and recorded is a merge of two strictly
      increasing sequences, one for each origin. */
  ghost predicate InOrder(s: Store) {
    && Increasing(Stamps(s.pending)) && |s.origins| == |s.recorded|
    && forall i, j :: 0 <= i < j < |s.recorded| && s.origins[i] == s.origins[j] ==>
         StampOf(s.recorded[i]) < StampOf(s.recorded[j])
  }

  /** Order is kept over every interleaving. */
  lemma OrderKept(cfg: Config, steps: seq<Step>)
    ensures InOrder(Run(cfg, INITIAL, steps).store)
  {
    InLineInvariant(cfg);
    RunKeeps(cfg, InLine, INITIAL, steps);
  }

  // ----- Recorded spans are never taken back.

  /** `later` continues `s` within its epoch; once full, it cannot change. */
  predicate Extends(cfg: Config, s: Store, later: Store) {
    s.recorded <= later.recorded && (Full(cfg, s) ==> later.recorded == s.recorded)
  }

  lemma {:induction false} LoopExtends(cfg: Config, each: Each, s: Store, spans: seq<Span>)
    ensures Extends(cfg, s, HandleAll(cfg, each, s, spans))
  {
    if spans != [] { LoopExtends(cfg, each, s, spans[..|spans| - 1]); }
  }

  lemma ExportExtends(cfg: Config, s: Store, spans: seq<Span>)
    ensures Extends(cfg, s, CommitExport(cfg, s, spans).0)
  {
    LoopExtends(cfg, Closing, s, spans);
    LoopExtends(cfg, Accepting, s, spans);
  }

  lemma InjectedExportExtends(cfg: Config, s: Store, f: Failure, spans: seq<Span>)
    ensures Extends(cfg, s, CommitInjectedExport(cfg, s, f, spans).0)
  {
    LoopExtends(cfg, Queueing, s, spans);
    LoopExtends(cfg, Refusing(InjectedError(Exporting, f)), s, spans);
  }

  lemma FlushExtends(cfg: Config, s: Store)
    ensures Extends(cfg, s, CommitFlush(cfg, s).0)
  {
    var counted := CountCall(s, Exporting);
    LoopExtends(cfg, Delivering, counted, s.pending);
    match Matching(cfg.onExport, Count(counted, Exporting))
    case Some(f) => LoopExtends(cfg, Losing(InjectedError(Exporting, f)), counted, s.pending);
    case None =>
  }

  lemma CommitExtends(cfg: Config, s: Store, l: Local)
    ensures Extends(cfg, s, CommitNow(cfg, s, l).0)
  {
    match l.call
    case RecordCall(_, _) =>
    case ExportCall(_, batch) =>
      ExportExtends(cfg, s, RedactAll(cfg, batch));
      match Matching(cfg.onExport, l.index) {
        case Some(f) => InjectedExportExtends(cfg, s, f, RedactAll(cfg, batch));
        case None =>
      }
    case FlushCall(_) => FlushExtends(cfg, s);
    case ShutdownCall(_) =>
  }

  /** Until the next Reset recorded spans only grow, and from the moment the store is full
      they never change. */
  lemma {:induction false} RecordedOnlyGrows(cfg: Config, sys: System, steps: seq<Step>)
    requires forall i :: 0 <= i < |steps| ==> !steps[i].Reset?
    ensures Extends(cfg, sys.store, Run(cfg, sys, steps).store)
    decreases |steps|
  {
    if steps != [] {
      var next := Next(cfg, sys, steps[0]);
      if steps[0].Finish? && steps[0].id in sys.running { CommitExtends(cfg, sys.store, sys.running[steps[0].id]); }
      RecordedOnlyGrows(cfg, next, steps[1..]);
    }
  }
}
