/** The recorder's books: its error history, counters, dirty flag and capacity. */
module RecorderBooks {
  import opened Numbers
  import opened Model
  import opened Recorder
  import opened RecorderRuns

  // ----- The bounded error history refines an unbounded log.

  /** The last entries of a log, at most `size` of them. */
  function Last<T>(log: seq<T>, size: nat): seq<T> { log[|log| - Min(|log|, size)..] }

  lemma LastSnoc<T>(log: seq<T>, e: T, size: nat)
    requires size > 0
    ensures Last(log + [e], size) == (if |log| >= size then Last(log, size)[1..] else log) + [e]
    ensures |Last(log, size)| == Min(|log|, size)
    ensures |log| < size ==> Last(log, size) == log
  {
  }

  ghost predicate RefinesLog(h: History) {
    var n := |h.log|;
    && h.errors == Last(h.log, HISTORY_SIZE)
    && h.droppedErrors == n - Min(n, HISTORY_SIZE)
    && h.lastError == if n == 0 then None else Some(h.log[n - 1])
  }

  lemma AppendRefines(h: History, e: ObsError)
    requires RefinesLog(h)
    ensures RefinesLog(Append(h, e))
  {
    LastSnoc(h.log, e, HISTORY_SIZE);
  }

  // ----- Counters.

  /** Each operation's count is its named counter, and attempts of one operation have
      increasing indexes, up to the count. */
  ghost predicate CountersAgree(c: Counters) {
    && CountIn(c, Recording) == c.record && CountIn(c, Exporting) == c.export_
    && CountIn(c, Flushing) == c.flush && CountIn(c, ShuttingDown) == c.shutdown
    && (forall i :: 0 <= i < |c.attempts| ==> 1 <= c.attempts[i].index <= CountIn(c, c.attempts[i].operation))
    && (forall i, j :: 0 <= i < j < |c.attempts| && c.attempts[i].operation == c.attempts[j].operation ==>
          c.attempts[i].index < c.attempts[j].index)
  }

  lemma IncrementAgrees(c: Counters, op: Operation)
    requires CountersAgree(c)
    ensures CountersAgree(Increment(c, op))
  {
    var after := Increment(c, op);
    forall other ensures CountIn(after, other) == CountIn(c, other) + if other == op then 1 else 0 {
    }
  }

  // ----- Everything together.

  ghost predicate InOrderBooks(cfg: Config, s: Store) {
    && RefinesLog(s.history) && CountersAgree(s.counters)
    && (cfg.capacity > 0 ==> |s.recorded| <= cfg.capacity)
    && (s.pending != [] ==> s.dirty)
  }

  /** What a loop over spans does to the books. */
  ghost predicate LoopBooks(cfg: Config, each: Each, s: Store, after: Store) {
    && RefinesLog(after.history) && after.counters == s.counters
    && (cfg.capacity > 0 ==> |after.recorded| <= cfg.capacity)
    && (s.dirty ==> after.dirty) && (!each.Queueing? ==> after.pending == s.pending)
  }

  lemma {:induction false} LoopKeepsBooks(cfg: Config, each: Each, s: Store, spans: seq<Span>)
    requires RefinesLog(s.history) && (cfg.capacity > 0 ==> |s.recorded| <= cfg.capacity)
    ensures LoopBooks(cfg, each, s, HandleAll(cfg, each, s, spans))
  {
    if spans != [] {
      var n := |spans| - 1;
      LoopKeepsBooks(cfg, each, s, spans[..n]);
      HandleKeepsBooks(cfg, each, s, HandleAll(cfg, each, s, spans[..n]), spans[n]);
    }
  }

  lemma HandleKeepsBooks(cfg: Config, each: Each, s: Store, before: Store, span: Span)
    requires LoopBooks(cfg, each, s, before)
    ensures LoopBooks(cfg, each, s, Handle(cfg, each, before, span))
  {
    match each
    case Accepting =>
      RecordingBooks(cfg, each, s, before, Number(before, span), Stamp(span, before.sequence + 1), Direct,
                     CapacityError(Exporting));
    case Closing => DroppingBooks(cfg, each, s, before, span, AfterShutdown, CLOSED);
    case Queueing =>
    case Refusing(e) =>
      DroppingBooks(cfg, each, s, Number(before, span), Stamp(span, before.sequence + 1), Injected, e);
    case Delivering => RecordingBooks(cfg, each, s, before, before, span, Delivered, CapacityError(Flushing));
    case Losing(e) => DroppingBooks(cfg, each, s, before, span, Injected, e);
  }

  lemma DroppingBooks(cfg: Config, each: Each, s: Store, before: Store, span: Span, reason: Reason, e: ObsError)
    requires LoopBooks(cfg, each, s, before)
    ensures LoopBooks(cfg, each, s, DropSpan(before, span, reason, e))
  {
    AppendRefines(before.history, e);
  }

  lemma RecordingBooks(cfg: Config, each: Each, s: Store, before: Store, next: Store, span: Span, origin: Origin,
                       e: ObsError)
    requires LoopBooks(cfg, each, s, before) && next == before.(sequence := next.sequence, stamped := next.stamped)
    ensures LoopBooks(cfg, each, s, if Full(cfg, next) then DropSpan(next, span, OverCapacity, e)
                                    else KeepSpan(next, span, origin))
  {
    if Full(cfg, next) { DroppingBooks(cfg, each, s, next, span, OverCapacity, e); }
  }

  lemma FlushBooks(cfg: Config, s: Store)
    requires InOrderBooks(cfg, s)
    ensures InOrderBooks(cfg, CommitFlush(cfg, s).0)
  {
    var counted := CountCall(s, Exporting);
    IncrementAgrees(s.counters, Exporting);
    LoopKeepsBooks(cfg, Delivering, counted, s.pending);
    match Matching(cfg.onExport, Count(counted, Exporting)) {
      case Some(f) => FailedResendBooks(cfg, counted, f);
      case None =>
    }
  }

  lemma FailedResendBooks(cfg: Config, s: Store, f: Failure)
    requires InOrderBooks(cfg, s)
    ensures InOrderBooks(cfg, FailResend(cfg, s, f).0)
  {
    var e := InjectedError(Exporting, f);
    LoopKeepsBooks(cfg, Losing(e), s, s.pending);
    AppendRefines(s.history, e);
    AppendRefines(HandleAll(cfg, Losing(e), s, s.pending).history, e);
  }

  lemma InjectedBooks(cfg: Config, s: Store, f: Failure, spans: seq<Span>)
    requires InOrderBooks(cfg, s)
    ensures InOrderBooks(cfg, CommitInjectedExport(cfg, s, f, spans).0)
  {
    var e := InjectedError(Exporting, f);
    var each := if e.retryable && !e.dropped then Queueing else Refusing(e);
    LoopKeepsBooks(cfg, each, s, spans);
    AppendRefines(HandleAll(cfg, each, s, spans).history, e);
  }

  lemma BeginBooks(cfg: Config, epoch: nat, s: Store, call: Call)
    requires InOrderBooks(cfg, s)
    ensures InOrderBooks(cfg, Begin(epoch, s, call).0)
  {
    IncrementAgrees(s.counters, OperationOf(call));
  }

  lemma ReportBooks(cfg: Config, s: Store, call: Call, e: ObsError)
    requires InOrderBooks(cfg, s)
    ensures InOrderBooks(cfg, Report(s, call, e).0)
  {
    AppendRefines(s.history, e);
  }

  lemma RecordBooks(cfg: Config, s: Store, span: Span)
    requires InOrderBooks(cfg, s)
    ensures InOrderBooks(cfg, CommitRecord(cfg, s, span).0)
  {
    AppendRefines(s.history, CapacityError(Recording));
  }

  lemma ExportBooks(cfg: Config, s: Store, spans: seq<Span>)
    requires InOrderBooks(cfg, s)
    ensures InOrderBooks(cfg, CommitExport(cfg, s, spans).0)
  {
    LoopKeepsBooks(cfg, Closing, s, spans);
    LoopKeepsBooks(cfg, Accepting, s, spans);
  }

  ghost function Books(cfg: Config): Store -> bool { s => InOrderBooks(cfg, s) }

  /** Every critical section keeps the books in order. */
  lemma SectionsKeepBooks(cfg: Config, s: Store, good: Store -> bool)
    requires good == Books(cfg) && good(s)
    ensures KeptBySections(cfg, s, good)
  {
    forall epoch, call ensures good(Begin(epoch, s, call).0) { BeginBooks(cfg, epoch, s, call); }
    forall call, e ensures good(Report(s, call, e).0) { ReportBooks(cfg, s, call, e); }
    forall span ensures good(CommitRecord(cfg, s, span).0) { RecordBooks(cfg, s, span); }
    forall f, spans ensures good(CommitInjectedExport(cfg, s, f, spans).0) { InjectedBooks(cfg, s, f, spans); }
    forall spans ensures good(CommitExport(cfg, s, spans).0) { ExportBooks(cfg, s, spans); }
    FlushBooks(cfg, s);
  }

  lemma NoErrors(h: History)
    requires h.errors == h.log == [] && h.droppedErrors == 0 && h.lastError.None?
    ensures RefinesLog(h)
  {
    LastSnoc(h.log, CLOSED, HISTORY_SIZE);
  }

  lemma NoCounts(c: Counters)
    requires c == Counters(0, 0, 0, 0, map[], [])
    ensures CountersAgree(c)
  {
  }

  lemma EmptyBooks(cfg: Config)
    ensures InOrderBooks(cfg, EMPTY)
  {
    NoErrors(EMPTY.history);
    NoCounts(EMPTY.counters);
  }

  lemma BooksInvariant(cfg: Config)
    ensures Invariant(cfg, Books(cfg))
  {
    EmptyBooks(cfg);
    forall s | Books(cfg)(s) ensures KeptBySections(cfg, s, Books(cfg)) { SectionsKeepBooks(cfg, s, Books(cfg)); }
  }

  lemma BooksKept(cfg: Config, steps: seq<Step>)
    ensures InOrderBooks(cfg, Run(cfg, INITIAL, steps).store)
  {
    BooksInvariant(cfg);
    RunKeeps(cfg, Books(cfg), INITIAL, steps);
  }

  /** Over every interleaving, `errors` is the last 256 entries of the log of all errors, the
      dropped count is the number of the others, and `lastError` is the last entry. */
  lemma ErrorHistoryRefinesLog(cfg: Config, steps: seq<Step>)
    ensures var h := Run(cfg, INITIAL, steps).store.history;
            && |h.errors| == Min(|h.log|, 256)
            && h.errors == h.log[|h.log| - |h.errors|..] && h.droppedErrors == |h.log| - |h.errors|
            && h.lastError == if h.log == [] then None else Some(h.log[|h.log| - 1])
  {
    BooksKept(cfg, steps);
  }

  /** Over every interleaving, counts agree, no two attempts of an operation have the same
      index, pending spans make the store dirty, and capacity is respected. */
  lemma CountersAndFlags(cfg: Config, steps: seq<Step>, i: nat, j: nat)
    ensures var s := Run(cfg, INITIAL, steps).store;
            && Count(s, Recording) == s.counters.record && Count(s, Exporting) == s.counters.export_
            && Count(s, Flushing) == s.counters.flush && Count(s, ShuttingDown) == s.counters.shutdown
            && (i < |s.counters.attempts| && j < |s.counters.attempts| ==>
                  s.counters.attempts[i] == s.counters.attempts[j] ==> i == j)
            && (s.pending != [] ==> s.dirty)
            && (cfg.capacity > 0 ==> |s.recorded| <= cfg.capacity)
  {
    BooksKept(cfg, steps);
  }

  /** A failure is found exactly when one matches, and it matches. */
  lemma MatchingMatches(plan: Plan, call: int)
    ensures Matching(plan, call).Some? ==> Matches(Matching(plan, call).value, call)
    ensures Matching(plan, call).None? <==>
              (plan.single.Some? ==> !Matches(plan.single.value, call))
              && forall f :: f in plan.rules ==> !Matches(f, call)
    decreases |plan.rules|
  {
    if plan.rules != [] {
      MatchingMatches(Plan(plan.single, plan.rules[1..]), call);
      assert forall f :: f in plan.rules <==> f == plan.rules[0] || f in plan.rules[1..];
    }
  }

  /** Rule i is the first that matches the call. */
  ghost predicate FirstMatch(plan: Plan, call: int, i: nat) {
    i < |plan.rules| && Matches(plan.rules[i], call) && forall j :: 0 <= j < i ==> !Matches(plan.rules[j], call)
  }

  /** The first rule that matches is found, and the single failure only when no rule matches. */
  lemma {:induction false} MatchingIsFirst(plan: Plan, call: int, i: nat)
    ensures FirstMatch(plan, call, i) ==> Matching(plan, call) == Some(plan.rules[i])
    ensures (forall f :: f in plan.rules ==> !Matches(f, call)) ==>
              Matching(plan, call)
              == if plan.single.Some? && Matches(plan.single.value, call) then plan.single else None
    decreases |plan.rules|
  {
    if plan.rules != [] {
      var rest := Plan(plan.single, plan.rules[1..]);
      MatchingIsFirst(rest, call, if i > 0 then i - 1 else 0);
      if FirstMatch(plan, call, i) && i > 0 { assert FirstMatch(rest, call, i - 1); }
      assert plan.rules[0] in plan.rules && forall f :: f in rest.rules ==> f in plan.rules;
    }
  }

  /** An operation that begins takes the next index of its kind, under which it is counted, and rules
      are matched against; a flush is given the shutdown error retained when it begins. */
  lemma BeginTakesIndex(cfg: Config, sys: System, id: nat, call: Call)
    requires id !in sys.running
    ensures var next, op := Next(cfg, sys, Start(id, call)), OperationOf(call);
            && Count(next.store, op) == Count(sys.store, op) + 1
            && next.store.counters.attempts == sys.store.counters.attempts + [Attempt(op, Count(next.store, op))]
            && (forall other :: other != op ==> Count(next.store, other) == Count(sys.store, other))
            && (id in next.running ==>
                  next.running[id] == Local(call, sys.epoch, Count(sys.store, op) + 1,
                                            if call.FlushCall? then sys.store.lastShutdownError else None))
  {
  }

  /** Over every interleaving, a failure set for one call strikes at most one attempt of its
      operation in an epoch. */
  lemma FailureStrikesOnce(cfg: Config, steps: seq<Step>, plan: Plan, f: Failure, i: nat, j: nat)
    requires var attempts := Run(cfg, INITIAL, steps).store.counters.attempts;
             && i < |attempts| && j < |attempts| && attempts[i].operation == attempts[j].operation
             && Matching(plan, attempts[i].index) == Some(f) && Matching(plan, attempts[j].index) == Some(f)
    requires f.atCall > 0
    ensures i == j
  {
    var attempts := Run(cfg, INITIAL, steps).store.counters.attempts;
    MatchingMatches(plan, attempts[i].index);
    MatchingMatches(plan, attempts[j].index);
    CountersAndFlags(cfg, steps, i, j);
  }
}
