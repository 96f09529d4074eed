/** What the answer of a recorder operation tells its caller. */
module RecorderAnswers {
  import opened Model
  import opened Redaction
  import opened Recorder

  /** Spans numbered on from n. */
  function StampedFrom(spans: seq<Span>, n: nat): (out: seq<Span>)
    ensures |out| == |spans|
  {
    seq(|spans|, i requires 0 <= i < |spans| => Stamp(spans[i], n + 1 + i))
  }

  function Same(origin: Origin, n: nat): (out: seq<Origin>)
    ensures |out| == n
  {
    seq(n, _ => origin)
  }

  /** The store with spans recorded one after the other. */
  function Recorded(s: Store, spans: seq<Span>, origin: Origin): Store {
    s.(recorded := s.recorded + spans, origins := s.origins + Same(origin, |spans|))
  }

  lemma RecordedSnoc(s: Store, spans: seq<Span>, span: Span, origin: Origin)
    ensures Recorded(s, spans + [span], origin) == KeepSpan(Recorded(s, spans, origin), span, origin)
  {
    assert Same(origin, |spans| + 1) == Same(origin, |spans|) + [origin];
  }

  lemma NothingRecorded(s: Store, origin: Origin)
    ensures Recorded(s, [], origin) == s
  {
  }

  /** The store with spans numbered in order and recorded. */
  function AcceptedInto(s: Store, spans: seq<Span>): Store {
    var numbered := StampedFrom(spans, s.sequence);
    Recorded(s, numbered, Direct).(sequence := s.sequence + |spans|, stamped := s.stamped + numbered)
  }

  lemma AcceptedSnoc(s: Store, spans: seq<Span>, span: Span)
    ensures AcceptedInto(s, spans + [span])
         == KeepSpan(Number(AcceptedInto(s, spans), span), Stamp(span, s.sequence + |spans| + 1), Direct)
  {
    var stamped := Stamp(span, s.sequence + |spans| + 1);
    assert StampedFrom(spans + [span], s.sequence) == StampedFrom(spans, s.sequence) + [stamped];
    RecordedSnoc(s, StampedFrom(spans, s.sequence), stamped, Direct);
  }

  /** When no span found the store full, all were numbered in order and recorded. */
  lemma {:induction false} AllAccepted(cfg: Config, s: Store, spans: seq<Span>, e: ObsError)
    requires Overflows(cfg, s, Accepting, spans, e) == []
    ensures HandleAll(cfg, Accepting, s, spans) == AcceptedInto(s, spans)
  {
    if spans == [] {
      assert StampedFrom(spans, s.sequence) == [];
      NothingRecorded(s, Direct);
    } else {
      var n := |spans| - 1;
      AllAccepted(cfg, s, spans[..n], e);
      AcceptedSnoc(s, spans[..n], spans[n]);
      assert spans[..n] + [spans[n]] == spans;
    }
  }

  lemma {:induction false} AllDelivered(cfg: Config, s: Store, spans: seq<Span>, e: ObsError)
    requires Overflows(cfg, s, Delivering, spans, e) == []
    ensures HandleAll(cfg, Delivering, s, spans) == Recorded(s, spans, Delivered)
  {
    if spans == [] {
      NothingRecorded(s, Delivered);
    } else {
      var n := |spans| - 1;
      AllDelivered(cfg, s, spans[..n], e);
      RecordedSnoc(s, spans[..n], spans[n], Delivered);
      assert spans[..n] + [spans[n]] == spans;
    }
  }

  /** Errors were remembered after those of `s`. */
  ghost predicate Remembers(s: Store, after: Store, answer: Answer) {
    var was, now := s.history.log, after.history.log;
    was <= now && forall e :: e in answer ==> e in now[|was|..]
  }

  lemma LastIsNew<T>(was: seq<T>, now: seq<T>, e: T)
    requires was <= now
    ensures was <= now + [e] && (now + [e])[|was|..] == now[|was|..] + [e]
    ensures e in (now + [e])[|was|..]
  {
    assert (now[|was|..] + [e])[|now| - |was|] == e;
  }

  lemma {:induction false} OverflowsRemembered(cfg: Config, each: Each, s: Store, spans: seq<Span>)
    requires each == Accepting || each == Delivering
    ensures var e := CapacityError(if each.Accepting? then Exporting else Flushing);
            var answer := Overflows(cfg, s, each, spans, e);
            var after := HandleAll(cfg, each, s, spans);
            && Remembers(s, after, answer) && (answer != [] ==> after.dirty)
            && (forall x :: x in answer ==> x == e)
            && after.pending == s.pending && after.lastShutdownError == s.lastShutdownError
  {
    if spans != [] {
      var n := |spans| - 1;
      OverflowsRemembered(cfg, each, s, spans[..n]);
      var before := HandleAll(cfg, each, s, spans[..n]);
      LogGrows(cfg, each, before, spans[n]);
      LastIsNew(s.history.log, before.history.log, CapacityError(if each.Accepting? then Exporting else Flushing));
    }
  }

  lemma LogGrows(cfg: Config, each: Each, s: Store, span: Span)
    requires each == Accepting || each == Delivering
    ensures var e := CapacityError(if each.Accepting? then Exporting else Flushing);
            var after := Handle(cfg, each, s, span);
            && after.history.log == s.history.log + (if Full(cfg, s) then [e] else [])
            && (s.dirty || Full(cfg, s) ==> after.dirty)
            && after.pending == s.pending && after.lastShutdownError == s.lastShutdownError
  {
  }

  lemma ClosedLogs(cfg: Config, s: Store, span: Span)
    ensures var after := Handle(cfg, Closing, s, span);
            after.history.log == s.history.log + [CLOSED] && after.dirty
  {
  }

  lemma {:induction false} ClosedRemembered(cfg: Config, s: Store, spans: seq<Span>)
    ensures var after := HandleAll(cfg, Closing, s, spans);
            s.history.log <= after.history.log
            && (spans != [] ==> after.dirty && CLOSED in after.history.log[|s.history.log|..])
  {
    if spans != [] {
      var n := |spans| - 1;
      ClosedRemembered(cfg, s, spans[..n]);
      ClosedLogs(cfg, HandleAll(cfg, Closing, s, spans[..n]), spans[n]);
      LastIsNew(s.history.log, HandleAll(cfg, Closing, s, spans[..n]).history.log, CLOSED);
    }
  }

  // ----- Answers.

  lemma ReportRemembered(s: Store, call: Call, e: ObsError)
    ensures var (after, answer) := Report(s, call, e);
            answer == [e] && Remembers(s, after, answer) && after.dirty
  {
    LastIsNew(s.history.log, s.history.log, e);
  }

  lemma AcceptedAlone(s: Store, span: Span)
    ensures AcceptedInto(s, [span])
         == KeepSpan(Number(s, span), Stamp(span, s.sequence + 1), Direct)
  {
    AcceptedSnoc(s, [], span);
    assert [] + [span] == [span] && StampedFrom([], s.sequence) == [];
    NothingRecorded(s, Direct);
  }

  lemma RoomAnswer(cfg: Config, s: Store, span: Span, op: Operation)
    requires !Full(cfg, s)
    ensures Accept(cfg, s, span, op) == AcceptedInto(s, [span])
  {
    AcceptedAlone(s, span);
  }

  lemma FullLogs(cfg: Config, s: Store, span: Span, op: Operation)
    requires Full(cfg, s)
    ensures var after := Accept(cfg, s, span, op);
            after.history.log == s.history.log + [CapacityError(op)] && after.dirty
  {
  }

  lemma FullAnswer(cfg: Config, s: Store, span: Span, op: Operation)
    requires Full(cfg, s)
    ensures var after := Accept(cfg, s, span, op);
            Remembers(s, after, [CapacityError(op)]) && after.dirty
  {
    FullLogs(cfg, s, span, op);
    OneMore(s, s.history.log, Accept(cfg, s, span, op), CapacityError(op));
  }

  /** Record answers nil exactly when the store has room. It has then numbered and recorded the
      span and changed nothing else; any other answer is remembered. */
  lemma RecordAnswer(cfg: Config, s: Store, redacted: Span)
    ensures var (after, answer) := CommitRecord(cfg, s, redacted);
            && answer == (if Full(cfg, s) then [ObsError(Recording, "capacity", false, true)] else [])
            && if answer == [] then after == AcceptedInto(s, [redacted]) else Remembers(s, after, answer) && after.dirty
  {
    if Full(cfg, s) { FullAnswer(cfg, s, redacted, Recording); } else { RoomAnswer(cfg, s, redacted, Recording); }
  }

  /** An empty batch that is refused for coming after a shutdown. */
  predicate EmptyRefused(cfg: Config, s: Store, l: Local) {
    s.shutdown && l.call.ExportCall? && l.call.batch == [] && !l.call.canceled && Matching(cfg.onExport, l.index).None?
  }

  /** A nil Export has numbered the whole redacted batch in order and recorded it, and changed
      nothing else. The answer is remembered, and leaves the store dirty when it is not nil,
      exactly unless it refuses an empty batch for coming after a shutdown; that one changes
      nothing at all. */
  lemma ExportAnswer(cfg: Config, s: Store, l: Local)
    requires l.call.ExportCall?
    ensures var (after, answer) := CommitNow(cfg, s, l);
            && (answer == [] ==> after == AcceptedInto(s, RedactAll(cfg, l.call.batch)))
            && (Remembers(s, after, answer) <==> !EmptyRefused(cfg, s, l))
            && (answer != [] && !EmptyRefused(cfg, s, l) ==> after.dirty)
            && (EmptyRefused(cfg, s, l) ==> answer == [CLOSED] && after == s)
  {
    var spans := RedactAll(cfg, l.call.batch);
    if l.call.canceled {
      ReportRemembered(s, l.call, Canceled(Exporting));
    } else if l.call.batch != [] && !ValidOptions(cfg.redaction) {
      ReportRemembered(s, l.call, REDACTION_FAILED);
    } else {
      match Matching(cfg.onExport, l.index) {
        case Some(f) => InjectedRemembered(cfg, s, f, spans);
        case None =>
          if s.shutdown {
            ClosedRemembered(cfg, s, spans);
            assert CommitNow(cfg, s, l) == (HandleAll(cfg, Closing, s, spans), [CLOSED]);
            if spans == [] { assert CLOSED in [CLOSED] && CLOSED !in s.history.log[|s.history.log|..]; }
          } else {
            OverflowsRemembered(cfg, Accepting, s, spans);
            if CommitNow(cfg, s, l).1 == [] { AllAccepted(cfg, s, spans, CapacityError(Exporting)); }
          }
      }
    }
  }

  lemma {:induction false} LoopLog(cfg: Config, each: Each, s: Store, spans: seq<Span>)
    ensures s.history.log <= HandleAll(cfg, each, s, spans).history.log
  {
    if spans != [] { LoopLog(cfg, each, s, spans[..|spans| - 1]); }
  }

  lemma OneMore(s: Store, before: seq<ObsError>, after: Store, e: ObsError)
    requires s.history.log <= before && after.history.log == before + [e]
    ensures Remembers(s, after, [e])
  {
    LastIsNew(s.history.log, before, e);
  }

  lemma InjectedRemembered(cfg: Config, s: Store, f: Failure, spans: seq<Span>)
    ensures var (after, answer) := CommitInjectedExport(cfg, s, f, spans);
            answer != [] && Remembers(s, after, answer) && after.dirty
  {
    var e := InjectedError(Exporting, f);
    var each := if e.retryable && !e.dropped then Queueing else Refusing(e);
    LoopLog(cfg, each, s, spans);
    OneMore(s, HandleAll(cfg, each, s, spans).history.log, CommitInjectedExport(cfg, s, f, spans).0, e);
  }

  lemma FailedResendRemembered(cfg: Config, s: Store, f: Failure)
    ensures var (after, answer) := FailResend(cfg, s, f);
            && answer != [] && Remembers(s, after, answer) && after.dirty && after.lastFlushError == Some(answer[0])
            && after.pending == if answer[0].retryable && !answer[0].dropped then s.pending else []
  {
    var e := InjectedError(Exporting, f);
    LoopLog(cfg, Losing(e), s, s.pending);
    var lost := if !e.retryable || e.dropped then HandleAll(cfg, Losing(e), s, s.pending) else s;
    OneMore(s, lost.history.log, FailResend(cfg, s, f).0, e);
  }

  /** A nil Flush has delivered the whole queue in order, and left the store clean with no
      flush error. Any other answer is remembered, its first error as the flush error, and the
      queue is kept exactly after a failure that is retryable and drops nothing. */
  lemma FlushAnswer(cfg: Config, s: Store)
    ensures var (after, answer) := CommitFlush(cfg, s);
            if answer == [] then
              && after.recorded == s.recorded + s.pending && after.dropped == s.dropped && after.history == s.history
              && after.pending == [] && !after.dirty && after.lastFlushError.None?
            else
              && Remembers(s, after, answer) && after.dirty && after.lastFlushError == Some(answer[0])
              && after.pending == if answer[0].retryable && !answer[0].dropped then s.pending else []
  {
    if s.pending == [] {
      assert s.recorded + [] == s.recorded;
    } else {
      var counted := CountCall(s, Exporting);
      match Matching(cfg.onExport, Count(counted, Exporting)) {
        case Some(f) => FailedResendRemembered(cfg, counted, f);
        case None =>
          OverflowsRemembered(cfg, Delivering, counted, s.pending);
          if Resend(cfg, counted).1 == [] { AllDelivered(cfg, counted, s.pending, CapacityError(Flushing)); }
      }
    }
  }

  /** A nil Shutdown has discarded the queue and left the store shut down, clean and without a
      shutdown error; any other answer is remembered as the shutdown error. Recorded and
      dropped spans stay as they are. */
  lemma ShutdownAnswer(cfg: Config, s: Store, l: Local)
    requires l.call.ShutdownCall?
    ensures var (after, answer) := CommitNow(cfg, s, l);
            && after.recorded == s.recorded && after.dropped == s.dropped
            && if answer == [] then
                 && after.shutdown && after.pending == [] && !after.dirty && after.lastShutdownError.None?
                 && after.discarded == s.discarded + s.pending
               else
                 && Remembers(s, after, answer) && after.dirty && after.lastShutdownError == Some(answer[0])
                 && after.pending == s.pending
  {
  }
}
