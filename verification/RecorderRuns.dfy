/** Interleavings of the recorder's operations. */
module RecorderRuns {
  import opened Recorder

  /** The epoch, the store, and the operations that have begun and not committed, by name. */
  datatype System = System(epoch: nat, store: Store, running: map<nat, Local>)

  /** One critical section: an operation begins, an operation commits, or Reset runs. */
  datatype Step = Start(id: nat, call: Call) | Finish(id: nat) | Reset

  const INITIAL := System(0, EMPTY, map[])

  /** A step that is not possible (a name in use begins, an unknown one commits) changes nothing. */
  ghost function Next(cfg: Config, sys: System, step: Step): System {
    match step
    case Start(id, call) =>
      if id in sys.running then sys
      else
        var (store, local) := Begin(sys.epoch, sys.store, call);
        System(sys.epoch, store, if EndsAtOnce(sys.store, call) then sys.running else sys.running[id := local])
    case Finish(id) =>
      if id !in sys.running then sys
      else System(sys.epoch, Commit(cfg, sys.epoch, sys.store, sys.running[id]).0, sys.running - {id})
    case Reset => System(sys.epoch + 1, EMPTY, sys.running)
  }

  /** What the step answers to its caller. */
  ghost function AnswerOf(cfg: Config, sys: System, step: Step): Answer {
    if step.Finish? && step.id in sys.running then Commit(cfg, sys.epoch, sys.store, sys.running[step.id]).1 else []
  }

  ghost function Run(cfg: Config, sys: System, steps: seq<Step>): System
    decreases |steps|
  {
    if steps == [] then sys else Run(cfg, Next(cfg, sys, steps[0]), steps[1..])
  }

  lemma {:induction false} RunAppend(cfg: Config, sys: System, a: seq<Step>, b: seq<Step>)
    ensures Run(cfg, sys, a + b) == Run(cfg, Run(cfg, sys, a), b)
    decreases |a|
  {
    if a == [] {
      assert a + b == b;
    } else {
      RunAppend(cfg, Next(cfg, sys, a[0]), a[1..], b);
      assert (a + b)[1..] == a[1..] + b;
    }
  }

  // ----- Epoch erasure.

  /** The steps that remain when those of the operations named in `stale` are left out. */
  function Erase(steps: seq<Step>, stale: set<nat>): seq<Step> {
    if steps == [] then []
    else if !steps[0].Reset? && steps[0].id in stale then
      Erase(steps[1..], StillStale(stale, steps[0]))
    else [steps[0]] + Erase(steps[1..], stale)
  }

  /** The answers given along a run, except to the operations named in `stale`. */
  ghost function Answers(cfg: Config, sys: System, steps: seq<Step>, stale: set<nat>): seq<Answer>
    decreases |steps|
  {
    if steps == [] then []
    else
      var next := Next(cfg, sys, steps[0]);
      if !steps[0].Reset? && steps[0].id in stale then
        Answers(cfg, next, steps[1..], StillStale(stale, steps[0]))
      else [AnswerOf(cfg, sys, steps[0])] + Answers(cfg, next, steps[1..], stale)
  }

  /** The stores are the same, and the operations of `live` that `clean` does not have are stale. */
  ghost predicate Simulates(live: System, clean: System, stale: set<nat>) {
    && live.store == clean.store
    && (forall id :: id in live.running <==> id in stale || id in clean.running)
    && (forall id :: id in clean.running ==> id !in stale)
    && (forall id :: id in stale ==> live.running[id].epoch < live.epoch)
    && (forall id :: id in clean.running ==>
          && live.running[id].(epoch := 0) == clean.running[id].(epoch := 0)
          && live.running[id].epoch == live.epoch && clean.running[id].epoch == clean.epoch)
  }

  /** A commit from an earlier epoch changes nothing, and answers nil unless it is a flush
      that had already seen a shutdown error. */
  lemma StaleCommitIsVoid(cfg: Config, epoch: nat, s: Store, l: Local)
    requires l.epoch != epoch
    ensures Commit(cfg, epoch, s, l).0 == s
    ensures Commit(cfg, epoch, s, l).1 == if StopsAtShutdownError(cfg, l) then [l.captured.value] else []
  {
  }

  /** The names of stale operations that are left after a step. */
  function StillStale(stale: set<nat>, step: Step): set<nat> { if step.Finish? then stale - {step.id} else stale }

  lemma StaleStep(cfg: Config, live: System, clean: System, stale: set<nat>, step: Step)
    requires Simulates(live, clean, stale) && !step.Reset? && step.id in stale
    ensures Simulates(Next(cfg, live, step), clean, StillStale(stale, step))
  {
    if step.Finish? { StaleCommitIsVoid(cfg, live.epoch, live.store, live.running[step.id]); }
  }

  /** Nothing in a commit but the comparison looks at the epoch. */
  lemma CommitShifts(cfg: Config, s: Store, a: Local, b: Local)
    requires a.(epoch := 0) == b.(epoch := 0)
    ensures Commit(cfg, a.epoch, s, a) == Commit(cfg, b.epoch, s, b)
  {
  }

  lemma KeptStep(cfg: Config, live: System, clean: System, stale: set<nat>, step: Step)
    requires Simulates(live, clean, stale) && !step.Reset? && step.id !in stale
    ensures Simulates(Next(cfg, live, step), Next(cfg, clean, step), stale)
    ensures AnswerOf(cfg, live, step) == AnswerOf(cfg, clean, step)
  {
    if step.Finish? && step.id in clean.running {
      CommitShifts(cfg, live.store, live.running[step.id], clean.running[step.id]);
    }
  }

  lemma {:induction false} SimulationRuns(cfg: Config, live: System, clean: System, stale: set<nat>, steps: seq<Step>)
    requires Simulates(live, clean, stale) && forall i :: 0 <= i < |steps| ==> !steps[i].Reset?
    ensures Run(cfg, live, steps).store == Run(cfg, clean, Erase(steps, stale)).store
    ensures Answers(cfg, live, steps, stale) == Answers(cfg, clean, Erase(steps, stale), {})
    decreases |steps|
  {
    if steps != [] {
      var step := steps[0];
      if step.id in stale {
        StaleStep(cfg, live, clean, stale, step);
        SimulationRuns(cfg, Next(cfg, live, step), clean, StillStale(stale, step), steps[1..]);
      } else {
        KeptStep(cfg, live, clean, stale, step);
        SimulationRuns(cfg, Next(cfg, live, step), Next(cfg, clean, step), stale, steps[1..]);
        assert Erase(steps, stale)[1..] == Erase(steps[1..], stale);
      }
    }
  }

  ghost predicate Behind(sys: System) { forall id :: id in sys.running ==> sys.running[id].epoch <= sys.epoch }

  /** In every reachable system, no operation is from a later epoch. */
  lemma {:induction false} EpochsAreBehind(cfg: Config, sys: System, steps: seq<Step>)
    requires Behind(sys)
    ensures Behind(Run(cfg, sys, steps))
    decreases |steps|
  {
    if steps != [] { EpochsAreBehind(cfg, Next(cfg, sys, steps[0]), steps[1..]); }
  }

  /** Epoch erasure. Take any interleaving with a Reset in it, and the steps after the last
      Reset. The store at the end, and every answer to an operation begun after that Reset,
      are those of a new store on which only the operations begun after it are run. */
  lemma EpochErasure(cfg: Config, before: seq<Step>, after: seq<Step>)
    requires forall i :: 0 <= i < |after| ==> !after[i].Reset?
    ensures var reset := Run(cfg, INITIAL, before + [Reset]);
            var stale := reset.running.Keys;
            && Run(cfg, INITIAL, before + [Reset] + after).store == Run(cfg, INITIAL, Erase(after, stale)).store
            && Answers(cfg, reset, after, stale) == Answers(cfg, INITIAL, Erase(after, stale), {})
  {
    var reached := Run(cfg, INITIAL, before);
    var reset := Run(cfg, INITIAL, before + [Reset]);
    RunAppend(cfg, INITIAL, before, [Reset]);
    assert Run(cfg, reached, [Reset]) == Run(cfg, Next(cfg, reached, Reset), []);
    EpochsAreBehind(cfg, INITIAL, before);
    assert Simulates(reset, INITIAL, reset.running.Keys);
    SimulationRuns(cfg, reset, INITIAL, reset.running.Keys, after);
    RunAppend(cfg, INITIAL, before + [Reset], after);
  }

  // ----- Invariants.

  /** The ways a critical section can end all keep a property of the store. */
  ghost predicate KeptBySections(cfg: Config, s: Store, good: Store -> bool) {
    && (forall epoch, call :: good(Begin(epoch, s, call).0))
    && (forall call, e :: good(Report(s, call, e).0))
    && (forall span :: good(CommitRecord(cfg, s, span).0))
    && (forall f, spans :: good(CommitInjectedExport(cfg, s, f, spans).0))
    && (forall spans :: good(CommitExport(cfg, s, spans).0))
    && good(CommitFlush(cfg, s).0) && good(CommitShutdown(s).0)
  }

  ghost predicate Invariant(cfg: Config, good: Store -> bool) {
    good(EMPTY) && forall s :: good(s) ==> KeptBySections(cfg, s, good)
  }

  lemma CommitKeeps(cfg: Config, epoch: nat, s: Store, l: Local, good: Store -> bool)
    requires KeptBySections(cfg, s, good) && good(s)
    ensures good(Commit(cfg, epoch, s, l).0)
  {
  }

  lemma StepKeeps(cfg: Config, good: Store -> bool, sys: System, step: Step)
    requires KeptBySections(cfg, sys.store, good) && good(sys.store) && good(EMPTY)
    ensures good(Next(cfg, sys, step).store)
  {
    if step.Finish? && step.id in sys.running {
      CommitKeeps(cfg, sys.epoch, sys.store, sys.running[step.id], good);
    } else if step.Start? && step.id !in sys.running {
      assert good(Begin(sys.epoch, sys.store, step.call).0);
    }
  }

  /** What every section keeps holds in every state of every interleaving. */
  lemma {:induction false} RunKeeps(cfg: Config, good: Store -> bool, sys: System, steps: seq<Step>)
    requires Invariant(cfg, good) && good(sys.store)
    ensures good(Run(cfg, sys, steps).store)
    decreases |steps|
  {
    if steps != [] {
      var next := Next(cfg, sys, steps[0]);
      assert KeptBySections(cfg, sys.store, good);
      StepKeeps(cfg, good, sys, steps[0]);
      RunKeeps(cfg, good, next, steps[1..]);
    }
  }
}
