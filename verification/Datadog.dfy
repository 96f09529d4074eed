/** The Datadog exporter: draining its queue against an arbitrary server, and whole runs. */
module Datadog {
  import opened Model
  import opened Redaction
  import opened Batching
  import opened Retry

  datatype Config = Config(limits: Limits, policy: Policy, redaction: Options)

  datatype Operation = Exporting | Flushing | ShuttingDown | Preparing

  datatype Error = Error(operation: Operation, fault: Fault)

  /** The errors a call returns joined; none stands for nil. */
  type Answer = seq<Error>

  /** One request. */
  datatype Sent = Sent(payload: Group, response: Response)

  /** History variables: every observation accepted, where those that left the queue went,
      and every request. */
  datatype History = History(
    accepted: seq<Observation>, acknowledged: seq<Observation>, skipped: seq<Observation>, cleared: seq<Observation>,
    wire: seq<Sent>)

  /** `at` counts the requests sent. */
  datatype Store = Store(pending: seq<Observation>, shutdown: bool, lastShutdown: Answer, at: nat, past: History)

  const EMPTY := Store([], false, [], 0, History([], [], [], [], []))

  // ----- Preparing the queue.

  /** The observations with an end time, with their indexes. */
  function Prepared(pending: seq<Observation>): seq<Queued> {
    if pending == [] then []
    else
      var n := |pending| - 1;
      Prepared(pending[..n]) + if pending[n].ended then [Queued(n, pending[n])] else []
  }

  function Observations(group: Group): (os: seq<Observation>)
    ensures |os| == |group|
  {
    seq(|group|, i requires 0 <= i < |group| => group[i].observation)
  }

  function ToSend(cfg: Config, pending: seq<Observation>): seq<Queued> { Sendable(cfg.limits, Prepared(pending)) }

  function Groups(cfg: Config, pending: seq<Observation>): seq<Group> { Batches(cfg.limits, ToSend(cfg, pending)) }

  const TOO_LARGE := Error(Preparing, Fault("payload_too_large", false, true))

  function BatchErrors(cfg: Config, pending: seq<Observation>): Answer
    requires |ToSend(cfg, pending)| <= |Prepared(pending)|
  {
    seq(|Prepared(pending)| - |ToSend(cfg, pending)|, _ => TOO_LARGE)
  }

  lemma {:induction false} SendableShorter(lim: Limits, items: seq<Queued>)
    ensures |Sendable(lim, items)| <= |items|
  {
    if items != [] { SendableShorter(lim, items[..|items| - 1]); }
  }

  predicate CanBeSent(cfg: Config, o: Observation) { o.ended && !TooLarge(cfg.limits, Queued(0, o)) }

  /** The observations that can be sent, or those that cannot. */
  function Only(cfg: Config, pending: seq<Observation>, sendable: bool): seq<Observation> {
    if pending == [] then []
    else
      var n := |pending| - 1;
      Only(cfg, pending[..n], sendable) + if CanBeSent(cfg, pending[n]) == sendable then [pending[n]] else []
  }

  // ----- Sending groups.

  /** After some of the groups: how many were delivered, the failure that ended it, the
      requests. */
  datatype Delivery = Delivery(done: nat, failure: Option<Fault>, end: nat, wire: seq<Sent>)

  function Requests(world: World, group: Group, from: nat, to: nat): (rs: seq<Sent>)
    requires from <= to
    ensures |rs| == to - from
  {
    seq(to - from, i requires 0 <= i < to - from => Sent(group, world.response(from + i)))
  }

  lemma {:induction false} PostAdvances(p: Policy, world: World, at: nat, attempt: nat)
    ensures at < PostFrom(p, world, at, attempt).1
    decreases Attempts(p) - attempt
  {
    if Again(p, world, at, attempt) { PostAdvances(p, world, at + 1, attempt + 1); }
  }

  function SendNext(cfg: Config, world: World, d: Delivery, group: Group): Delivery {
    if d.failure.Some? then d
    else
      PostAdvances(cfg.policy, world, d.end, 1);
      var (outcome, end) := Post(cfg.policy, world, d.end);
      var wire := d.wire + Requests(world, group, d.end, end);
      match outcome
      case Delivered => Delivery(d.done + 1, None, end, wire)
      case Undelivered(fault) => Delivery(d.done, Some(fault), end, wire)
  }

  function SendAll(cfg: Config, world: World, groups: seq<Group>, at: nat): Delivery {
    if groups == [] then Delivery(0, None, at, [])
    else SendNext(cfg, world, SendAll(cfg, world, groups[..|groups| - 1], at), groups[|groups| - 1])
  }

  lemma {:induction false} SendAllDone(cfg: Config, world: World, groups: seq<Group>, at: nat)
    ensures SendAll(cfg, world, groups, at).done <= |groups|
    ensures SendAll(cfg, world, groups, at).failure.None? ==> SendAll(cfg, world, groups, at).done == |groups|
  {
    if groups != [] { SendAllDone(cfg, world, groups[..|groups| - 1], at); }
  }

  // ----- Draining.

  /** The queue after sending: what was delivered and what cannot be sent is gone; the rest
      stays after a retryable failure and is cleared after any other. */
  function AfterSending(cfg: Config, s: Store, d: Delivery): Store
    requires d.done <= |Groups(cfg, s.pending)|
  {
    var groups := Groups(cfg, s.pending);
    var acknowledged := Observations(Flatten(groups[..d.done]));
    var rest := Observations(Flatten(groups[d.done..]));
    var stays := d.failure.Some? && d.failure.value.retryable;
    Store(if stays then rest else [], s.shutdown, s.lastShutdown, d.end,
          History(s.past.accepted, s.past.acknowledged + acknowledged, s.past.skipped + Only(cfg, s.pending, false),
                  s.past.cleared + if d.failure.Some? && !stays then rest else [], s.past.wire + d.wire))
  }

  const REDACTION_FAULT := Fault("redaction", false, true)

  /** `ended` is the classification of the context's error, when it is done. */
  function Drain(cfg: Config, world: World, op: Operation, ended: Option<string>, s: Store): (Store, Answer) {
    if ended.Some? then (s, [Error(op, Fault(ended.value, false, false))])
    else if s.pending != [] && !ValidOptions(cfg.redaction) then
      (s.(pending := s.pending[1..], past := s.past.(skipped := s.past.skipped + [s.pending[0]])),
       [Error(op, REDACTION_FAULT)])
    else
      var groups := Groups(cfg, s.pending);
      var d := SendAll(cfg, world, groups, s.at);
      SendAllDone(cfg, world, groups, s.at);
      SendableShorter(cfg.limits, Prepared(s.pending));
      (AfterSending(cfg, s, d), if d.failure.Some? then [Error(op, d.failure.value)] else BatchErrors(cfg, s.pending))
  }

  // ----- Calls.

  datatype Call =
    | ExportCall(ended: Option<string>, batch: seq<Observation>)
    | FlushCall(ended: Option<string>)
    | ShutdownCall(ended: Option<string>)

  const EXPORTER_CLOSED := Error(Exporting, Fault("exporter_closed", false, true))

  /** Gives the observations of a batch their places in the order of acceptance. */
  function Numbered(batch: seq<Observation>, from: nat): (os: seq<Observation>)
    ensures |os| == |batch|
  {
    seq(|batch|, i requires 0 <= i < |batch| => batch[i].(position := from + i))
  }

  function Accept(s: Store, batch: seq<Observation>): Store {
    var more := Numbered(batch, |s.past.accepted|);
    s.(pending := s.pending + more, past := s.past.(accepted := s.past.accepted + more))
  }

  function Step(cfg: Config, world: World, s: Store, call: Call): (Store, Answer) {
    match call
    case ExportCall(ended, batch) =>
      if s.shutdown then (s, [EXPORTER_CLOSED]) else Drain(cfg, world, Exporting, ended, Accept(s, batch))
    case FlushCall(ended) =>
      if s.shutdown then (s, s.lastShutdown) else Drain(cfg, world, Flushing, ended, s)
    case ShutdownCall(ended) =>
      if s.shutdown then (s, s.lastShutdown)
      else
        var (after, answer) := Drain(cfg, world, ShuttingDown, ended, s.(shutdown := true));
        (after.(lastShutdown := answer), answer)
  }

  function Run(cfg: Config, world: World, s: Store, calls: seq<Call>): Store
    decreases |calls|
  {
    if calls == [] then s else Run(cfg, world, Step(cfg, world, s, calls[0]).0, calls[1..])
  }
}
