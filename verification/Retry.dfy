/** Sending one payload: attempts, and the delays between them. */
module Retry {
  import opened Model
  import opened Numbers

  predicate Int64Fits(x: int) { -MAX_INT64 - 1 <= x <= MAX_INT64 }

  /** The value of an int64 expression whose exact value is x. */
  function Wrap64(x: int): (r: int)
    ensures Int64Fits(r) && (Int64Fits(x) ==> r == x)
  {
    (x + MAX_INT64 + 1) % (2 * (MAX_INT64 + 1)) - MAX_INT64 - 1
  }

  /** Division by two, towards zero. */
  function Half(x: int): int { if x >= 0 then x / 2 else -(-x / 2) }

  // ----- The delay before a retry.

  /** Nanoseconds; no cap when `max` is not positive. */
  datatype Backoff = Backoff(base: int, max: int)

  predicate Int64Backoff(b: Backoff) { Int64Fits(b.base) && Int64Fits(b.max) }

  /** The delay after some passes of the doubling loop. */
  function Doubled(b: Backoff, passes: nat): int {
    if passes == 0 then b.base
    else
      var before := Doubled(b, passes - 1);
      if b.max > 0 && before >= b.max / 2 then b.max else Wrap64(before * 2)
  }

  function BeforeJitter(b: Backoff, retry: nat): int {
    var delay := Doubled(b, if retry <= 1 then 0 else retry - 1);
    if b.max > 0 && delay > b.max then b.max else delay
  }

  /** A number from 0 to `limit`; every one is drawn by some draw. */
  function Jitter(limit: nat, draw: int): (j: nat)
    ensures j <= limit
  {
    draw % (limit + 1)
  }

  function WithJitter(b: Backoff, delay: int, draw: int): int {
    if Half(delay) <= 0 then delay
    else
      var total := Wrap64(delay + Jitter(Half(delay), draw));
      if b.max > 0 && total > b.max then b.max else total
  }

  function RetryDelay(b: Backoff, retry: nat, draw: int): int {
    if b.base <= 0 then 0 else WithJitter(b, BeforeJitter(b, retry), draw)
  }

  lemma {:induction false} StaysAtMax(b: Backoff, from: nat, passes: nat)
    requires b.max > 0 && from <= passes && Doubled(b, from) == b.max
    ensures Doubled(b, passes) == b.max
    decreases passes
  {
    if from < passes { StaysAtMax(b, from, passes - 1); }
  }

  method DoubleDelay(b: Backoff, retry: nat) returns (delay: int)
    ensures delay == BeforeJitter(b, retry)
  {
    delay := b.base;
    var i := 1;
    while i < retry
      invariant 1 <= i && (i <= retry || i == 1) && delay == Doubled(b, i - 1)
    {
      if b.max > 0 && delay >= b.max / 2 {
        delay := b.max;
        StaysAtMax(b, i, retry - 1);
        i := retry;
        break;
      }
      delay := Wrap64(delay * 2);
      i := i + 1;
    }
    if b.max > 0 && delay > b.max { delay := b.max; }
  }

  method ComputeRetryDelay(b: Backoff, retry: nat, draw: int) returns (delay: int)
    ensures delay == RetryDelay(b, retry, draw)
  {
    if b.base <= 0 { return 0; }
    delay := DoubleDelay(b, retry);
    var limit := Half(delay);
    if limit <= 0 { return; }
    var jitter := Jitter(limit, draw);
    if b.max > 0 && Wrap64(delay + jitter) > b.max { return b.max; }
    return Wrap64(delay + jitter);
  }

  // ----- How long the delays are.

  function Pow2(n: nat): (p: nat)
    ensures p > 0
  {
    if n == 0 then 1 else 2 * Pow2(n - 1)
  }

  predicate Capped(b: Backoff) { Int64Backoff(b) && b.base > 0 && b.max > 0 }

  /** base * 2^n. */
  function Exact(b: Backoff, n: nat): (d: int)
    ensures b.base > 0 ==> d >= b.base
  {
    if n == 0 then b.base else 2 * Exact(b, n - 1)
  }

  lemma {:induction false} ExactIsPower(b: Backoff, n: nat)
    ensures Exact(b, n) == b.base * Pow2(n)
  {
    if n > 0 { ExactIsPower(b, n - 1); }
  }

  /** While the exact value is below half the cap the loop has it, and from then on the cap. */
  lemma {:induction false} DoubledIs(b: Backoff, n: nat)
    requires Capped(b)
    ensures Doubled(b, n) == if n == 0 || Exact(b, n - 1) < b.max / 2 then Exact(b, n) else b.max
    ensures n > 0 && Exact(b, n - 1) >= b.max / 2 ==> Exact(b, n) >= b.max / 2
  {
    if n > 0 { DoubledIs(b, n - 1); }
  }

  /** No product in the loop overflows when there is a cap. */
  lemma DoublingNeverOverflows(b: Backoff, n: nat)
    requires Capped(b) && Doubled(b, n) < b.max / 2
    ensures 0 < Doubled(b, n) * 2 <= b.max && Doubled(b, n + 1) == Doubled(b, n) * 2
  {
    DoubledIs(b, n);
  }

  /** The delay before jitter is min(max, base * 2^(retry-1)), except one nanosecond more
      when the cap is odd and the exact value is just below it. */
  lemma BackoffExact(b: Backoff, retry: nat)
    requires Capped(b) && retry >= 1
    ensures var full := b.base * Pow2(retry - 1);
            BeforeJitter(b, retry)
              == if retry >= 2 && b.max % 2 == 1 && full == b.max - 1 then b.max else Min(b.max, full)
  {
    DoubledIs(b, retry - 1);
    ExactIsPower(b, retry - 1);
  }

  lemma BackoffMonotone(b: Backoff, retry: nat)
    requires Capped(b) && retry >= 1
    ensures BeforeJitter(b, retry) <= BeforeJitter(b, retry + 1)
  {
    DoubledIs(b, retry - 1);
    DoubledIs(b, retry);
  }

  predicate InBounds(b: Backoff, delay: int) { Min(b.base, b.max) <= delay <= b.max }

  lemma BackoffBounded(b: Backoff, retry: nat, draw: int)
    requires Capped(b) && b.max + b.max / 2 <= MAX_INT64
    ensures InBounds(b, RetryDelay(b, retry, draw))
  {
    DoubledIs(b, if retry <= 1 then 0 else retry - 1);
  }

  lemma {:induction false} ExactGrows(b: Backoff, n: nat)
    requires b.base > 0
    ensures Exact(b, n) >= Pow2(n)
  {
    if n > 0 { ExactGrows(b, n - 1); }
  }

  lemma {:induction false} Pow2Adds(m: nat, n: nat)
    ensures Pow2(m + n) == Pow2(m) * Pow2(n)
  {
    if m > 0 { Pow2Adds(m - 1, n); }
  }

  lemma Tripled(n: nat)
    ensures Pow2(3 * n) == Pow2(n) * Pow2(n) * Pow2(n)
  {
    Pow2Adds(2 * n, n);
    Pow2Adds(n, n);
  }

  lemma Pow2Of63()
    ensures Pow2(63) == MAX_INT64 + 1
  {
    assert Pow2(7) == 128;
    Tripled(7);
    Tripled(21);
  }

  lemma WrapOnce(x: int)
    requires MAX_INT64 < x <= 3 * MAX_INT64
    ensures Wrap64(x) == x - 2 * (MAX_INT64 + 1)
  {
  }

  lemma LargestJitter(limit: nat)
    ensures Jitter(limit, limit) == limit
  {
  }

  /** With the largest jitter, a delay at a cap that is too large wraps below zero. */
  lemma LargeCapWraps(b: Backoff, delay: int)
    requires Capped(b) && delay == b.max && b.max + b.max / 2 > MAX_INT64
    ensures WithJitter(b, delay, Half(delay)) < 0
  {
    LargestJitter(Half(delay));
    WrapOnce(delay + Half(delay));
  }

  /** Every delay lies between min(base, max) and max exactly when 1.5 times the cap is an
      int64. Otherwise a delay at the cap wraps below zero with the largest jitter. */
  lemma BoundedIffCapFits(b: Backoff)
    requires Capped(b)
    ensures (forall retry: nat, draw: int :: InBounds(b, RetryDelay(b, retry, draw)))
       <==> b.max + b.max / 2 <= MAX_INT64
  {
    if b.max + b.max / 2 <= MAX_INT64 {
      forall retry: nat, draw: int ensures InBounds(b, RetryDelay(b, retry, draw)) { BackoffBounded(b, retry, draw); }
    } else {
      Pow2Of63();
      ExactGrows(b, 63);
      DoubledIs(b, 64);
      LargeCapWraps(b, BeforeJitter(b, 65));
      assert !InBounds(b, RetryDelay(b, 65, Half(b.max)));
    }
  }

  const MODULUS := 2 * (MAX_INT64 + 1)

  lemma WrapLap(x: int)
    ensures Wrap64(x + MODULUS) == Wrap64(x)
  {
  }

  lemma {:induction false} WrapShift(x: int, laps: int)
    ensures Wrap64(x + MODULUS * laps) == Wrap64(x)
    decreases if laps < 0 then -laps else laps
  {
    if laps > 0 {
      WrapShift(x, laps - 1);
      WrapLap(x + MODULUS * (laps - 1));
    } else if laps < 0 {
      WrapShift(x, laps + 1);
      WrapLap(x + MODULUS * laps);
    }
  }

  lemma WrapDoubles(x: int)
    ensures Wrap64(2 * Wrap64(x)) == Wrap64(2 * x)
  {
    var laps := (x + MAX_INT64 + 1) / MODULUS;
    assert x == Wrap64(x) + MODULUS * laps;
    WrapShift(2 * Wrap64(x), 2 * laps);
  }

  /** With no cap the loop keeps base * 2^n only modulo 2^64. */
  lemma {:induction false} UncappedWraps(b: Backoff, n: nat)
    requires Int64Backoff(b) && b.max <= 0
    ensures Doubled(b, n) == Wrap64(Exact(b, n))
  {
    if n > 0 {
      var x := Exact(b, n - 1);
      UncappedWraps(b, n - 1);
      WrapDoubles(x);
      assert Doubled(b, n) == Wrap64(2 * Wrap64(x));
    }
  }

  /** With no cap the delay before jitter is exact if and only if it fits. */
  lemma UncappedExactIffFits(b: Backoff, retry: nat)
    requires Int64Backoff(b) && b.max <= 0 && b.base > 0 && retry >= 1
    ensures BeforeJitter(b, retry) == b.base * Pow2(retry - 1) <==> b.base * Pow2(retry - 1) <= MAX_INT64
  {
    UncappedWraps(b, retry - 1);
    ExactIsPower(b, retry - 1);
  }

  /** The longest delay when `least` comes before jitter. */
  function Longest(b: Backoff, least: int): int {
    if b.max > 0 then Min(b.max, least + least / 2) else least + least / 2
  }

  lemma DrawIs(limit: nat, j: nat)
    requires j <= limit
    ensures Jitter(limit, j) == j
  {
  }

  lemma DrawReaches(b: Backoff, retry: nat, least: int, d: int)
    requires b.base > 0 && least == BeforeJitter(b, retry) && 0 < least && least + least / 2 <= MAX_INT64
    requires least <= d <= Longest(b, least)
    ensures RetryDelay(b, retry, d - least) == d
  {
    if Half(least) > 0 { DrawIs(Half(least), d - least); }
  }

  lemma DrawStays(b: Backoff, retry: nat, least: int, draw: int)
    requires b.base > 0 && least == BeforeJitter(b, retry) && 0 < least && least + least / 2 <= MAX_INT64
    requires b.max > 0 ==> least <= b.max
    ensures least <= RetryDelay(b, retry, draw) <= Longest(b, least)
  {
  }

  /** Jitter adds anything up to half the delay, and nothing else, up to the cap. */
  lemma DelaysExactly(b: Backoff, retry: nat, least: int, d: int)
    requires b.base > 0 && least == BeforeJitter(b, retry) && 0 < least && least + least / 2 <= MAX_INT64
    ensures (exists draw :: RetryDelay(b, retry, draw) == d) <==> least <= d <= Longest(b, least)
  {
    if least <= d <= Longest(b, least) { DrawReaches(b, retry, least, d); }
    forall draw ensures least <= RetryDelay(b, retry, draw) <= Longest(b, least) { DrawStays(b, retry, least, draw); }
  }

  /** Without a base delay there is no delay. */
  lemma NoBaseNoDelay(b: Backoff, retry: nat, draw: int)
    ensures b.base <= 0 ==> RetryDelay(b, retry, draw) == 0
  {
  }

  // ----- Attempts.

  datatype Fault = Fault(classification: string, retryable: bool, dropped: bool)

  datatype Response = Accepted | Failed(fault: Fault)

  /** The server and the clock: the response to the n-th request ever sent, and the jitter
      draw and the sleep after it. A sleep that is cut short gives the classification of the
      context's error. */
  datatype World = World(response: nat -> Response, draw: nat -> int, sleep: nat -> Option<string>)

  datatype Policy = Policy(maxRetries: int, backoff: Backoff)

  datatype Outcome = Delivered | Undelivered(fault: Fault)

  /** Sleeping is skipped when the delay is not positive. */
  function SleepBeforeRetry(p: Policy, world: World, at: nat, retry: nat): Option<Fault> {
    if RetryDelay(p.backoff, retry, world.draw(at)) <= 0 || world.sleep(at).None? then None
    else Some(Fault(world.sleep(at).value, false, false))
  }

  function Attempts(p: Policy): int { Wrap64(p.maxRetries + 1) }

  predicate Again(p: Policy, world: World, at: nat, attempt: nat) {
    && world.response(at).Failed? && world.response(at).fault.retryable
    && attempt < Attempts(p) && SleepBeforeRetry(p, world, at, attempt).None?
  }

  function Conclusion(p: Policy, world: World, at: nat, attempt: nat): Outcome {
    match world.response(at)
    case Accepted => Delivered
    case Failed(fault) =>
      var awake := SleepBeforeRetry(p, world, at, attempt);
      if fault.retryable && attempt < Attempts(p) && awake.Some? then Undelivered(awake.value) else Undelivered(fault)
  }

  /** The outcome, and the number of requests sent when it is known. */
  function PostFrom(p: Policy, world: World, at: nat, attempt: nat): (Outcome, nat)
    decreases Attempts(p) - attempt
  {
    if Again(p, world, at, attempt) then PostFrom(p, world, at + 1, attempt + 1)
    else (Conclusion(p, world, at, attempt), at + 1)
  }

  /** No attempt at all ends like a success. */
  function Post(p: Policy, world: World, at: nat): (Outcome, nat) {
    if Attempts(p) < 1 then (Delivered, at) else PostFrom(p, world, at, 1)
  }

  method PostPayload(p: Policy, world: World, at: nat) returns (outcome: Outcome, end: nat)
    ensures (outcome, end) == Post(p, world, at)
  {
    outcome, end := Delivered, at;
    var attempts := Wrap64(p.maxRetries + 1);
    var attempt := 1;
    while attempt <= attempts
      invariant 1 <= attempt && (attempts < 1 ==> outcome == Delivered && end == at)
      invariant attempts >= 1 ==> attempt <= attempts && Post(p, world, at) == PostFrom(p, world, end, attempt)
      decreases attempts - attempt
    {
      var response := world.response(end);
      end := end + 1;
      if response.Accepted? { return Delivered, end; }
      outcome := Undelivered(response.fault);
      if !response.fault.retryable || attempt == attempts { return; }
      var delay := ComputeRetryDelay(p.backoff, attempt, world.draw(end - 1));
      if delay > 0 && world.sleep(end - 1).Some? {
        return Undelivered(Fault(world.sleep(end - 1).value, false, false)), end;
      }
      attempt := attempt + 1;
    }
  }

  predicate Transient(world: World, at: nat) { world.response(at).Failed? && world.response(at).fault.retryable }

  lemma {:induction false} PostFromLaws(p: Policy, world: World, at: nat, attempt: nat)
    requires 1 <= attempt <= Attempts(p)
    ensures var (outcome, end) := PostFrom(p, world, at, attempt);
            && at < end <= at + Attempts(p) - attempt + 1
            && (forall i: nat :: at <= i < end - 1 ==> Transient(world, i))
            && (outcome.Delivered? <==> world.response(end - 1).Accepted?)
            && (outcome.Undelivered? && outcome.fault.retryable <==>
                  end == at + Attempts(p) - attempt + 1 && Transient(world, end - 1))
    decreases Attempts(p) - attempt
  {
    if Again(p, world, at, attempt) { PostFromLaws(p, world, at + 1, attempt + 1); }
  }

  /** A payload is sent at most maxRetries + 1 times, again only after a retryable failure. It
      is delivered exactly when its last response is a success, and its failure is retryable
      exactly when every one of those attempts failed so. */
  lemma PostLaws(p: Policy, world: World, at: nat)
    requires 0 <= p.maxRetries < MAX_INT64
    ensures var (outcome, end) := Post(p, world, at);
            && at < end <= at + p.maxRetries + 1
            && (forall i: nat :: at <= i < end - 1 ==> Transient(world, i))
            && (outcome.Delivered? <==> world.response(end - 1).Accepted?)
            && (outcome.Undelivered? && outcome.fault.retryable <==>
                  end == at + p.maxRetries + 1 && Transient(world, end - 1))
  {
    PostFromLaws(p, world, at, 1);
  }

  // ----- Sleeping between attempts.

  /** There is a delay after request i, the retry-th of its payload, and the sleep is cut short. */
  predicate CutShort(p: Policy, world: World, i: nat, retry: nat) {
    RetryDelay(p.backoff, retry, world.draw(i)) > 0 && world.sleep(i).Some?
  }

  /** The payload sent from `at` on is given up in the sleep after its last request. */
  predicate GivenUp(p: Policy, world: World, at: nat, end: nat)
    requires at < end
  {
    Transient(world, end - 1) && end - at < p.maxRetries + 1 && CutShort(p, world, end - 1, end - at)
  }

  /** The requests from `at` to before `last`, of the payload sent from `first` on, failed for a
      while only, and the sleep after each was not cut short. */
  ghost predicate AwakeUntil(p: Policy, world: World, first: nat, at: nat, last: nat)
    requires first <= at
  {
    forall i: nat :: at <= i < last ==> Transient(world, i) && !CutShort(p, world, i, i - first + 1)
  }

  /** The outcome when the payload sent from `first` on had its last request before `end`. */
  ghost predicate EndsAs(p: Policy, world: World, first: nat, end: nat, outcome: Outcome)
    requires first < end
  {
    && (GivenUp(p, world, first, end) <==> Transient(world, end - 1) && end - first < p.maxRetries + 1)
    && outcome == if world.response(end - 1).Accepted? then Delivered
                  else if GivenUp(p, world, first, end) then
                    Undelivered(Fault(world.sleep(end - 1).value, false, false))
                  else Undelivered(world.response(end - 1).fault)
  }

  lemma LastAttempt(p: Policy, world: World, first: nat, at: nat, attempt: nat)
    requires 0 <= p.maxRetries < MAX_INT64 && first + attempt == at + 1 && 1 <= attempt <= p.maxRetries + 1
    requires !Again(p, world, at, attempt)
    ensures EndsAs(p, world, first, at + 1, Conclusion(p, world, at, attempt))
  {
  }

  lemma AwakeLonger(p: Policy, world: World, first: nat, at: nat, attempt: nat, last: nat)
    requires 0 <= p.maxRetries < MAX_INT64 && 1 <= attempt && first + attempt == at + 1 && at + 1 <= last
    requires Again(p, world, at, attempt) && AwakeUntil(p, world, first, at + 1, last)
    ensures AwakeUntil(p, world, first, at, last)
  {
  }

  lemma {:induction false} SleepLawsFrom(p: Policy, world: World, first: nat, at: nat, attempt: nat)
    requires 0 <= p.maxRetries < MAX_INT64 && first + attempt == at + 1 && 1 <= attempt <= p.maxRetries + 1
    ensures var (outcome, end) := PostFrom(p, world, at, attempt);
            && at < end
            && AwakeUntil(p, world, first, at, end - 1) && EndsAs(p, world, first, end, outcome)
    decreases p.maxRetries - attempt
  {
    if Again(p, world, at, attempt) {
      SleepLawsFrom(p, world, first, at + 1, attempt + 1);
      AwakeLonger(p, world, first, at, attempt, PostFrom(p, world, at, attempt).1 - 1);
    } else {
      LastAttempt(p, world, first, at, attempt);
    }
  }

  /** No request follows one whose retry delay is positive and whose sleep was cut short. The
      payload is given up, with the fault of the context's error, exactly when its last response
      is transient, an attempt is left, and the sleep after it was cut short. Otherwise the last
      response decides, and unless it is transient and an attempt is left, it is the last. */
  lemma SleepLaws(p: Policy, world: World, at: nat)
    requires 0 <= p.maxRetries < MAX_INT64
    ensures var (outcome, end) := Post(p, world, at);
            && at < end <= at + p.maxRetries + 1
            && AwakeUntil(p, world, at, at, end - 1) && EndsAs(p, world, at, end, outcome)
  {
    PostLaws(p, world, at);
    SleepLawsFrom(p, world, at, at, 1);
    assert Post(p, world, at) == PostFrom(p, world, at, 1);
  }

  predicate AcknowledgedByServer(p: Policy, world: World, at: nat) {
    var (outcome, end) := Post(p, world, at);
    outcome.Delivered? ==> at < end && world.response(end - 1).Accepted?
  }

  /** Only an accepted payload counts as delivered, unless maxRetries is the largest integer:
      then maxRetries + 1 wraps and every payload is delivered without being sent. */
  lemma DeliveredMeansAccepted(p: Policy)
    requires 0 <= p.maxRetries <= MAX_INT64
    ensures (forall world, at :: AcknowledgedByServer(p, world, at)) <==> p.maxRetries < MAX_INT64
  {
    if p.maxRetries < MAX_INT64 {
      forall world, at ensures AcknowledgedByServer(p, world, at) { PostLaws(p, world, at); }
    } else {
      var world := World(_ => Accepted, _ => 0, _ => None);
      assert !AcknowledgedByServer(p, world, 0);
    }
  }
}
