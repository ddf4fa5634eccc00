/**
 The per-backend circuit breaker (internal/kernel/metering_circuit_breaker.go).

 The breaker as a value, what its fields mean over any history of calls, and the
 class whose methods implement the value's steps.
 */
module CircuitBreaker {
  import opened Calendar

  datatype CircuitState = Closed | Open | HalfOpen

  datatype Breaker = Breaker(state: CircuitState, failures: nat, threshold: nat, cooldown: int, tripped: Instant)

  const DEFAULT_THRESHOLD := 5
  const DEFAULT_COOLDOWN := 30_000_000_000

  /** A closed breaker with the given settings; those not positive get their defaults. */
  function Fresh(threshold: int, cooldown: int): (b: Breaker)
    ensures b.state.Closed? && b.failures == 0 && b.threshold > 0 && b.cooldown > 0
    ensures (threshold > 0 ==> b.threshold == threshold) && (cooldown > 0 ==> b.cooldown == cooldown)
    ensures (threshold <= 0 ==> b.threshold == 5) && (cooldown <= 0 ==> b.cooldown == 30_000_000_000)
  {
    Breaker(Closed, 0,
            if threshold <= 0 then DEFAULT_THRESHOLD else threshold,
            if cooldown <= 0 then DEFAULT_COOLDOWN else cooldown,
            ZERO_TIME)
  }

  predicate Admits(b: Breaker, now: Instant) {
    b.state.Closed? || (b.state.Open? && now - b.tripped >= b.cooldown)
  }

  function Consulted(b: Breaker, now: Instant): Breaker {
    if b.state.Open? && Admits(b, now) then b.(state := HalfOpen) else b
  }

  function Closing(b: Breaker): Breaker {
    b.(state := Closed, failures := 0)
  }

  function Failing(b: Breaker, now: Instant): Breaker {
    if b.failures + 1 >= b.threshold || b.state.HalfOpen? then b.(state := Open, tripped := now, failures := 0)
    else b.(failures := b.failures + 1)
  }

  // ---- histories ----

  datatype Call = Allow(at: Instant) | Succeeded(at: Instant) | Failed(at: Instant) | Reset(at: Instant)

  function Step(b: Breaker, c: Call): Breaker {
    match c
    case Allow(at) => Consulted(b, at)
    case Succeeded(_) => Closing(b)
    case Failed(at) => Failing(b, at)
    case Reset(_) => Closing(b)
  }

  /** A history of calls under a non-decreasing clock, with the breaker before each
      call and after the last. */
  ghost predicate History(bs: seq<Breaker>, cs: seq<Call>) {
    && |bs| == |cs| + 1
    && (exists threshold, cooldown :: bs[0] == Fresh(threshold, cooldown))
    && (forall i {:trigger cs[i]} :: 0 <= i < |cs| ==> bs[i + 1] == Step(bs[i], cs[i]))
    && (forall i, j :: 0 <= i < j < |cs| ==> cs[i].at <= cs[j].at)
  }

  /** The i-th call is a failure that trips the breaker open. */
  ghost predicate Trips(bs: seq<Breaker>, cs: seq<Call>, i: nat)
    requires |bs| == |cs| + 1 && i < |cs|
  {
    cs[i].Failed? && (bs[i].failures + 1 >= bs[i].threshold || bs[i].state.HalfOpen?)
  }

  ghost predicate Restores(cs: seq<Call>, i: nat)
    requires i < |cs|
  {
    cs[i].Succeeded? || cs[i].Reset?
  }

  /** The failures among the first n calls after the last success, reset or trip. */
  ghost function FailuresSince(bs: seq<Breaker>, cs: seq<Call>, n: nat): nat
    requires |bs| == |cs| + 1 && n <= |cs|
  {
    if n == 0 || Restores(cs, n - 1) || Trips(bs, cs, n - 1) then 0
    else FailuresSince(bs, cs, n - 1) + if cs[n - 1].Failed? then 1 else 0
  }

  /** The counter is that number and stays below the threshold; the settings stay. */
  lemma {:induction false} CounterMeaning(bs: seq<Breaker>, cs: seq<Call>, n: nat)
    requires History(bs, cs) && n <= |cs|
    ensures bs[n].failures == FailuresSince(bs, cs, n) < bs[n].threshold
    ensures bs[n].threshold == bs[0].threshold && bs[n].cooldown == bs[0].cooldown > 0
  {
    if n > 0 {
      CounterMeaning(bs, cs, n - 1);
      assert bs[n] == Step(bs[n - 1], cs[n - 1]);
    }
  }

  /** A call let through while the circuit is not closed. */
  ghost predicate Probe(bs: seq<Breaker>, cs: seq<Call>, i: nat)
    requires |bs| == |cs| + 1 && i < |cs|
  {
    cs[i].Allow? && Admits(bs[i], cs[i].at) && !bs[i].state.Closed?
  }

  /** Without an outcome or a reset the circuit stays half-open. */
  lemma {:induction false} HalfOpenUntilOutcome(bs: seq<Breaker>, cs: seq<Call>, i: nat, j: nat)
    requires History(bs, cs) && i <= j <= |cs|
    requires bs[i].state.HalfOpen?
    requires forall k :: i <= k < j ==> cs[k].Allow?
    ensures bs[j] == bs[i]
  {
    if i < j {
      HalfOpenUntilOutcome(bs, cs, i, j - 1);
      assert bs[j] == Step(bs[j - 1], cs[j - 1]);
    }
  }

  /** One probe at a time: between two probes an outcome or a reset is recorded. */
  lemma ProbesAreSeparated(bs: seq<Breaker>, cs: seq<Call>, i: nat, j: nat)
    requires History(bs, cs) && i < j < |cs|
    requires Probe(bs, cs, i) && Probe(bs, cs, j)
    ensures exists k :: i < k < j && !cs[k].Allow?
  {
    if forall k :: i < k < j ==> cs[k].Allow? {
      assert bs[i + 1] == Step(bs[i], cs[i]);
      HalfOpenUntilOutcome(bs, cs, i + 1, j);
    }
  }

  /** Until the cooldown is over nothing but a success or a reset ends an open circuit;
      later failures can only extend it. */
  lemma {:induction false} OpenUntilCooldown(bs: seq<Breaker>, cs: seq<Call>, i: nat, j: nat)
    requires History(bs, cs) && i < j <= |cs|
    requires Trips(bs, cs, i)
    requires forall k :: i < k < j ==> !Restores(cs, k)
    requires forall k {:trigger cs[k]} :: i < k < j ==> cs[k].at - cs[i].at < bs[i].cooldown
    ensures bs[j].state.Open? && bs[j].tripped >= cs[i].at && bs[j].cooldown == bs[i].cooldown
    decreases j
  {
    assert bs[j] == Step(bs[j - 1], cs[j - 1]);
    if i + 1 < j {
      OpenUntilCooldown(bs, cs, i, j - 1);
      assert !Restores(cs, j - 1);
    }
  }

  /** From a trip until the cooldown every request is refused, unless a success or a
      reset comes first. */
  lemma RefusedUntilCooldown(bs: seq<Breaker>, cs: seq<Call>, i: nat, j: nat)
    requires History(bs, cs) && i < j < |cs|
    requires Trips(bs, cs, i) && cs[j].Allow?
    requires forall k :: i < k < j ==> !Restores(cs, k)
    requires cs[j].at - cs[i].at < bs[i].cooldown
    ensures !Admits(bs[j], cs[j].at)
  {
    OpenUntilCooldown(bs, cs, i, j);
  }

  /** And the first request after the cooldown of the last trip is let through. */
  lemma {:induction false} AdmittedAfterCooldown(bs: seq<Breaker>, cs: seq<Call>, i: nat, j: nat)
    requires History(bs, cs) && i < j < |cs|
    requires Trips(bs, cs, i) && cs[j].Allow?
    requires forall k :: i < k < j ==> !Restores(cs, k) && !Trips(bs, cs, k) && !Probe(bs, cs, k)
    requires cs[j].at - cs[i].at >= bs[i].cooldown
    ensures Probe(bs, cs, j)
  {
    var n := i + 1;
    while n < j
      invariant i < n <= j
      invariant bs[n].state.Open? && bs[n].tripped == cs[i].at && bs[n].cooldown == bs[i].cooldown
    {
      assert !Restores(cs, n) && !Trips(bs, cs, n) && !Probe(bs, cs, n);
      n := n + 1;
      assert bs[n] == Step(bs[n - 1], cs[n - 1]);
    }
  }

  // ---- the breaker as the code has it ----

  class CircuitBreaker {
    var state: CircuitState
    var failureCount: nat
    const threshold: nat
    const cooldown: int
    var lastFailure: Instant

    function View(): Breaker
      reads this
    {
      Breaker(state, failureCount, threshold, cooldown, lastFailure)
    }

    constructor (threshold: int, cooldown: int)
      ensures View() == Fresh(threshold, cooldown)
    {
      state, failureCount, lastFailure := Closed, 0, ZERO_TIME;
      this.threshold := if threshold <= 0 then DEFAULT_THRESHOLD else threshold;
      this.cooldown := if cooldown <= 0 then DEFAULT_COOLDOWN else cooldown;
    }

    method Allow(now: Instant) returns (ok: bool)
      modifies this
      ensures ok == Admits(old(View()), now)
      ensures View() == Consulted(old(View()), now)
    {
      match state {
        case Closed =>
          return true;
        case Open =>
          if now - lastFailure >= cooldown {
            state := HalfOpen;
            return true;
          }
          return false;
        case HalfOpen =>
          return false;
      }
    }

    method RecordSuccess()
      modifies this
      ensures View() == Closing(old(View()))
    {
      failureCount := 0;
      state := Closed;
    }

    method RecordFailure(now: Instant)
      modifies this
      ensures View() == Failing(old(View()), now)
    {
      failureCount := failureCount + 1;
      if failureCount >= threshold || state == HalfOpen {
        state := Open;
        lastFailure := now;
        failureCount := 0;
      }
    }

    method Reset()
      modifies this
      ensures View() == Closing(old(View()))
    {
      state := Closed;
      failureCount := 0;
    }
  }
}
