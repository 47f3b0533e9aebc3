/** Webhook delivery: the retry loop and the time bound the startup check computes for it.
    Durations are whole nanoseconds. */
module Notify {

  const SECOND := 1_000_000_000

  /** How one POST ends; a transport failure is answered by nobody. */
  datatype Reply = NoAnswer | Answered(code: int)

  /** What happens while the loop waits after a failed attempt. */
  datatype Wait = Slept | Cancelled(after: nat)

  datatype Attempt = Attempt(reply: Reply, took: nat, wait: Wait)

  /** The behaviour of the endpoint and the context, by attempt number. */
  type Network = nat -> Attempt

  datatype Result = Delivered | Failed(reply: Reply) | Canceled

  function StatusOf(r: Reply): int {
    if r.NoAnswer? then 0 else r.code
  }

  predicate Success(r: Reply) {
    r.Answered? && 200 <= r.code <= 299
  }

  predicate Retryable(status: int) {
    status == 0 || status >= 500 || status == 429
  }

  function Backoff(attempt: nat): nat {
    attempt * SECOND
  }

  function MaxAttempts(retries: int): nat {
    if retries + 1 < 1 then 1 else retries + 1
  }

  /** The loop goes on after this attempt, if it is not the last one allowed. */
  predicate GoesOn(a: Attempt) {
    !Success(a.reply) && Retryable(StatusOf(a.reply)) && a.wait.Slept?
  }

  /** The attempt the loop ends with, when it has come to attempt `k`. */
  function LastFrom(net: Network, max: nat, k: nat): (r: nat)
    requires k <= max
    ensures k <= r <= max
    ensures forall i :: k <= i < r ==> GoesOn(net(i))
    ensures r == max || !GoesOn(net(r))
    decreases max - k
  {
    if k == max || !GoesOn(net(k)) then k else LastFrom(net, max, k + 1)
  }

  function Last(net: Network, retries: int): nat {
    LastFrom(net, MaxAttempts(retries), 1)
  }

  /** The loop is cut short while waiting after its last attempt. */
  predicate CutShort(net: Network, retries: int) {
    var k := Last(net, retries);
    && k < MaxAttempts(retries) && !Success(net(k).reply) && Retryable(StatusOf(net(k).reply))
    && net(k).wait.Cancelled?
  }

  function ResultOf(net: Network, retries: int): Result {
    var reply := net(Last(net, retries)).reply;
    if Success(reply) then Delivered else if CutShort(net, retries) then Canceled else Failed(reply)
  }

  /** Time spent on attempts 1 to `k - 1` and the waits after them. */
  function Before(net: Network, k: nat): nat {
    if k <= 1 then 0 else Before(net, k - 1) + net(k - 1).took + Backoff(k - 1)
  }

  /** A cancelled wait ends no later than the backoff it interrupts. */
  function Interrupted(net: Network, k: nat): nat {
    if net(k).wait.Cancelled? && net(k).wait.after < Backoff(k) then net(k).wait.after else Backoff(k)
  }

  function Elapsed(net: Network, retries: int): nat {
    var k := Last(net, retries);
    Before(net, k) + net(k).took + if CutShort(net, retries) then Interrupted(net, k) else 0
  }

  /** The remote side: what it does, the attempt numbers it was sent, the time that passed. */
  class Endpoint {
    const network: Network
    var received: seq<nat>
    var elapsed: nat

    constructor (network: Network)
      ensures this.network == network && received == [] && elapsed == 0
    {
      this.network, received, elapsed := network, [], 0;
    }

    /** One attempt: the status, 0 when nothing was answered, and whether it failed. */
    method Post(attempt: nat) returns (status: int, failed: bool)
      modifies this
      ensures received == old(received) + [attempt]
      ensures elapsed == old(elapsed) + network(attempt).took
      ensures status == StatusOf(network(attempt).reply) && failed == !Success(network(attempt).reply)
    {
      received := received + [attempt];
      elapsed := elapsed + network(attempt).took;
      status, failed := StatusOf(network(attempt).reply), !Success(network(attempt).reply);
    }

    /** Waiting, unless the context is cancelled first. */
    method Sleep(attempt: nat, wait: nat) returns (cancelled: bool)
      modifies this`elapsed
      requires wait == Backoff(attempt)
      ensures cancelled == network(attempt).wait.Cancelled?
      ensures elapsed == old(elapsed) + Interrupted(network, attempt)
    {
      cancelled := network(attempt).wait.Cancelled?;
      elapsed := elapsed + Interrupted(network, attempt);
    }
  }

  function OneTo(k: nat): (r: seq<nat>)
    ensures |r| == k && forall i :: 0 <= i < k ==> r[i] == i + 1
  {
    if k == 0 then [] else OneTo(k - 1) + [k]
  }

  class HTTP {
    const endpoint: Endpoint
    const retries: int
    const dryRun: bool

    constructor (endpoint: Endpoint, retries: int, dryRun: bool)
      ensures this.endpoint == endpoint && this.retries == retries && this.dryRun == dryRun
    {
      this.endpoint, this.retries, this.dryRun := endpoint, retries, dryRun;
    }

    method Notify() returns (r: Result)
      modifies endpoint
      ensures dryRun ==>
        r == Delivered && endpoint.received == old(endpoint.received) && endpoint.elapsed == old(endpoint.elapsed)
      ensures !dryRun ==>
        && r == ResultOf(endpoint.network, retries)
        && endpoint.received == old(endpoint.received) + OneTo(Last(endpoint.network, retries))
        && endpoint.elapsed == old(endpoint.elapsed) + Elapsed(endpoint.network, retries)
    {
      if dryRun {
        return Delivered;
      }
      var attempts := retries + 1;
      if attempts < 1 {
        attempts := 1;
      }
      var attempt := 1;
      while true
        invariant 1 <= attempt <= attempts == MaxAttempts(retries)
        invariant ComesTo(endpoint.network, retries, attempt)
        invariant endpoint.received == old(endpoint.received) + OneTo(attempt - 1)
        invariant endpoint.elapsed == old(endpoint.elapsed) + Before(endpoint.network, attempt)
        decreases attempts - attempt
      {
        StepOrEnd(endpoint.network, retries, attempt);
        var status, failed := endpoint.Post(attempt);
        assert endpoint.received == old(endpoint.received) + OneTo(attempt);
        if !failed {
          return Delivered;
        }
        var lastErr := Failed(endpoint.network(attempt).reply);
        if !Retryable(status) || attempt == attempts {
          return lastErr;
        }
        var wait := Backoff(attempt);
        var cancelled := endpoint.Sleep(attempt, wait);
        if cancelled {
          return Canceled;
        }
        attempt := attempt + 1;
      }
    }
  }

  /** The loop comes to attempt `k`. */
  predicate ComesTo(net: Network, retries: int, k: nat) {
    1 <= k <= MaxAttempts(retries) && Last(net, retries) == LastFrom(net, MaxAttempts(retries), k)
  }

  /** At attempt `k` the loop goes on to the next one or ends with a known outcome. */
  lemma StepOrEnd(net: Network, retries: int, k: nat)
    requires ComesTo(net, retries, k)
    ensures k < MaxAttempts(retries) && GoesOn(net(k)) ==>
      ComesTo(net, retries, k + 1) && Before(net, k + 1) == Before(net, k) + net(k).took + Interrupted(net, k)
    ensures !(k < MaxAttempts(retries) && GoesOn(net(k))) ==>
      var tried := !Success(net(k).reply) && Retryable(StatusOf(net(k).reply)) && k < MaxAttempts(retries);
      && Last(net, retries) == k
      && ResultOf(net, retries)
         == (if Success(net(k).reply) then Delivered else if tried then Canceled else Failed(net(k).reply))
      && Elapsed(net, retries) == Before(net, k) + net(k).took + if tried then Interrupted(net, k) else 0
  {
  }

  /** The attempts are numbered from 1, at most max(1, retries + 1) of them; all but the
      last are retryable failures, and delivery is reported iff the last one succeeded. */
  lemma AttemptsMean(net: Network, retries: int)
    ensures var k := Last(net, retries);
      && 1 <= k <= MaxAttempts(retries)
      && (forall i :: 1 <= i < k ==> !Success(net(i).reply) && Retryable(StatusOf(net(i).reply)))
      && (ResultOf(net, retries) == Delivered <==> exists i :: 1 <= i <= k && Success(net(i).reply))
      && (ResultOf(net, retries).Failed? ==> k == MaxAttempts(retries) || !Retryable(StatusOf(net(k).reply)))
  {
  }

  // ----- the time bound -----

  function Triangle(n: nat): nat {
    if n == 0 then 0 else Triangle(n - 1) + n
  }

  lemma TriangleClosed(n: nat)
    ensures 2 * Triangle(n) == n * (n + 1)
  {
  }

  /** The budget compared with the liveness window at startup. */
  function WorstCase(timeout: int, retries: int): int {
    (retries + 1) * timeout + if retries < 0 then 0 else Triangle(retries) * SECOND
  }

  method WebhookWorstCase(timeout: int, retries: int) returns (total: int)
    ensures total == WorstCase(timeout, retries)
    ensures retries >= 0 ==> 2 * total == 2 * ((retries + 1) * timeout) + retries * (retries + 1) * SECOND
    ensures retries < 0 ==> total == (retries + 1) * timeout
  {
    total := (retries + 1) * timeout;
    var attempt := 1;
    while attempt <= retries
      invariant 1 <= attempt && (retries >= 0 ==> attempt <= retries + 1) && (retries < 0 ==> attempt == 1)
      invariant total == (retries + 1) * timeout + Triangle(attempt - 1) * SECOND
    {
      total := total + Backoff(attempt);
      attempt := attempt + 1;
    }
    if retries >= 0 {
      TriangleClosed(retries);
    }
  }

  predicate Bounded(net: Network, timeout: nat, retries: int) {
    forall i :: 1 <= i <= MaxAttempts(retries) ==> net(i).took <= timeout
  }

  lemma {:induction false} BeforeBound(net: Network, timeout: nat, k: nat)
    requires k >= 1 && forall i :: 1 <= i < k ==> net(i).took <= timeout
    ensures Before(net, k) <= (k - 1) * timeout + Triangle(k - 1) * SECOND
  {
    if k > 1 {
      BeforeBound(net, timeout, k - 1);
      assert (k - 1) * timeout == (k - 2) * timeout + timeout;
    }
  }

  lemma TriangleMonotone(a: nat, b: nat)
    requires a <= b
    ensures Triangle(a) <= Triangle(b)
  {
  }

  /** However the endpoint behaves, and even when the wait is cut short, a delivery stays
      inside the computed budget. */
  lemma DeliveryWithinBudget(net: Network, timeout: nat, retries: int)
    requires retries >= 0 && Bounded(net, timeout, retries)
    ensures Elapsed(net, retries) <= WorstCase(timeout, retries)
  {
    var k := Last(net, retries);
    BeforeBound(net, timeout, k);
    Widen(timeout, k, retries + 1);
    if CutShort(net, retries) {
      TriangleMonotone(k, retries);
    } else {
      TriangleMonotone(k - 1, retries);
    }
  }

  lemma Widen(timeout: nat, k: nat, n: nat)
    requires 1 <= k <= n
    ensures (k - 1) * timeout + timeout <= n * timeout
  {
    assert n * timeout == (k - 1) * timeout + timeout + (n - k) * timeout;
  }

  function Dead(timeout: nat): Network {
    _ => Attempt(NoAnswer, timeout, Slept)
  }

  lemma {:induction false} DeadBefore(timeout: nat, k: nat)
    requires k >= 1
    ensures Before(Dead(timeout), k) == (k - 1) * timeout + Triangle(k - 1) * SECOND
  {
    if k > 1 {
      DeadBefore(timeout, k - 1);
      assert (k - 1) * timeout == (k - 2) * timeout + timeout;
    }
  }

  /** An endpoint that never answers uses the whole budget. */
  lemma BudgetAttained(timeout: nat, retries: int)
    requires retries >= 0
    ensures Bounded(Dead(timeout), timeout, retries) && Elapsed(Dead(timeout), retries) == WorstCase(timeout, retries)
  {
    DeadBefore(timeout, retries + 1);
    assert (retries + 1) * timeout == retries * timeout + timeout;
  }

  /** A negative retry count still makes one attempt, but the budget then counts none: the
      bound covers every endpoint exactly when the count is not negative. */
  lemma BudgetCoversIff(timeout: nat, retries: int)
    requires timeout > 0
    ensures retries >= 0 <==>
      forall net: Network :: Bounded(net, timeout, retries) ==> Elapsed(net, retries) <= WorstCase(timeout, retries)
  {
    if retries >= 0 {
      forall net: Network | Bounded(net, timeout, retries)
        ensures Elapsed(net, retries) <= WorstCase(timeout, retries)
      {
        DeliveryWithinBudget(net, timeout, retries);
      }
    } else {
      NegativeOverruns(timeout, retries);
    }
  }

  lemma NegativeOverruns(timeout: nat, retries: int)
    requires timeout > 0 && retries < 0
    ensures Bounded(Dead(timeout), timeout, retries) && Elapsed(Dead(timeout), retries) > WorstCase(timeout, retries)
  {
    NonPositive(retries + 1, timeout);
  }

  lemma NonPositive(a: int, b: nat)
    requires a <= 0
    ensures a * b <= 0
  {
  }

  // ----- by status code -----

  /** Nothing was answered, or one of the codes another attempt may get past. */
  predicate Transient(r: Reply) {
    match r
    case NoAnswer => true
    case Answered(code) => code == 0 || code == 429 || code >= 500
  }

  /** The attempts by status code alone: the loop ends with the first one that is not a
      transient failure, whose wait is cancelled, or that is the last allowed. */
  lemma EndsByCode(net: Network, retries: int)
    ensures var k, max := Last(net, retries), if retries <= 0 then 1 else retries + 1;
      && 1 <= k <= max
      && (forall i :: 1 <= i < k ==> Transient(net(i).reply) && net(i).wait.Slept?)
      && (k == max || !Transient(net(k).reply) || net(k).wait.Cancelled?)
      && ResultOf(net, retries)
         == (if net(k).reply.Answered? && 200 <= net(k).reply.code < 300 then Delivered
             else if k < max && Transient(net(k).reply) then Canceled
             else Failed(net(k).reply))
  {
    forall i ensures GoesOn(net(i)) <==> Transient(net(i).reply) && net(i).wait.Slept? {
      GoesOnByCode(net(i));
    }
    GoesOnByCode(net(Last(net, retries)));
  }

  lemma GoesOnByCode(a: Attempt)
    ensures !Success(a.reply) && Retryable(StatusOf(a.reply)) <==> Transient(a.reply)
  {
  }

  /** A delivery and a permanent failure end the loop at once; a wait that is cancelled ends
      it with what was waited, one second at most after the first attempt. */
  lemma FirstReplyDecides(net: Network, retries: int)
    ensures net(1).reply.Answered? && 200 <= net(1).reply.code < 300 ==>
      Last(net, retries) == 1 && ResultOf(net, retries) == Delivered && Elapsed(net, retries) == net(1).took
    ensures net(1).reply.Answered? && 300 <= net(1).reply.code < 500 && net(1).reply.code != 429 ==>
      && Last(net, retries) == 1 && ResultOf(net, retries) == Failed(net(1).reply)
      && Elapsed(net, retries) == net(1).took
    ensures net(1).reply.Answered? && net(1).reply.code < 200 && net(1).reply.code != 0 ==>
      && Last(net, retries) == 1 && ResultOf(net, retries) == Failed(net(1).reply)
      && Elapsed(net, retries) == net(1).took
    ensures retries >= 1 && Transient(net(1).reply) && net(1).wait.Cancelled? ==>
      var after := net(1).wait.after;
      && Last(net, retries) == 1 && ResultOf(net, retries) == Canceled
      && Elapsed(net, retries) == net(1).took + if after < 1_000_000_000 then after else 1_000_000_000
  {
    EndsByCode(net, retries);
  }

  /** An endpoint that only ever fails transiently is tried as often as allowed. */
  lemma TransientUsesAll(net: Network, retries: int)
    requires forall i :: 1 <= i ==> Transient(net(i).reply) && net(i).wait.Slept?
    ensures Last(net, retries) == if retries <= 0 then 1 else retries + 1
    ensures ResultOf(net, retries) == Failed(net(Last(net, retries)).reply)
  {
    EndsByCode(net, retries);
  }
}
