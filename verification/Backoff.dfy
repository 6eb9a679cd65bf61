/** The poll timer of AutoEnroll: capped doubling in 64-bit nanoseconds (swarm/endpoint.go). */
module Backoff {
  import opened Common
  import opened SwarmTypes

  type Duration = x: int | -0x8000_0000_0000_0000 <= x < 0x8000_0000_0000_0000

  const SECOND := 1_000_000_000
  const DEFAULT_INTERVAL := 5 * SECOND
  const MAX_INTERVAL := 60 * SECOND

  /** The longest interval whose double still fits 64 bits, plus one. */
  const DOUBLING_LIMIT := 0x4000_0000_0000_0000

  /** `interval * 2` in int64 arithmetic. */
  function Double(x: Duration): Duration {
    if 2 * x >= 0x8000_0000_0000_0000 then 2 * x - 0x1_0000_0000_0000_0000
    else if 2 * x < -0x8000_0000_0000_0000 then 2 * x + 0x1_0000_0000_0000_0000
    else 2 * x
  }

  function Start(pollInterval: Duration): Duration {
    if pollInterval <= 0 then DEFAULT_INTERVAL else pollInterval
  }

  function Grow(interval: Duration): Duration {
    if Double(interval) > MAX_INTERVAL then MAX_INTERVAL else Double(interval)
  }

  /** The interval after k polls that answered Pending. */
  function IntervalAfter(start: Duration, k: nat): Duration {
    if k == 0 then start else Grow(IntervalAfter(start, k - 1))
  }

  function Pow2(k: nat): (r: nat)
    ensures r > 0
  {
    if k == 0 then 1 else 2 * Pow2(k - 1)
  }

  function Min(a: int, b: int): int {
    if a < b then a else b
  }

  lemma {:induction false} DoublingUntilCapped(p: Duration, k: nat)
    requires 0 < p < DOUBLING_LIMIT && k >= 1
    ensures IntervalAfter(p, k) == Min(p * Pow2(k), MAX_INTERVAL)
  {
    assert Pow2(k) == 2 * Pow2(k - 1);
    if k == 1 {
      assert IntervalAfter(p, 1) == Grow(IntervalAfter(p, 0));
    } else {
      DoublingUntilCapped(p, k - 1);
      assert p * Pow2(k) == 2 * (p * Pow2(k - 1));
    }
  }

  /** The k-th wait is min(p * 2^k, 60s) for every k >= 1 exactly when doubling the start cannot overflow. */
  lemma BackoffFormulaIff(p: Duration)
    requires p > 0
    ensures (forall k: nat :: k >= 1 ==> IntervalAfter(p, k) == Min(p * Pow2(k), MAX_INTERVAL)) <==> p < DOUBLING_LIMIT
  {
    if p < DOUBLING_LIMIT {
      forall k: nat | k >= 1 ensures IntervalAfter(p, k) == Min(p * Pow2(k), MAX_INTERVAL) {
        DoublingUntilCapped(p, k);
      }
    } else {
      var k: nat := 1;
      assert Pow2(k) == 2 * Pow2(0);
      assert IntervalAfter(p, k) == Grow(IntervalAfter(p, 0)) < 0;
      assert p * Pow2(k) > 0;
    }
  }

  // ---------- the poll loop ----------

  type PollResult = Result<LifecycleState, ()>

  datatype Outcome = Enrolled | EnrollmentDenied | PollFailed | ContextDone

  predicate Settles(r: PollResult) {
    r.Err? || r.value == Registered || r.value == Denied
  }

  function Pendings(polls: seq<PollResult>): nat {
    if polls == [] then 0 else Pendings(polls[..|polls| - 1]) + if polls[|polls| - 1] == Ok(Pending) then 1 else 0
  }

  lemma PendingsStep(polls: seq<PollResult>, n: nat)
    requires n < |polls|
    ensures Pendings(polls[..n + 1]) == Pendings(polls[..n]) + if polls[n] == Ok(Pending) then 1 else 0
  {
    assert polls[..n + 1][..n] == polls[..n];
  }

  /** The timer was set, before each poll, to the interval that the polls so far call for. */
  ghost predicate WaitsFollow(start: Duration, polls: seq<PollResult>, waits: seq<Duration>) {
    forall j :: 0 <= j < |waits| ==> j <= |polls| && waits[j] == IntervalAfter(start, Pendings(polls[..j]))
  }

  /** One poll that does not settle grows the interval exactly if it answered Pending. */
  lemma PollStep(start: Duration, polls: seq<PollResult>, waits: seq<Duration>, next: Duration)
    requires 0 < |waits| <= |polls| && WaitsFollow(start, polls, waits)
    requires next == if polls[|waits| - 1] == Ok(Pending) then Grow(waits[|waits| - 1]) else waits[|waits| - 1]
    ensures WaitsFollow(start, polls, waits + [next])
  {
    var n := |waits| - 1;
    PendingsStep(polls, n);
    var longer := waits + [next];
    forall j | 0 <= j < |longer| ensures j <= |polls| && longer[j] == IntervalAfter(start, Pendings(polls[..j])) {
      if j == |waits| {
        assert waits[n] == IntervalAfter(start, Pendings(polls[..n]));
      }
    }
  }

  /**
   The loop of AutoEnroll for the answers its polls receive; the context is done once they run out. `waits`
   lists every duration the timer was set to.
   */
  method PollLoop(pollInterval: Duration, polls: seq<PollResult>) returns (outcome: Outcome, waits: seq<Duration>)
    ensures 1 <= |waits| <= |polls| + 1
    ensures WaitsFollow(Start(pollInterval), polls, waits)
    ensures waits[0] == if pollInterval <= 0 then 5_000_000_000 else pollInterval
    ensures forall j :: 0 <= j < |waits| - 1 ==>
              polls[j].Ok? && polls[j].value != Registered && polls[j].value != Denied
    ensures match outcome
            case Enrolled => |waits| <= |polls| && polls[|waits| - 1] == Ok(Registered)
            case EnrollmentDenied => |waits| <= |polls| && polls[|waits| - 1] == Ok(Denied)
            case PollFailed => |waits| <= |polls| && polls[|waits| - 1].Err?
            case ContextDone => |waits| == |polls| + 1
  {
    var interval := Start(pollInterval);
    waits := [interval];
    var n := 0;
    while n < |polls|
      invariant 0 <= n <= |polls| && |waits| == n + 1 && interval == waits[n]
      invariant waits[0] == Start(pollInterval) && WaitsFollow(Start(pollInterval), polls, waits)
      invariant forall j :: 0 <= j < n ==> !Settles(polls[j])
    {
      var status := polls[n];
      if status.Err? {
        return PollFailed, waits;
      }
      match status.value {
        case Registered => return Enrolled, waits;
        case Denied => return EnrollmentDenied, waits;
        case Pending =>
          interval := Double(interval);
          if interval > MAX_INTERVAL {
            interval := MAX_INTERVAL;
          }
        case _ =>
      }
      PollStep(Start(pollInterval), polls, waits, interval);
      waits := waits + [interval];
      n := n + 1;
    }
    outcome := ContextDone;
  }
}
