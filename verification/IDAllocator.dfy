/** Endpoint ID allocation with uint16 wrap-around (swarm/registrar.go, allocateID). */
module IDAllocator {
  import opened Common
  import opened SwarmTypes

  const MAX_ENDPOINTS := 65534

  /** The i-th ID probed from a hint: `hint + i` in uint16 arithmetic, folded into 1..65534. */
  function Candidate(hint: EndpointID, i: nat): (c: EndpointID)
    requires i < MAX_ENDPOINTS
    ensures 1 <= c <= MAX_ENDPOINTS
  {
    var sum := (hint + i) % 0x1_0000;
    var nonzero := if sum == 0 then 1 else sum;
    if nonzero > MAX_ENDPOINTS then nonzero - MAX_ENDPOINTS else nonzero
  }

  ghost function Scan(taken: set<EndpointID>, hint: EndpointID, i: nat): Option<EndpointID>
    decreases MAX_ENDPOINTS - i
  {
    if i >= MAX_ENDPOINTS then None
    else if Candidate(hint, i) !in taken then Some(Candidate(hint, i))
    else Scan(taken, hint, i + 1)
  }

  /** An absent or zero hint means 1. */
  function StartOf(hint: EndpointID): EndpointID {
    if hint == 0 then 1 else hint
  }

  function NextHint(id: EndpointID): EndpointID {
    if id + 1 > MAX_ENDPOINTS then 1 else id + 1
  }

  /** The IDs some probe reaches. */
  ghost predicate Reached(hint: EndpointID, id: EndpointID) {
    exists i: nat :: i < MAX_ENDPOINTS && Candidate(hint, i) == id
  }

  /** The one or two IDs just below the hint that the wrap-around skips. */
  predicate Skipped(hint: EndpointID, id: EndpointID) {
    (hint == 3 && id == 2) || (hint >= 4 && (id == hint - 2 || id == hint - 1))
  }

  /** Which probe reaches an ID. */
  function ProbeIndex(hint: EndpointID, id: EndpointID): (i: int) {
    if id >= hint then id - hint
    else if id == 1 then 65535 - hint
    else 65536 + id - hint
  }

  /** For every hint, the probes reach all of 1..65534 except the skipped IDs. */
  lemma ReachedIffNotSkipped(hint: EndpointID, id: EndpointID)
    requires 1 <= hint <= MAX_ENDPOINTS && 1 <= id <= MAX_ENDPOINTS
    ensures Reached(hint, id) <==> !Skipped(hint, id)
  {
    if !Skipped(hint, id) {
      var i := ProbeIndex(hint, id);
      assert 0 <= i < MAX_ENDPOINTS && Candidate(hint, i) == id;
    }
  }

  lemma {:induction false} ScanOutcome(taken: set<EndpointID>, hint: EndpointID, i: nat)
    requires i <= MAX_ENDPOINTS
    ensures var r := Scan(taken, hint, i);
      match r
      case None => forall j: nat :: i <= j < MAX_ENDPOINTS ==> Candidate(hint, j) in taken
      case Some(id) => id !in taken && 1 <= id <= MAX_ENDPOINTS
    decreases MAX_ENDPOINTS - i
  {
    if i < MAX_ENDPOINTS && Candidate(hint, i) in taken {
      ScanOutcome(taken, hint, i + 1);
    }
  }

  /**
   Allocation fails exactly when every ID other than the skipped ones is taken; success yields a free
   ID in range. A free ID that happens to be skipped is not found.
   */
  lemma ScanCompleteness(taken: set<EndpointID>, hint: EndpointID)
    requires 1 <= hint <= MAX_ENDPOINTS
    ensures Scan(taken, hint, 0).None?
       <==> forall id: EndpointID :: 1 <= id <= MAX_ENDPOINTS && !Skipped(hint, id) ==> id in taken
    ensures Scan(taken, hint, 0).Some? ==>
            Scan(taken, hint, 0).value !in taken && 1 <= Scan(taken, hint, 0).value <= MAX_ENDPOINTS
  {
    ScanOutcome(taken, hint, 0);
    if Scan(taken, hint, 0).None? {
      forall id: EndpointID | 1 <= id <= MAX_ENDPOINTS && !Skipped(hint, id) ensures id in taken {
        ReachedIffNotSkipped(hint, id);
        var i: nat :| i < MAX_ENDPOINTS && Candidate(hint, i) == id;
      }
    } else if forall id: EndpointID :: 1 <= id <= MAX_ENDPOINTS && !Skipped(hint, id) ==> id in taken {
      ScanStopsAtReached(taken, hint, 0);
      ReachedIffNotSkipped(hint, Scan(taken, hint, 0).value);
      assert false;
    }
  }

  lemma {:induction false} ScanStopsAtReached(taken: set<EndpointID>, hint: EndpointID, i: nat)
    requires i <= MAX_ENDPOINTS && Scan(taken, hint, i).Some?
    ensures Reached(hint, Scan(taken, hint, i).value)
    decreases MAX_ENDPOINTS - i
  {
    if Candidate(hint, i) in taken {
      ScanStopsAtReached(taken, hint, i + 1);
    }
  }

  /** A concrete failure with an ID still free: from hint 3, ID 2 is never probed. */
  lemma FreeIDMissed(hint: EndpointID) returns (taken: set<EndpointID>)
    requires hint == 3
    ensures 2 !in taken && |taken| < MAX_ENDPOINTS && Scan(taken, hint, 0).None?
  {
    var all := AllIDs();
    taken := all - {2};
    ScanCompleteness(taken, hint);
  }

  lemma AllIDs() returns (ids: set<EndpointID>)
    ensures |ids| == MAX_ENDPOINTS
    ensures forall id: EndpointID :: id in ids <==> 1 <= id <= MAX_ENDPOINTS
  {
    ids := {};
    for n := 0 to MAX_ENDPOINTS
      invariant |ids| == n
      invariant forall id: EndpointID :: id in ids <==> 1 <= id <= n
    {
      ids := ids + {n + 1};
    }
  }

  /** With IDs exactly 1..n taken and the hint just above them, the first probe succeeds with n + 1. */
  lemma DenseScan(taken: set<EndpointID>, n: nat)
    requires n < MAX_ENDPOINTS
    requires forall id: EndpointID :: id in taken <==> 1 <= id <= n
    ensures Scan(taken, n + 1, 0) == Some(n + 1)
  {
    assert Candidate(n + 1, 0) == n + 1;
  }

  /** The probing loop of `allocateID`, on the IDs taken in one group. */
  method Probe<T>(group: map<EndpointID, T>, hint: EndpointID) returns (r: Option<EndpointID>)
    requires 1 <= hint
    ensures r == Scan(group.Keys, hint, 0)
  {
    var i := 0;
    while i < MAX_ENDPOINTS
      invariant 0 <= i <= MAX_ENDPOINTS
      invariant Scan(group.Keys, hint, i) == Scan(group.Keys, hint, 0)
    {
      var candidate := (hint + i) % 0x1_0000;
      if candidate == 0 {
        candidate := 1;
      }
      if candidate > MAX_ENDPOINTS {
        candidate := candidate - MAX_ENDPOINTS;
      }
      assert candidate == Candidate(hint, i);
      if candidate !in group {
        return Some(candidate);
      }
      i := i + 1;
    }
    return None;
  }
}
