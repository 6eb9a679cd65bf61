/** Relay ranking, transport selection and the dynamic monitor (swarm/discovery.go). */
module Discovery {
  import opened Common
  import opened SwarmTypes

  /** A latency of 0 means the relay has not been probed. */
  datatype RelayInfo = RelayInfo(addr: EndpointAddr, latency: int)

  datatype Mode = Pinned | Relay | Peer | Dynamic | OtherMode

  datatype TransportConfig = TransportConfig(mode: Mode, pinnedRelay: Option<EndpointAddr>, threshold: int)

  datatype TransportDecision = TransportDecision(useRelay: bool, relayAddr: Option<EndpointAddr>, p2pLatency: int,
                                                 relayLatency: int)

  const NO_DECISION := TransportDecision(false, None, 0, 0)

  // ---------- ranking ----------

  /** The comparator handed to sort.Slice. */
  predicate Before(a: RelayInfo, b: RelayInfo) {
    if a.latency == 0 then false
    else if b.latency == 0 then true
    else a.latency < b.latency
  }

  /** The comparator is a strict weak order, so sorting by it is well defined. */
  lemma BeforeIsStrictWeakOrder(a: RelayInfo, b: RelayInfo, c: RelayInfo)
    ensures !Before(a, a)
    ensures Before(a, b) ==> !Before(b, a)
    ensures Before(a, b) && Before(b, c) ==> Before(a, c)
    ensures !Before(a, b) && !Before(b, c) ==> !Before(a, c)
    ensures !Before(a, b) && !Before(b, a) <==> a.latency == b.latency
  {
  }

  /** A latency of 0 counts as infinite. */
  lemma BeforeExactly(a: RelayInfo, b: RelayInfo)
    ensures Before(a, b) <==> a.latency != 0 && (b.latency == 0 || a.latency < b.latency)
  {
  }

  ghost predicate Ordered(s: seq<RelayInfo>) {
    forall i, j :: 0 <= i < j < |s| ==> !Before(s[j], s[i])
  }

  /** Any result an unstable sort by the comparator may give. */
  ghost predicate Ranked(relays: seq<RelayInfo>, out: seq<RelayInfo>) {
    multiset(out) == multiset(relays) && Ordered(out)
  }

  /** In a ranking, measured relays come first, the fastest at the front, and unprobed ones last. */
  lemma RankedExactly(relays: seq<RelayInfo>, out: seq<RelayInfo>)
    ensures Ranked(relays, out) <==>
      && multiset(out) == multiset(relays)
      && forall i, j :: 0 <= i < j < |out| && out[j].latency != 0 ==>
           out[i].latency != 0 && out[i].latency <= out[j].latency
  {
    if multiset(out) == multiset(relays) {
      assert Ordered(out) <==> forall i, j :: 0 <= i < j < |out| ==> !Before(out[j], out[i]);
    }
  }

  function InsertPoint(s: seq<RelayInfo>, x: RelayInfo): (k: nat)
    ensures k <= |s|
    ensures forall i :: k <= i < |s| ==> Before(x, s[i])
    ensures k > 0 ==> !Before(x, s[k - 1])
  {
    if s == [] || !Before(x, s[|s| - 1]) then |s| else InsertPoint(s[..|s| - 1], x)
  }

  function Insert(s: seq<RelayInfo>, x: RelayInfo): (r: seq<RelayInfo>)
    ensures multiset(r) == multiset(s) + multiset{x}
  {
    var k := InsertPoint(s, x);
    assert s == s[..k] + s[k..];
    s[..k] + [x] + s[k..]
  }

  lemma InsertKeepsOrder(s: seq<RelayInfo>, x: RelayInfo)
    requires Ordered(s)
    ensures Ordered(Insert(s, x))
  {
    var k := InsertPoint(s, x);
    forall i | 0 <= i < k ensures !Before(x, s[i]) {
      assert !Before(x, s[k - 1]);
      BeforeIsStrictWeakOrder(x, s[k - 1], s[i]);
    }
  }

  /** Sorts a copy; insertion stands in for the library's sort. */
  method RankRelays(relays: seq<RelayInfo>) returns (sorted: seq<RelayInfo>)
    ensures Ranked(relays, sorted)
  {
    sorted := [];
    for n := 0 to |relays|
      invariant Ranked(relays[..n], sorted)
    {
      InsertKeepsOrder(sorted, relays[n]);
      assert relays[..n + 1] == relays[..n] + [relays[n]];
      sorted := Insert(sorted, relays[n]);
    }
    assert relays[..|relays|] == relays;
  }

  // ---------- the best relay ----------

  /** The first relay with a positive latency, else the first relay. */
  function FirstProbed(ranked: seq<RelayInfo>, i: nat): Option<RelayInfo>
    requires i <= |ranked|
    decreases |ranked| - i
  {
    if i == |ranked| then (if ranked == [] then None else Some(ranked[0]))
    else if ranked[i].latency > 0 then Some(ranked[i])
    else FirstProbed(ranked, i + 1)
  }

  /** `best` is what bestRelay returns for some way of sorting the relays. */
  ghost predicate IsBest(relays: seq<RelayInfo>, best: Option<RelayInfo>) {
    exists ranked :: Ranked(relays, ranked) && best == FirstProbed(ranked, 0)
  }

  ghost predicate HasProbed(relays: seq<RelayInfo>) {
    exists r :: r in relays && r.latency > 0
  }

  lemma {:induction false} FirstProbedIsLeast(ranked: seq<RelayInfo>, i: nat)
    requires Ordered(ranked) && i <= |ranked| && forall j :: 0 <= j < i ==> ranked[j].latency <= 0
    ensures var b := FirstProbed(ranked, i);
      && (b.None? <==> ranked == [])
      && (b.Some? ==> b.value in ranked)
      && (b.Some? && HasProbed(ranked) ==>
           b.value.latency > 0 && forall r :: r in ranked && r.latency > 0 ==> b.value.latency <= r.latency)
      && (b.Some? && !HasProbed(ranked) ==> b.value == ranked[0])
    decreases |ranked| - i
  {
    if i < |ranked| && ranked[i].latency <= 0 {
      FirstProbedIsLeast(ranked, i + 1);
    } else if i < |ranked| {
      forall r | r in ranked && r.latency > 0 ensures ranked[i].latency <= r.latency {
        var j :| 0 <= j < |ranked| && ranked[j] == r;
        if i < j {
          assert !Before(ranked[j], ranked[i]);
        }
      }
    }
  }

  lemma SameElements(a: seq<RelayInfo>, b: seq<RelayInfo>)
    requires multiset(a) == multiset(b)
    ensures |a| == |b| && forall r :: r in a <==> r in b
  {
    assert |multiset(a)| == |a| && |multiset(b)| == |b|;
    forall r ensures r in a <==> r in b {
      assert r in a <==> r in multiset(a);
      assert r in b <==> r in multiset(b);
    }
  }

  /** There is a best relay exactly when there is a relay; it has the least positive latency if any is positive. */
  lemma BestIsLeastPositive(relays: seq<RelayInfo>, best: Option<RelayInfo>)
    requires IsBest(relays, best)
    ensures best.None? <==> relays == []
    ensures best.Some? ==> best.value in relays
    ensures HasProbed(relays) ==>
      && best.Some? && best.value.latency > 0
      && forall r :: r in relays && r.latency > 0 ==> best.value.latency <= r.latency
    ensures best.Some? && !HasProbed(relays) ==> forall r :: r in relays ==> !Before(r, best.value)
  {
    var ranked :| Ranked(relays, ranked) && best == FirstProbed(ranked, 0);
    FirstProbedIsLeast(ranked, 0);
    SameElements(ranked, relays);
    if best.Some? && !HasProbed(relays) {
      forall r | r in relays ensures !Before(r, ranked[0]) {
        var j :| 0 <= j < |ranked| && ranked[j] == r;
      }
    }
  }

  /** A relay that no other beats: least among the positive latencies if there are any, else before no other. */
  ghost predicate IsLeast(relays: seq<RelayInfo>, a: RelayInfo) {
    && a in relays
    && if HasProbed(relays) then a.latency > 0 && forall r :: r in relays && r.latency > 0 ==> a.latency <= r.latency
       else forall r :: r in relays ==> !Before(r, a)
  }

  /** The relays that bestRelay may return, over all orders of the list and all ways of breaking ties. */
  lemma BestIffLeast(relays: seq<RelayInfo>, a: RelayInfo)
    ensures IsBest(relays, Some(a)) <==> IsLeast(relays, a)
  {
    if IsBest(relays, Some(a)) {
      BestIsLeastPositive(relays, Some(a));
    }
    if IsLeast(relays, a) {
      var ranked := RankingWithFirst(relays, a);
    }
  }

  function FrontPoint(s: seq<RelayInfo>, x: RelayInfo): (k: nat)
    ensures k <= |s|
    ensures forall i :: 0 <= i < k ==> Before(s[i], x)
    ensures k < |s| ==> !Before(s[k], x)
  {
    if s == [] || !Before(s[0], x) then 0 else 1 + FrontPoint(s[1..], x)
  }

  /** Sort the others and put a before everything it ties with: bestRelay then finds a first. */
  lemma RankingWithFirst(relays: seq<RelayInfo>, a: RelayInfo) returns (ranked: seq<RelayInfo>)
    requires IsLeast(relays, a)
    ensures Ranked(relays, ranked) && FirstProbed(ranked, 0) == Some(a)
  {
    var front := MoveToFront(relays, a);
    var s := SomeRanking(front[1..]);
    assert front == [a] + front[1..];
    var k := FrontPoint(s, a);
    ranked := s[..k] + [a] + s[k..];
    assert s == s[..k] + s[k..];
    FrontKeepsOrder(s, a);
    SameElements(ranked, relays);
    FrontIsFound(ranked, a, k, 0);
  }

  lemma FrontKeepsOrder(s: seq<RelayInfo>, x: RelayInfo)
    requires Ordered(s)
    ensures var k := FrontPoint(s, x); Ordered(s[..k] + [x] + s[k..])
  {
    var k := FrontPoint(s, x);
    forall i | k <= i < |s| ensures !Before(s[i], x) {
      assert !Before(s[k], x);
      BeforeIsStrictWeakOrder(s[i], s[k], x);
    }
  }

  lemma {:induction false} FrontIsFound(ranked: seq<RelayInfo>, a: RelayInfo, k: nat, i: nat)
    requires i <= k < |ranked| && ranked[k] == a && IsLeast(ranked, a)
    requires forall j :: 0 <= j < k ==> Before(ranked[j], a)
    requires Ordered(ranked)
    ensures FirstProbed(ranked, i) == Some(a)
    decreases k - i
  {
    if !HasProbed(ranked) {
      assert k == 0 by {
        assert ranked[0] in ranked;
      }
      FirstProbedIsLeast(ranked, 0);
    } else if i < k {
      assert Before(ranked[i], a);
      FrontIsFound(ranked, a, k, i + 1);
    }
  }

  method BestRelay(relays: seq<RelayInfo>) returns (best: Option<RelayInfo>)
    ensures IsBest(relays, best)
  {
    var ranked := RankRelays(relays);
    var i := 0;
    while i < |ranked|
      invariant 0 <= i <= |ranked|
      invariant FirstProbed(ranked, i) == FirstProbed(ranked, 0)
    {
      if ranked[i].latency > 0 {
        return Some(ranked[i]);
      }
      i := i + 1;
    }
    best := if |ranked| > 0 then Some(ranked[0]) else None;
  }

  // ---------- selection ----------

  function RelayAddr(r: Option<RelayInfo>): Option<EndpointAddr> {
    if r.None? then None else Some(r.value.addr)
  }

  function RelayLat(r: Option<RelayInfo>): int {
    if r.None? then 0 else r.value.latency
  }

  function SelectBestRelay(best: Option<RelayInfo>): TransportDecision {
    TransportDecision(true, RelayAddr(best), 0, RelayLat(best))
  }

  function SelectDynamic(cfg: TransportConfig, p2p: int, best: Option<RelayInfo>): TransportDecision {
    if p2p == 0 && best.Some? then TransportDecision(true, RelayAddr(best), 0, RelayLat(best))
    else if best.None? then TransportDecision(false, None, p2p, 0)
    else if p2p > RelayLat(best) + cfg.threshold then TransportDecision(true, RelayAddr(best), p2p, RelayLat(best))
    else TransportDecision(false, None, p2p, RelayLat(best))
  }

  predicate HasKey(r: RelayInfo, key: string) {
    r.addr.AddrKey() == key
  }

  function FindPinned(relays: seq<RelayInfo>, key: string): (r: Option<RelayInfo>)
    ensures r.Some? ==> r.value in relays && HasKey(r.value, key)
    ensures r.None? <==> forall x :: x in relays ==> !HasKey(x, key)
  {
    if relays == [] then None
    else if HasKey(relays[0], key) then Some(relays[0])
    else FindPinned(relays[1..], key)
  }

  function SelectPinned(cfg: TransportConfig, relays: seq<RelayInfo>, best: Option<RelayInfo>): TransportDecision {
    if cfg.pinnedRelay.None? then SelectBestRelay(best)
    else
      match FindPinned(relays, cfg.pinnedRelay.value.AddrKey())
      case Some(r) => TransportDecision(true, Some(r.addr), 0, r.latency)
      case None => TransportDecision(true, cfg.pinnedRelay, 0, 0)
  }

  /** SelectTransport, given what bestRelay returned. */
  function Select(cfg: TransportConfig, p2p: int, relays: seq<RelayInfo>, best: Option<RelayInfo>): TransportDecision {
    match cfg.mode
    case Pinned => SelectPinned(cfg, relays, best)
    case Relay => SelectBestRelay(best)
    case Peer => TransportDecision(false, None, p2p, 0)
    case Dynamic => SelectDynamic(cfg, p2p, best)
    case OtherMode => TransportDecision(false, None, p2p, 0)
  }

  ghost predicate Outcome(cfg: TransportConfig, p2p: int, relays: seq<RelayInfo>, d: TransportDecision) {
    exists best :: IsBest(relays, best) && d == Select(cfg, p2p, relays, best)
  }

  method SelectTransport(cfg: TransportConfig, p2p: int, relays: seq<RelayInfo>) returns (d: TransportDecision)
    ensures Outcome(cfg, p2p, relays, d)
  {
    var best := BestRelay(relays);
    d := Select(cfg, p2p, relays, best);
  }

  /** All relays under the pinned key report one latency; distinct keys are the usual reason. */
  ghost predicate PinnedUnambiguous(cfg: TransportConfig, relays: seq<RelayInfo>) {
    cfg.mode == Pinned && cfg.pinnedRelay.Some? ==>
      forall a, b :: a in relays && b in relays && HasKey(a, cfg.pinnedRelay.value.AddrKey())
          && HasKey(b, cfg.pinnedRelay.value.AddrKey())
        ==> a.latency == b.latency
  }

  lemma BestLatencyDetermined(r1: seq<RelayInfo>, r2: seq<RelayInfo>, b1: Option<RelayInfo>, b2: Option<RelayInfo>)
    requires multiset(r1) == multiset(r2) && IsBest(r1, b1) && IsBest(r2, b2)
    ensures b1.Some? == b2.Some? && RelayLat(b1) == RelayLat(b2)
  {
    SameElements(r1, r2);
    BestIsLeastPositive(r1, b1);
    BestIsLeastPositive(r2, b2);
    if b1.Some? && b2.Some? {
      BeforeIsStrictWeakOrder(b1.value, b2.value, b1.value);
    }
  }

  /** Reordering the relays, or breaking ties differently, changes neither the choice nor the reported latency. */
  lemma SelectionIgnoresOrder(cfg: TransportConfig, p2p: int, r1: seq<RelayInfo>, r2: seq<RelayInfo>,
                              d1: TransportDecision, d2: TransportDecision)
    requires multiset(r1) == multiset(r2) && Outcome(cfg, p2p, r1, d1) && Outcome(cfg, p2p, r2, d2)
    requires PinnedUnambiguous(cfg, r1)
    ensures d1.useRelay == d2.useRelay && d1.relayLatency == d2.relayLatency && d1.p2pLatency == d2.p2pLatency
  {
    var b1 :| IsBest(r1, b1) && d1 == Select(cfg, p2p, r1, b1);
    var b2 :| IsBest(r2, b2) && d2 == Select(cfg, p2p, r2, b2);
    SameElements(r1, r2);
    BestLatencyDetermined(r1, r2, b1, b2);
  }

  /** Without that condition the order shows: some reordering of the relays reports another latency. */
  lemma AmbiguousPinShowsOrder(cfg: TransportConfig, p2p: int, relays: seq<RelayInfo>)
    requires !PinnedUnambiguous(cfg, relays)
    ensures exists r1, r2, d1, d2 ::
      && multiset(r1) == multiset(relays) == multiset(r2)
      && Outcome(cfg, p2p, r1, d1) && Outcome(cfg, p2p, r2, d2) && d1.relayLatency != d2.relayLatency
  {
    var key := cfg.pinnedRelay.value.AddrKey();
    var a, b :| a in relays && b in relays && HasKey(a, key) && HasKey(b, key) && a.latency != b.latency;
    var r1 := MoveToFront(relays, a);
    var r2 := MoveToFront(relays, b);
    var d1 := OutcomeOf(cfg, p2p, r1);
    var d2 := OutcomeOf(cfg, p2p, r2);
    assert d1.relayLatency == a.latency && d2.relayLatency == b.latency;
  }

  lemma MoveToFront(relays: seq<RelayInfo>, a: RelayInfo) returns (r: seq<RelayInfo>)
    requires a in relays
    ensures multiset(r) == multiset(relays) && r != [] && r[0] == a
  {
    var i :| 0 <= i < |relays| && relays[i] == a;
    assert relays == relays[..i] + [a] + relays[i + 1..];
    r := [a] + (relays[..i] + relays[i + 1..]);
  }

  lemma {:induction false} SomeRanking(relays: seq<RelayInfo>) returns (ranked: seq<RelayInfo>)
    ensures Ranked(relays, ranked)
    decreases |relays|
  {
    ranked := [];
    if relays != [] {
      var n := |relays| - 1;
      var s := SomeRanking(relays[..n]);
      InsertKeepsOrder(s, relays[n]);
      assert relays == relays[..n] + [relays[n]];
      ranked := Insert(s, relays[n]);
    }
  }

  lemma OutcomeOf(cfg: TransportConfig, p2p: int, relays: seq<RelayInfo>) returns (d: TransportDecision)
    ensures Outcome(cfg, p2p, relays, d)
    ensures cfg.mode == Pinned && cfg.pinnedRelay.Some? && relays != []
            && HasKey(relays[0], cfg.pinnedRelay.value.AddrKey())
            ==> d.relayLatency == relays[0].latency
  {
    var ranked := SomeRanking(relays);
    var best := FirstProbed(ranked, 0);
    assert IsBest(relays, best);
    d := Select(cfg, p2p, relays, best);
  }

  /**
   Dynamic mode relays exactly when a relay exists and peer-to-peer is unmeasured or slower by more than the
   threshold.
   */
  lemma DynamicUsesRelayIff(cfg: TransportConfig, p2p: int, relays: seq<RelayInfo>, d: TransportDecision)
    requires cfg.mode == Dynamic && Outcome(cfg, p2p, relays, d)
    ensures d.useRelay <==>
      && relays != []
      && (p2p == 0 || exists best :: IsBest(relays, best) && p2p > RelayLat(best) + cfg.threshold)
    ensures d.useRelay ==> d.relayAddr.Some? && RelayInfo(d.relayAddr.value, d.relayLatency) in relays
  {
    var best :| IsBest(relays, best) && d == Select(cfg, p2p, relays, best);
    BestIsLeastPositive(relays, best);
    forall other | IsBest(relays, other) ensures RelayLat(other) == RelayLat(best) {
      BestLatencyDetermined(relays, relays, best, other);
    }
    if best.Some? {
      assert RelayInfo(best.value.addr, best.value.latency) == best.value;
    }
  }

  /**
   Selection names the best relay: always in relay mode, without a pin in pinned mode, if relaying in dynamic
   mode.
   */
  ghost predicate NamesBest(cfg: TransportConfig, p2p: int, relays: seq<RelayInfo>) {
    match cfg.mode
    case Pinned => cfg.pinnedRelay.None?
    case Relay => true
    case Dynamic => p2p == 0 || exists a :: IsLeast(relays, a) && p2p > a.latency + cfg.threshold
    case _ => false
  }

  /** Selection looks the pinned relay up in the list. */
  predicate NamesPinned(cfg: TransportConfig, r: RelayInfo) {
    cfg.mode == Pinned && cfg.pinnedRelay.Some? && HasKey(r, cfg.pinnedRelay.value.AddrKey())
  }

  /** The entries whose addresses selection may name. */
  ghost predicate MayBeNamed(cfg: TransportConfig, p2p: int, relays: seq<RelayInfo>, r: RelayInfo) {
    r in relays && (NamesPinned(cfg, r) || (NamesBest(cfg, p2p, relays) && IsLeast(relays, r)))
  }

  /** Every order of the relays, and every way of breaking ties, gives the same RelayAddr. */
  ghost predicate AddressDetermined(cfg: TransportConfig, p2p: int, relays: seq<RelayInfo>) {
    forall r1, r2, d1, d2 ::
      multiset(r1) == multiset(relays) && multiset(r2) == multiset(relays)
      && Outcome(cfg, p2p, r1, d1) && Outcome(cfg, p2p, r2, d2)
      ==> d1.relayAddr == d2.relayAddr
  }

  /** RelayAddr is the same in every order exactly when all entries that may be named share one address. */
  lemma AddressDeterminedIff(cfg: TransportConfig, p2p: int, relays: seq<RelayInfo>)
    ensures AddressDetermined(cfg, p2p, relays) <==>
      forall a, b :: MayBeNamed(cfg, p2p, relays, a) && MayBeNamed(cfg, p2p, relays, b) ==> a.addr == b.addr
  {
    if AddressDetermined(cfg, p2p, relays) {
      forall a, b | MayBeNamed(cfg, p2p, relays, a) && MayBeNamed(cfg, p2p, relays, b) ensures a.addr == b.addr {
        var r1, d1 := NamedSomewhere(cfg, p2p, relays, a);
        var r2, d2 := NamedSomewhere(cfg, p2p, relays, b);
      }
    } else {
      var r1, r2, d1, d2 :|
        multiset(r1) == multiset(relays) && multiset(r2) == multiset(relays)
        && Outcome(cfg, p2p, r1, d1) && Outcome(cfg, p2p, r2, d2) && d1.relayAddr != d2.relayAddr;
      var a := NamedIsNamable(cfg, p2p, relays, r1, d1);
      var b := NamedIsNamable(cfg, p2p, relays, r2, d2);
    }
  }

  /** An entry that may be named is named for some order of the relays. */
  lemma NamedSomewhere(cfg: TransportConfig, p2p: int, relays: seq<RelayInfo>, a: RelayInfo)
    returns (r: seq<RelayInfo>, d: TransportDecision)
    requires MayBeNamed(cfg, p2p, relays, a)
    ensures multiset(r) == multiset(relays) && Outcome(cfg, p2p, r, d) && d.relayAddr == Some(a.addr)
  {
    if NamesPinned(cfg, a) {
      r := MoveToFront(relays, a);
      var ranked := SomeRanking(r);
      assert IsBest(r, FirstProbed(ranked, 0));
      d := Select(cfg, p2p, r, FirstProbed(ranked, 0));
    } else {
      r := relays;
      BestIffLeast(relays, a);
      d := Select(cfg, p2p, relays, Some(a));
      if cfg.mode == Dynamic && p2p != 0 {
        var b :| IsLeast(relays, b) && p2p > b.latency + cfg.threshold;
        LeastLatency(relays, a, b);
      }
    }
  }

  lemma LeastLatency(relays: seq<RelayInfo>, a: RelayInfo, b: RelayInfo)
    requires IsLeast(relays, a) && IsLeast(relays, b)
    ensures a.latency == b.latency
  {
    BestIffLeast(relays, a);
    BestIffLeast(relays, b);
    BestLatencyDetermined(relays, relays, Some(a), Some(b));
  }

  /** Whatever order the relays are in, an address that is named is that of an entry that may be, if there is one. */
  lemma NamedIsNamable(cfg: TransportConfig, p2p: int, relays: seq<RelayInfo>, r: seq<RelayInfo>, d: TransportDecision)
    returns (a: Option<RelayInfo>)
    requires multiset(r) == multiset(relays) && Outcome(cfg, p2p, r, d)
    ensures a.Some? ==> MayBeNamed(cfg, p2p, relays, a.value) && d.relayAddr == Some(a.value.addr)
    ensures a.None? ==> d.relayAddr == if cfg.mode == Pinned then cfg.pinnedRelay else None
    ensures a.None? ==> forall x :: !MayBeNamed(cfg, p2p, relays, x)
  {
    var best :| IsBest(r, best) && d == Select(cfg, p2p, r, best);
    SameElements(r, relays);
    if cfg.mode == Pinned && cfg.pinnedRelay.Some? {
      a := FindPinned(r, cfg.pinnedRelay.value.AddrKey());
    } else if best.None? {
      BestIsLeastPositive(r, best);
      a := None;
    } else {
      BestIffLeast(r, best.value);
      LeastIgnoresOrder(r, relays, best.value);
      if cfg.mode == Dynamic {
        NamesBestIff(cfg, p2p, relays, best.value);
      }
      a := if NamesBest(cfg, p2p, relays) then best else None;
    }
  }

  lemma LeastIgnoresOrder(r: seq<RelayInfo>, relays: seq<RelayInfo>, a: RelayInfo)
    requires multiset(r) == multiset(relays)
    ensures IsLeast(r, a) <==> IsLeast(relays, a)
  {
    SameElements(r, relays);
  }

  lemma NamesBestIff(cfg: TransportConfig, p2p: int, relays: seq<RelayInfo>, a: RelayInfo)
    requires IsLeast(relays, a) && cfg.mode == Dynamic
    ensures NamesBest(cfg, p2p, relays) <==> p2p == 0 || p2p > a.latency + cfg.threshold
  {
    forall b | IsLeast(relays, b) ensures b.latency == a.latency {
      LeastLatency(relays, a, b);
    }
  }

  // ---------- what each mode decides ----------

  /** The decision names a relay that no other beats, with its latency, or none if there is none. */
  ghost predicate NamesLeast(relays: seq<RelayInfo>, d: TransportDecision) {
    if relays == [] then d.relayAddr == None && d.relayLatency == 0
    else exists a :: IsLeast(relays, a) && d.relayAddr == Some(a.addr) && d.relayLatency == a.latency
  }

  /** Relay mode, and pinned mode without a pin, always relay, through a best relay. */
  lemma RelayModeDecides(cfg: TransportConfig, p2p: int, relays: seq<RelayInfo>, d: TransportDecision)
    requires cfg.mode == Relay || (cfg.mode == Pinned && cfg.pinnedRelay.None?)
    requires Outcome(cfg, p2p, relays, d)
    ensures d.useRelay && d.p2pLatency == 0 && NamesLeast(relays, d)
  {
    var best :| IsBest(relays, best) && d == Select(cfg, p2p, relays, best);
    BestOrNone(relays, best);
  }

  lemma BestOrNone(relays: seq<RelayInfo>, best: Option<RelayInfo>)
    requires IsBest(relays, best)
    ensures if relays == [] then best == None else best.Some? && IsLeast(relays, best.value)
  {
    BestIsLeastPositive(relays, best);
    if best.Some? {
      BestIffLeast(relays, best.value);
    }
  }

  /** Pinned mode relays through the first entry with the pinned key, or through the pin itself, unmeasured. */
  lemma PinnedModeDecides(cfg: TransportConfig, p2p: int, relays: seq<RelayInfo>, d: TransportDecision)
    requires cfg.mode == Pinned && cfg.pinnedRelay.Some? && Outcome(cfg, p2p, relays, d)
    ensures d.useRelay && d.p2pLatency == 0
    ensures var key := cfg.pinnedRelay.value.AddrKey();
      if exists r :: r in relays && r.addr.AddrKey() == key then
        exists i :: 0 <= i < |relays| && relays[i].addr.AddrKey() == key && d.relayAddr == Some(relays[i].addr)
          && d.relayLatency == relays[i].latency && forall j :: 0 <= j < i ==> relays[j].addr.AddrKey() != key
      else d.relayAddr == cfg.pinnedRelay && d.relayLatency == 0
  {
    var key := cfg.pinnedRelay.value.AddrKey();
    if exists r :: r in relays && r.addr.AddrKey() == key {
      var r :| r in relays && r.addr.AddrKey() == key;
      assert HasKey(r, key);
      var i := FirstPinned(relays, key);
    }
  }

  lemma {:induction false} FirstPinned(relays: seq<RelayInfo>, key: string) returns (i: nat)
    requires FindPinned(relays, key).Some?
    ensures i < |relays| && relays[i] == FindPinned(relays, key).value && relays[i].addr.AddrKey() == key
    ensures forall j :: 0 <= j < i ==> relays[j].addr.AddrKey() != key
  {
    if HasKey(relays[0], key) {
      i := 0;
    } else {
      var k := FirstPinned(relays[1..], key);
      i := k + 1;
      forall j | 0 <= j < i ensures relays[j].addr.AddrKey() != key {
        if j > 0 {
          assert relays[j] == relays[1..][j - 1];
        }
      }
    }
  }

  /** Peer mode, and a mode the code does not know, never relay. */
  lemma PeerModeDecides(cfg: TransportConfig, p2p: int, relays: seq<RelayInfo>, d: TransportDecision)
    requires (cfg.mode == Peer || cfg.mode == OtherMode) && Outcome(cfg, p2p, relays, d)
    ensures d == TransportDecision(false, None, p2p, 0)
  {
  }

  predicate WeighedAgainst(cfg: TransportConfig, p2p: int, a: RelayInfo, d: TransportDecision) {
    && d.relayLatency == a.latency && d.useRelay == (p2p == 0 || p2p > a.latency + cfg.threshold)
    && d.relayAddr == if d.useRelay then Some(a.addr) else None
  }

  /**
   Dynamic mode reports both latencies, and relays through a best relay exactly when peer-to-peer is unmeasured
   or slower than it by more than the threshold.
   */
  lemma DynamicModeDecides(cfg: TransportConfig, p2p: int, relays: seq<RelayInfo>, d: TransportDecision)
    requires cfg.mode == Dynamic && Outcome(cfg, p2p, relays, d)
    ensures d.p2pLatency == p2p
    ensures relays == [] ==> !d.useRelay && d.relayAddr == None && d.relayLatency == 0
    ensures relays != [] ==> exists a :: IsLeast(relays, a) && WeighedAgainst(cfg, p2p, a, d)
  {
    var best :| IsBest(relays, best) && d == Select(cfg, p2p, relays, best);
    BestOrNone(relays, best);
  }

  // ---------- prioritising one relay ----------

  function Others(relays: seq<RelayInfo>, key: string): seq<RelayInfo> {
    if relays == [] then []
    else
      var init, last := Others(relays[..|relays| - 1], key), relays[|relays| - 1];
      if HasKey(last, key) then init else init + [last]
  }

  function LastWithKey(relays: seq<RelayInfo>, key: string): Option<RelayInfo> {
    if relays == [] then None
    else if HasKey(relays[|relays| - 1], key) then Some(relays[|relays| - 1])
    else LastWithKey(relays[..|relays| - 1], key)
  }

  /** The last entry under the target's key, or a new unprobed one, and then all entries under other keys. */
  function Prioritized(relays: seq<RelayInfo>, target: EndpointAddr): seq<RelayInfo> {
    var found := LastWithKey(relays, target.AddrKey());
    [if found.Some? then found.value else RelayInfo(target, 0)] + Others(relays, target.AddrKey())
  }

  /** The loop that moves the target's relay to the front, or puts a new entry there. */
  method PrioritizeRelay(relays: seq<RelayInfo>, target: EndpointAddr) returns (result: seq<RelayInfo>)
    ensures result == Prioritized(relays, target)
  {
    var key := target.AddrKey();
    var others := [];
    var found := None;
    for n := 0 to |relays|
      invariant others == Others(relays[..n], key) && found == LastWithKey(relays[..n], key)
    {
      assert relays[..n + 1][..n] == relays[..n];
      if HasKey(relays[n], key) {
        found := Some(relays[n]);
      } else {
        others := others + [relays[n]];
      }
    }
    assert relays[..|relays|] == relays;
    result := [if found.Some? then found.value else RelayInfo(target, 0)] + others;
  }

  lemma {:induction false} OthersKeepsAll(relays: seq<RelayInfo>, key: string)
    requires forall r :: r in relays ==> !HasKey(r, key)
    ensures Others(relays, key) == relays && LastWithKey(relays, key) == None
    decreases |relays|
  {
    if relays != [] {
      var n := |relays| - 1;
      OthersKeepsAll(relays[..n], key);
      assert relays == relays[..n] + [relays[n]];
    }
  }

  lemma {:induction false} OthersAppend(a: seq<RelayInfo>, b: seq<RelayInfo>, key: string)
    ensures Others(a + b, key) == Others(a, key) + Others(b, key)
    decreases |b|
  {
    if b == [] {
      assert a + b == a;
    } else {
      var init, x := b[..|b| - 1], b[|b| - 1];
      OthersAppend(a, init, key);
      assert b == init + [x];
      Regroup(a, init, x);
      OneMore(a + init, x, key);
      OneMore(init, x, key);
      Regroup(Others(a, key), Others(init, key), x);
    }
  }

  lemma {:induction false} LastAppend(a: seq<RelayInfo>, b: seq<RelayInfo>, key: string)
    ensures LastWithKey(a + b, key) == if LastWithKey(b, key).Some? then LastWithKey(b, key) else LastWithKey(a, key)
    decreases |b|
  {
    if b == [] {
      assert a + b == a;
    } else {
      var init, x := b[..|b| - 1], b[|b| - 1];
      LastAppend(a, init, key);
      assert b == init + [x];
      Regroup(a, init, x);
      OneMore(a + init, x, key);
      OneMore(init, x, key);
    }
  }

  lemma Regroup(a: seq<RelayInfo>, b: seq<RelayInfo>, x: RelayInfo)
    ensures a + (b + [x]) == a + b + [x]
  {
  }

  lemma OneMore(s: seq<RelayInfo>, r: RelayInfo, key: string)
    ensures Others(s + [r], key) == Others(s, key) + if HasKey(r, key) then [] else [r]
    ensures LastWithKey(s + [r], key) == if HasKey(r, key) then Some(r) else LastWithKey(s, key)
  {
    assert (s + [r])[..|s|] == s;
  }

  /** The last entry under the target's key leads the list. */
  lemma LastMatchLeads(relays: seq<RelayInfo>, target: EndpointAddr, i: nat)
    requires i < |relays| && relays[i].addr.AddrKey() == target.AddrKey()
    requires forall j :: i < j < |relays| ==> relays[j].addr.AddrKey() != target.AddrKey()
    ensures Prioritized(relays, target)[0] == relays[i]
  {
    var key := target.AddrKey();
    var before, r, after := relays[..i], relays[i], relays[i + 1..];
    forall x | x in after ensures !HasKey(x, key) {
      var j :| 0 <= j < |after| && after[j] == x;
      assert x == relays[i + 1 + j];
    }
    LastOfSplit(before, r, after, key);
    assert relays == before + [r] + after;
  }

  lemma LastOfSplit(before: seq<RelayInfo>, r: RelayInfo, after: seq<RelayInfo>, key: string)
    requires HasKey(r, key) && forall x :: x in after ==> !HasKey(x, key)
    ensures LastWithKey(before + [r] + after, key) == Some(r)
  {
    OthersKeepsAll(after, key);
    OneMore(before, r, key);
    LastAppend(before + [r], after, key);
  }

  /** Behind it come the entries under other keys in their old order, whatever the list is made of. */
  lemma RestKeepsOrder(a: seq<RelayInfo>, b: seq<RelayInfo>, r: RelayInfo, target: EndpointAddr)
    ensures Prioritized(a + [r] + b, target)[1..]
         == Prioritized(a, target)[1..] + (if r.addr.AddrKey() == target.AddrKey() then [] else [r])
          + Prioritized(b, target)[1..]
  {
    OthersAppend(a + [r], b, target.AddrKey());
    OneMore(a, r, target.AddrKey());
  }

  function MatchCount(relays: seq<RelayInfo>, key: string): nat {
    if relays == [] then 0
    else MatchCount(relays[..|relays| - 1], key) + if HasKey(relays[|relays| - 1], key) then 1 else 0
  }

  /** Entry i moves to the front and all others keep their order. */
  predicate MovedFrom(relays: seq<RelayInfo>, target: EndpointAddr, i: nat) {
    && i < |relays| && HasKey(relays[i], target.AddrKey())
    && Prioritized(relays, target) == [relays[i]] + (relays[..i] + relays[i + 1..])
  }

  /**
   The list is reordered by one move to the front exactly when one entry has the target's key, and extended by
   one new entry at the front exactly when none has. With several, all but the last of them are lost.
   */
  lemma PrioritizeMovesOrInserts(relays: seq<RelayInfo>, target: EndpointAddr)
    ensures (exists i :: MovedFrom(relays, target, i)) <==> MatchCount(relays, target.AddrKey()) == 1
    ensures Prioritized(relays, target) == [RelayInfo(target, 0)] + relays <==>
            MatchCount(relays, target.AddrKey()) == 0
    ensures |Prioritized(relays, target)| < |relays| <==> MatchCount(relays, target.AddrKey()) >= 2
  {
    PrioritizedLength(relays, target);
    if MatchCount(relays, target.AddrKey()) == 0 {
      NoneIsInserted(relays, target);
    } else if MatchCount(relays, target.AddrKey()) == 1 {
      SoleIsMoved(relays, target);
    }
  }

  lemma PrioritizedLength(relays: seq<RelayInfo>, target: EndpointAddr)
    ensures |Prioritized(relays, target)| == |relays| + 1 - MatchCount(relays, target.AddrKey())
  {
    OthersLength(relays, target.AddrKey());
  }

  lemma NoneIsInserted(relays: seq<RelayInfo>, target: EndpointAddr)
    requires MatchCount(relays, target.AddrKey()) == 0
    ensures Prioritized(relays, target) == [RelayInfo(target, 0)] + relays
  {
    NoMatch(relays, target.AddrKey());
    OthersKeepsAll(relays, target.AddrKey());
  }

  lemma SoleIsMoved(relays: seq<RelayInfo>, target: EndpointAddr)
    requires MatchCount(relays, target.AddrKey()) == 1
    ensures exists i :: MovedFrom(relays, target, i)
  {
    var i := SoleMatch(relays, target.AddrKey());
    MovedAt(relays, target, i);
  }

  lemma MovedAt(relays: seq<RelayInfo>, target: EndpointAddr, i: nat)
    requires i < |relays| && HasKey(relays[i], target.AddrKey())
    requires forall r :: r in relays[..i] || r in relays[i + 1..] ==> !HasKey(r, target.AddrKey())
    ensures MovedFrom(relays, target, i)
  {
    var before, r, after := relays[..i], relays[i], relays[i + 1..];
    SoleMoves(before, r, after, target.AddrKey());
    assert before + [r] + after == relays;
  }

  lemma SoleMoves(before: seq<RelayInfo>, r: RelayInfo, after: seq<RelayInfo>, key: string)
    requires HasKey(r, key) && forall x :: x in before || x in after ==> !HasKey(x, key)
    ensures Others(before + [r] + after, key) == before + after && LastWithKey(before + [r] + after, key) == Some(r)
  {
    OthersKeepsAll(before, key);
    OthersKeepsAll(after, key);
    OneMore(before, r, key);
    OthersAppend(before + [r], after, key);
    LastAppend(before + [r], after, key);
  }

  lemma {:induction false} NoMatch(relays: seq<RelayInfo>, key: string)
    requires MatchCount(relays, key) == 0
    ensures forall r :: r in relays ==> !HasKey(r, key)
    decreases |relays|
  {
    if relays != [] {
      NoMatch(relays[..|relays| - 1], key);
    }
  }

  /** What surrounds entry i in the list without its last entry, and in the list. */
  lemma AroundInPrefix(relays: seq<RelayInfo>, i: nat)
    requires i < |relays| - 1
    ensures var n := |relays| - 1;
      relays[..n][..i] == relays[..i] && relays[i + 1..] == relays[..n][i + 1..] + [relays[n]]
  {
  }

  lemma {:induction false} SoleMatch(relays: seq<RelayInfo>, key: string) returns (i: nat)
    requires MatchCount(relays, key) == 1
    ensures i < |relays| && HasKey(relays[i], key)
    ensures forall r :: r in relays[..i] || r in relays[i + 1..] ==> !HasKey(r, key)
    decreases |relays|
  {
    var n := |relays| - 1;
    if HasKey(relays[n], key) {
      NoMatch(relays[..n], key);
      i := n;
    } else {
      i := SoleMatch(relays[..n], key);
      AroundInPrefix(relays, i);
    }
  }

  lemma {:induction false} OthersLength(relays: seq<RelayInfo>, key: string)
    ensures |Others(relays, key)| + MatchCount(relays, key) == |relays|
    decreases |relays|
  {
    if relays != [] {
      OthersLength(relays[..|relays| - 1], key);
    }
  }

  // ---------- probing and the monitor ----------

  /** The list with each relay's measured latency; a failed probe resets it to 0. */
  function Probed(relays: seq<RelayInfo>, probes: seq<Option<int>>): seq<RelayInfo>
    requires |probes| == |relays|
  {
    seq(|relays|, i requires 0 <= i < |relays| =>
        RelayInfo(relays[i].addr, if probes[i].Some? then probes[i].value else 0))
  }

  /** A failed probe counts as unprobed, a successful one gives the relay its measured latency. */
  lemma ProbedExactly(relays: seq<RelayInfo>, probes: seq<Option<int>>, i: nat)
    requires |probes| == |relays| && i < |relays|
    ensures |Probed(relays, probes)| == |relays| && Probed(relays, probes)[i].addr == relays[i].addr
    ensures probes[i] == None ==> Probed(relays, probes)[i].latency == 0
    ensures probes[i].Some? ==> Probed(relays, probes)[i].latency == probes[i].value
  {
  }

  method ProbeRelays(relays: seq<RelayInfo>, probes: seq<Option<int>>) returns (out: seq<RelayInfo>)
    requires |probes| == |relays|
    ensures Ranked(Probed(relays, probes), out)
  {
    var result := [];
    for i := 0 to |relays|
      invariant |result| == i && forall j :: 0 <= j < i ==> result[j] == Probed(relays, probes)[j]
    {
      match probes[i]
      case None => result := result + [RelayInfo(relays[i].addr, 0)];
      case Some(latency) => result := result + [RelayInfo(relays[i].addr, latency)];
    }
    assert result == Probed(relays, probes);
    out := RankRelays(result);
  }

  /** The latest decision, or what it was before the first. */
  function Latest(prev: bool, decisions: seq<bool>): bool {
    if decisions == [] then prev else decisions[|decisions| - 1]
  }

  /** The UseRelay values passed to OnChange for successive decisions, from a monitor whose last one was `prev`. */
  function Reports(prev: bool, decisions: seq<bool>): seq<bool> {
    if decisions == [] then []
    else
      var earlier, last := decisions[..|decisions| - 1], decisions[|decisions| - 1];
      Reports(prev, earlier) + if last == Latest(prev, earlier) then [] else [last]
  }

  ghost predicate Alternates(reports: seq<bool>, first: bool) {
    forall i :: 0 <= i < |reports| ==> reports[i] == if i % 2 == 0 then first else !first
  }

  /** A monitor's reports strictly alternate, and a new one starts with a report of relay use. */
  lemma {:induction false} ReportsAlternate(prev: bool, decisions: seq<bool>)
    ensures Alternates(Reports(prev, decisions), !prev)
    ensures Latest(prev, decisions) == (if |Reports(prev, decisions)| % 2 == 0 then prev else !prev)
    decreases |decisions|
  {
    if decisions != [] {
      ReportsAlternate(prev, decisions[..|decisions| - 1]);
    }
  }

  lemma ReportsSnoc(prev: bool, decisions: seq<bool>, d: bool)
    ensures Reports(prev, decisions + [d])
         == Reports(prev, decisions) + if d == Latest(prev, decisions) then [] else [d]
  {
    assert (decisions + [d])[..|decisions|] == decisions;
  }

  /** `decisions` and `reported` are history: every UseRelay decided, and those passed to OnChange, if there is one. */
  class TransportMonitor {
    const cfg: TransportConfig
    const hasOnChange: bool
    var relays: seq<RelayInfo>
    var current: TransportDecision
    ghost var decisions: seq<bool>
    ghost var reported: seq<bool>

    ghost predicate Valid()
      reads this
    {
      && reported == (if hasOnChange then Reports(false, decisions) else [])
      && current.useRelay == Latest(false, decisions)
    }

    constructor (cfg: TransportConfig, relays: seq<RelayInfo>, hasOnChange: bool)
      ensures Valid() && decisions == [] && this.cfg == cfg && this.relays == relays && this.hasOnChange == hasOnChange
    {
      this.cfg, this.relays, this.hasOnChange, current := cfg, relays, hasOnChange, NO_DECISION;
      decisions, reported := [], [];
    }

    /** One round; the result is the decision passed to OnChange, if any. */
    method Evaluate(probes: seq<Option<int>>, p2p: int) returns (change: Option<TransportDecision>)
      requires Valid() && |probes| == |relays|
      modifies this
      ensures Valid() && Ranked(Probed(old(relays), probes), relays) && Outcome(cfg, p2p, relays, current)
      ensures decisions == old(decisions) + [current.useRelay]
      ensures change == if hasOnChange && old(current).useRelay != current.useRelay then Some(current) else None
      ensures Alternates(reported, true)
    {
      var probed := ProbeRelays(relays, probes);
      var decision := SelectTransport(cfg, p2p, probed);
      relays := probed;
      change := Adopt(decision);
      ReportsAlternate(false, decisions);
    }

    /** Makes a decision the current one and reports it if it differs in UseRelay. */
    method Adopt(decision: TransportDecision) returns (change: Option<TransportDecision>)
      requires Valid()
      modifies this`current, this`decisions, this`reported
      ensures Valid() && current == decision && decisions == old(decisions) + [decision.useRelay]
      ensures change == if hasOnChange && old(current).useRelay != decision.useRelay then Some(decision) else None
    {
      var prev := current;
      current := decision;
      ReportsSnoc(false, decisions, decision.useRelay);
      decisions := decisions + [decision.useRelay];
      change := None;
      if hasOnChange && prev.useRelay != decision.useRelay {
        reported := reported + [decision.useRelay];
        change := Some(decision);
      }
    }
  }
}
