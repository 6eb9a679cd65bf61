/** What the broker guarantees in every reachable state and across every run. */
module BrokerTheorems {
  import opened Common
  import opened SwarmTypes
  import opened Paseto
  import opened Broker
  import opened BrokerInvariant
  import Alloc = IDAllocator

  // ---------- single states ----------

  predicate RegisteredIn(s: State, rid: string) {
    rid in s.pending && s.pending[rid].state == Registered
  }

  /** Registered records and stored endpoints are in one-to-one correspondence. */
  lemma RecordsMatchEndpoints(cfg: Config, ops: seq<Op>)
    requires FreshRun(cfg, INIT, ops)
    ensures var s := Run(cfg, INIT, ops);
      && (forall rid :: RegisteredIn(s, rid) ==>
           var pe, slot := s.pending[rid], s.pending[rid].address.ToSlot();
           slot in s.endpoints && s.endpoints[slot].addr == pe.address && s.endpoints[slot].token == pe.token
           && s.endpoints[slot].publicKey == pe.publicKey && s.endpoints[slot].fingerprint == pe.fingerprint
           && s.endpoints[slot].addr.roleFlags == pe.roleFlags)
      && (forall r1, r2 :: RegisteredIn(s, r1) && RegisteredIn(s, r2) && r1 != r2 ==>
           s.pending[r1].address.ToSlot() != s.pending[r2].address.ToSlot())
      && (forall slot :: slot in s.endpoints ==>
           exists rid :: RegisteredIn(s, rid) && s.pending[rid].address.ToSlot() == slot)
  {
    ReachableInv(cfg, ops);
    var s := Run(cfg, INIT, ops);
    forall r1, r2 | RegisteredIn(s, r1) && RegisteredIn(s, r2)
        && s.pending[r1].address.ToSlot() == s.pending[r2].address.ToSlot()
      ensures r1 == r2
    {
      assert Owns(s, r1, s.pending[r1].address.ToSlot()) && Owns(s, r2, s.pending[r1].address.ToSlot());
    }
    forall slot | slot in s.endpoints
      ensures exists rid :: RegisteredIn(s, rid) && s.pending[rid].address.ToSlot() == slot
    {
      var rid :| Owns(s, rid, slot);
      assert RegisteredIn(s, rid);
    }
  }

  /** Each group holds exactly the IDs 1..n, the hint is n + 1, and registration fails only at capacity. */
  lemma IDsAreDense(cfg: Config, ops: seq<Op>, d: DomainID, g: GroupID)
    requires FreshRun(cfg, INIT, ops)
    ensures var s := Run(cfg, INIT, ops);
      var n := |GroupIDs(s.endpoints, d, g)|;
      && n <= Alloc.MAX_ENDPOINTS
      && (forall id: EndpointID :: Slot(d, g, id) in s.endpoints <==> 1 <= id <= n)
      && (GroupKey(d, g) in s.nextID <==> n > 0)
      && (n > 0 ==> s.nextID[GroupKey(d, g)] == if n == Alloc.MAX_ENDPOINTS then 1 else n + 1)
      && (forall rid, now :: rid in s.pending && s.pending[rid].state != Registered ==>
           RegisterApproved(cfg, s, rid, d, g, now) == NextRegistration(cfg, s, rid, d, g, now))
  {
    ReachableInv(cfg, ops);
    var s := Run(cfg, INIT, ops);
    assert Dense(s, d, g);
    forall rid, now | rid in s.pending && s.pending[rid].state != Registered
      ensures RegisterApproved(cfg, s, rid, d, g, now) == NextRegistration(cfg, s, rid, d, g, now)
    {
      AllocationInDenseGroup(cfg, s, rid, d, g, now);
    }
  }

  /** Scanning domain 0, group 0 finds every Active relay of the whole registry and nothing else. */
  lemma RelayScanIsComplete(cfg: Config, ops: seq<Op>)
    requires FreshRun(cfg, INIT, ops)
    ensures var s := Run(cfg, INIT, ops);
      && (forall slot :: slot in s.endpoints ==>
           (s.endpoints[slot].addr.Role() == ROLE_RELAY <==> slot.domain == RELAY_DOMAIN)
           && (slot.domain == RELAY_DOMAIN ==> slot.group == RELAY_GROUP))
      && RelaySlots(s) == set slot | slot in s.endpoints && s.endpoints[slot].state == Active
           && s.endpoints[slot].addr.Role() == ROLE_RELAY
  {
    ReachableInv(cfg, ops);
    var s := Run(cfg, INIT, ops);
    forall slot | slot in s.endpoints
      ensures (s.endpoints[slot].addr.Role() == ROLE_RELAY <==> slot.domain == RELAY_DOMAIN)
        && (slot.domain == RELAY_DOMAIN ==> slot.group == RELAY_GROUP)
    {
      assert EndpointOK(slot, s.endpoints[slot]);
    }
  }

  predicate SameFingerprint(s: State, s1: Slot, s2: Slot) {
    && s1 in s.endpoints && s2 in s.endpoints && s.endpoints[s1].fingerprint != ""
    && s.endpoints[s1].fingerprint == s.endpoints[s2].fingerprint
  }

  /** A non-empty fingerprint names at most one record and at most one endpoint, and never a reusable one. */
  lemma FingerprintsAreUnique(cfg: Config, ops: seq<Op>)
    requires FreshRun(cfg, INIT, ops)
    ensures var s := Run(cfg, INIT, ops);
      && (forall fp, rid :: fp in s.byFingerprint && s.byFingerprint[fp] == rid
           <==> rid in s.pending && s.pending[rid].fingerprint == fp && fp != "")
      && (forall s1, s2 :: SameFingerprint(s, s1, s2) ==> s1 == s2)
      && (forall rid :: rid in s.pending && s.pending[rid].state != Registered ==>
           FindByFingerprint(s.endpoints, s.pending[rid].fingerprint) == None)
  {
    ReachableInv(cfg, ops);
    var s := Run(cfg, INIT, ops);
    forall s1, s2 | SameFingerprint(s, s1, s2) ensures s1 == s2
    {
      var r1 :| Owns(s, r1, s1);
      var r2 :| Owns(s, r2, s2);
      assert r1 == r2;
    }
    forall rid | rid in s.pending && s.pending[rid].state != Registered
      ensures FindByFingerprint(s.endpoints, s.pending[rid].fingerprint) == None
    {
      NoLiveTwin(cfg, s, rid);
    }
  }

  /** A lookup answers exactly when the key is present, with a route to the slot that was asked for. */
  lemma LookupAgreesWithIndex(cfg: Config, ops: seq<Op>, target: EndpointAddr)
    requires FreshRun(cfg, INIT, ops)
    ensures var s := Run(cfg, INIT, ops);
      var r := LookupReachability(s, target);
      && (r.Some? <==> target.AddrKey() in s.reachability)
      && (r.Some? ==>
           && r.value.addr.ToSlot() == target.ToSlot() && ActiveAt(s, target.ToSlot())
           && (r.value.direct.Some? || r.value.relay.Some?))
  {
    ReachableInv(cfg, ops);
    var s := Run(cfg, INIT, ops);
    if target.AddrKey() in s.reachability {
      var info := s.reachability[target.AddrKey()];
      assert ReachOK(s, target.AddrKey(), info);
      AddrKeyIdentifiesSlot(info.addr, target);
    }
  }

  /** Each side of a punch is told the other's observed address; both endpoints are Active. */
  lemma PunchCrossesAddresses(cfg: Config, ops: seq<Op>, client: EndpointAddr, agent: EndpointAddr, token: string,
                              now: int)
    requires FreshRun(cfg, INIT, ops)
    ensures var s := Run(cfg, INIT, ops);
      var r := RequestPunch(cfg, s, client, agent, token, now);
      && (r.Ok? <==>
           && cfg.open(token, now).Ok? && ClaimsAt(cfg.open(token, now).value, client)
           && DirectRouteOf(s, client).Some? && DirectRouteOf(s, agent).Some?)
      && (r.Ok? ==>
           && ActiveAt(s, client.ToSlot()) && ActiveAt(s, agent.ToSlot())
           && var (forClient, forAgent) := r.value;
              && forClient.peerAddr == agent && forAgent.peerAddr == client
              && DirectRouteOf(s, agent) == Some(DirectRoute(forClient.observedAddr, forClient.proto))
              && DirectRouteOf(s, client) == Some(DirectRoute(forAgent.observedAddr, forAgent.proto)))
  {
    ReachableInv(cfg, ops);
    var s := Run(cfg, INIT, ops);
    forall a: EndpointAddr | DirectRouteOf(s, a).Some? ensures ActiveAt(s, a.ToSlot()) {
      assert ReachOK(s, a.AddrKey(), s.reachability[a.AddrKey()]);
      AddrKeyIdentifiesSlot(s.reachability[a.AddrKey()].addr, a);
    }
  }

  // ---------- steps and runs ----------

  predicate EndpointMoves(a: LifecycleState, b: LifecycleState) {
    a == b || (a == Registered && (b == Active || b == Revoked)) || (a == Active && b == Revoked)
  }

  predicate RecordMoves(a: LifecycleState, b: LifecycleState) {
    a == b || (a == ChallengeIssued && (b == Pending || b == Registered || b == Denied))
    || (a == Pending && (b == Registered || b == Denied))
  }

  /** No endpoint is removed or overwritten; only its state moves, and only forward. */
  ghost predicate EndpointsKept(s: State, s': State) {
    forall slot :: slot in s.endpoints ==>
      slot in s'.endpoints
      && s'.endpoints[slot] == s.endpoints[slot].(state := s'.endpoints[slot].state)
      && EndpointMoves(s.endpoints[slot].state, s'.endpoints[slot].state)
  }

  /** A record still present has the same identity, and a Registered one is frozen. */
  predicate RecordKept(s: State, s': State, rid: string)
    requires rid in s.pending
  {
    && rid in s'.pending
    && var a, b := s.pending[rid], s'.pending[rid];
       && b == a.(state := b.state, address := b.address, token := b.token)
       && RecordMoves(a.state, b.state)
       && (a.state == Registered ==> b == a)
  }

  predicate FailedChallenge(cfg: Config, s: State, op: Op, rid: string) {
    && op.OpConfirm? && op.rid == rid && rid in s.pending
    && s.pending[rid].state == ChallengeIssued
    && !cfg.verify(s.pending[rid].publicKey, s.pending[rid].challenge, op.signature)
  }

  ghost predicate RecordsKept(s: State, s': State) {
    forall rid :: rid in s.pending ==> RecordKept(s, s', rid)
  }

  ghost predicate Advances(s: State, s': State) {
    EndpointsKept(s, s') && RecordsKept(s, s')
  }

  /** A successful registration adds an endpoint at a slot that held none. */
  lemma RegistrationFollowsLifecycle(cfg: Config, s: State, rid: string, d: DomainID, g: GroupID, now: int)
    requires Inv(cfg, s) && rid in s.pending
             && (s.pending[rid].state == ChallengeIssued || s.pending[rid].state == Pending)
    ensures var r := RegisterApproved(cfg, s, rid, d, g, now);
      r.Ok? ==> Advances(s, r.value)
  {
    AllocationInDenseGroup(cfg, s, rid, d, g, now);
    NextRegistrationFollowsLifecycle(cfg, s, rid, d, g, now);
  }

  lemma NextRegistrationFollowsLifecycle(cfg: Config, s: State, rid: string, d: DomainID, g: GroupID, now: int)
    requires AllDense(s) && rid in s.pending
             && (s.pending[rid].state == ChallengeIssued || s.pending[rid].state == Pending)
    ensures var r := NextRegistration(cfg, s, rid, d, g, now);
      r.Ok? ==> Advances(s, r.value)
  {
    if Count(s, d, g) < Alloc.MAX_ENDPOINTS {
      NextSlotFree(s, d, g);
      AdmitFollowsLifecycle(cfg, s, rid, d, g, Count(s, d, g) + 1, now);
    }
  }

  lemma NextSlotFree(s: State, d: DomainID, g: GroupID)
    requires AllDense(s) && Count(s, d, g) < Alloc.MAX_ENDPOINTS
    ensures Slot(d, g, Count(s, d, g) + 1) !in s.endpoints
  {
    assert Dense(s, d, g);
  }

  lemma AdmitFollowsLifecycle(cfg: Config, s: State, rid: string, d: DomainID, g: GroupID, id: EndpointID, now: int)
    requires rid in s.pending && (s.pending[rid].state == ChallengeIssued || s.pending[rid].state == Pending)
             && Slot(d, g, id) !in s.endpoints
    ensures Advances(s, Admit(cfg, s, rid, d, g, id, now))
  {
  }

  lemma ReportFollowsLifecycle(cfg: Config, s: State, rid: string, d: DomainID, g: GroupID, now: int)
    requires Inv(cfg, s) && rid in s.pending && s.pending[rid].state == ChallengeIssued
    ensures var s' := RegisterThenReport(cfg, s, rid, d, g, now).0; Advances(s, s')
  {
    RegistrationFollowsLifecycle(cfg, s, rid, d, g, now);
  }

  lemma RecordStateFollowsLifecycle(s: State, rid: string, st: LifecycleState)
    requires rid in s.pending && s.pending[rid].state != Registered && RecordMoves(s.pending[rid].state, st)
    ensures var s' := SetRecordState(s, rid, st); Advances(s, s')
  {
  }

  lemma EndpointStateFollowsLifecycle(s: State, slot: Slot, st: LifecycleState)
    requires slot in s.endpoints && EndpointMoves(s.endpoints[slot].state, st)
    ensures var s' := SetEndpointState(s, slot, st); Advances(s, s')
  {
  }

  lemma ConfirmFollowsLifecycle(cfg: Config, s: State, rid: string, signature: Bytes, now: int)
    requires Inv(cfg, s)
    ensures var s' := Confirm(cfg, s, rid, signature, now).0;
      if FailedChallenge(cfg, s, OpConfirm(rid, signature, now), rid) then s' == Drop(s, rid)
      else Advances(s, s')
  {
    if rid in s.pending && s.pending[rid].state == ChallengeIssued {
      var pe := s.pending[rid];
      if !cfg.verify(pe.publicKey, pe.challenge, signature) {
      } else if RoleOf(pe.roleFlags) == ROLE_RELAY {
        ReportFollowsLifecycle(cfg, s, rid, RELAY_DOMAIN, RELAY_GROUP, now);
      } else if pe.fingerprint in s.preApproved {
        var m := s.preApproved[pe.fingerprint];
        ReportFollowsLifecycle(cfg, s, rid, m.domain, m.group, now);
      } else {
        RecordStateFollowsLifecycle(s, rid, Pending);
      }
    }
  }

  lemma DropFollowsLifecycle(s: State, rid: string)
    requires rid in s.pending
    ensures var s' := Drop(s, rid);
      && EndpointsKept(s, s') && rid !in s'.pending
      && forall other :: other in s.pending && other != rid ==> RecordKept(s, s', other)
  {
  }

  /** Operations on the endpoint and reachability tables. */
  lemma TableOpFollowsLifecycle(cfg: Config, s: State, op: Op)
    requires EndpointsOK(s)
    requires op.OpActivate? || op.OpRevoke? || op.OpObserve? || op.OpSetRelayRoute? || op.OpClear? || op.OpPreApprove?
    ensures Advances(s, Next(cfg, s, op))
  {
    match op
    case OpActivate(addr, token, now) => ActivateFollowsLifecycle(cfg, s, addr, token, now);
    case OpRevoke(addr) => RevokeFollowsLifecycle(s, addr);
    case _ =>
      RoutesOnly(cfg, s, op);
      TablesUntouched(s, Next(cfg, s, op));
  }

  lemma RoutesOnly(cfg: Config, s: State, op: Op)
    requires op.OpObserve? || op.OpSetRelayRoute? || op.OpClear? || op.OpPreApprove?
    ensures Next(cfg, s, op).endpoints == s.endpoints && Next(cfg, s, op).pending == s.pending
  {
  }

  lemma ApproveFollowsLifecycle(cfg: Config, s: State, rid: string, d: DomainID, g: GroupID, now: int)
    requires Inv(cfg, s)
    ensures var s' := Approve(cfg, s, rid, d, g, now).0; Advances(s, s')
  {
    if rid in s.pending && s.pending[rid].state == Pending {
      RegistrationFollowsLifecycle(cfg, s, rid, d, g, now);
    }
  }

  lemma EnrollFollowsLifecycle(s: State, req: EnrollRequest, rid: string, nonce: Bytes)
    requires rid !in s.pending
    ensures var s' := Enroll(s, req, rid, nonce).0; Advances(s, s')
  {
  }

  lemma TablesUntouched(s: State, s': State)
    requires s'.endpoints == s.endpoints && s'.pending == s.pending
    ensures Advances(s, s')
  {
  }

  lemma DenyFollowsLifecycle(s: State, rid: string)
    ensures var s' := Deny(s, rid).0; Advances(s, s')
  {
    if rid in s.pending && (s.pending[rid].state == Pending || s.pending[rid].state == ChallengeIssued) {
      RecordStateFollowsLifecycle(s, rid, Denied);
    }
  }

  lemma ActivateFollowsLifecycle(cfg: Config, s: State, addr: EndpointAddr, token: string, now: int)
    ensures var s' := Activate(cfg, s, addr, token, now).0; Advances(s, s')
  {
    var slot := addr.ToSlot();
    if slot in s.endpoints && s.endpoints[slot].state == Registered {
      EndpointStateFollowsLifecycle(s, slot, Active);
    }
  }

  lemma RevokeFollowsLifecycle(s: State, addr: EndpointAddr)
    requires EndpointsOK(s)
    ensures var s' := Revoke(s, addr).0; Advances(s, s')
  {
    var slot := addr.ToSlot();
    if slot in s.endpoints {
      assert EndpointOK(slot, s.endpoints[slot]);
      EndpointStateFollowsLifecycle(s, slot, Revoked);
    }
  }

  /** One step moves every record and endpoint along the lifecycle; only a failed challenge drops a record. */
  lemma StepFollowsLifecycle(cfg: Config, s: State, op: Op)
    requires Inv(cfg, s) && FreshID(s, op)
    ensures var s' := Next(cfg, s, op);
      && EndpointsKept(s, s')
      && (forall rid :: rid in s.pending ==>
           if FailedChallenge(cfg, s, op, rid) then rid !in s'.pending else RecordKept(s, s', rid))
  {
    match op
    case OpEnroll(req, rid, nonce) => EnrollFollowsLifecycle(s, req, rid, nonce);
    case OpConfirm(rid, signature, now) =>
      ConfirmFollowsLifecycle(cfg, s, rid, signature, now);
      if FailedChallenge(cfg, s, op, rid) {
        DropFollowsLifecycle(s, rid);
      }
    case OpApprove(rid, d, g, now) => ApproveFollowsLifecycle(cfg, s, rid, d, g, now);
    case OpDeny(rid) => DenyFollowsLifecycle(s, rid);
    case _ => TableOpFollowsLifecycle(cfg, s, op);
  }

  lemma {:induction false} RunComposes(cfg: Config, s: State, ops: seq<Op>, more: seq<Op>)
    ensures Run(cfg, s, ops + more) == Run(cfg, Run(cfg, s, ops), more)
    decreases |more|
  {
    if more == [] {
      assert ops + more == ops;
    } else {
      var n := |more| - 1;
      RunComposes(cfg, s, ops, more[..n]);
      assert (ops + more)[..|ops + more| - 1] == ops + more[..n];
    }
  }

  lemma FreshRunSplits(cfg: Config, s: State, ops: seq<Op>, more: seq<Op>)
    requires FreshRun(cfg, s, ops + more)
    ensures FreshRun(cfg, s, ops) && FreshRun(cfg, Run(cfg, s, ops), more)
  {
    FreshRunPrefix(cfg, s, ops + more, |ops|);
    assert (ops + more)[..|ops|] == ops;
    forall i {:trigger more[i]} | 0 <= i < |more| ensures FreshID(Run(cfg, Run(cfg, s, ops), more[..i]), more[i]) {
      RunComposes(cfg, s, ops, more[..i]);
      assert (ops + more)[..|ops| + i] == ops + more[..i] && (ops + more)[|ops| + i] == more[i];
    }
  }

  /** Across any run, endpoints persist unchanged but for forward state moves, and settled records persist. */
  lemma {:induction false} RunFollowsLifecycle(cfg: Config, s: State, ops: seq<Op>)
    requires Inv(cfg, s) && FreshRun(cfg, s, ops)
    ensures var s' := Run(cfg, s, ops);
      EndpointsKept(s, s') && SettledKept(s, s')
    decreases |ops|
  {
    if ops != [] {
      var n := |ops| - 1;
      var mid := Run(cfg, s, ops[..n]);
      FreshRunPrefix(cfg, s, ops, n);
      RunFollowsLifecycle(cfg, s, ops[..n]);
      RunKeeps(cfg, s, ops[..n]);
      assert FreshID(mid, ops[n]);
      StepFollowsLifecycle(cfg, mid, ops[n]);
      LifecycleTransitive(s, mid, Next(cfg, mid, ops[n]));
    }
  }

  ghost predicate SettledKept(s: State, s': State) {
    forall rid :: rid in s.pending && s.pending[rid].state != ChallengeIssued ==> RecordKept(s, s', rid)
  }

  lemma LifecycleTransitive(s: State, mid: State, s': State)
    requires EndpointsKept(s, mid) && EndpointsKept(mid, s') && SettledKept(s, mid) && SettledKept(mid, s')
    ensures EndpointsKept(s, s') && SettledKept(s, s')
  {
    forall rid | rid in s.pending && s.pending[rid].state != ChallengeIssued ensures RecordKept(s, s', rid) {
      assert RecordKept(s, mid, rid) && RecordKept(mid, s', rid);
    }
  }

  /** Exactly which requests the broker accepts; a relay may carry a fingerprint or none. */
  lemma EnrollAcceptedIff(s: State, req: EnrollRequest, rid: string, nonce: Bytes)
    ensures Enroll(s, req, rid, nonce).1.Ok? <==>
      && ValidRole(RoleOf(req.roleFlags)) && |req.publicKey| == PUBLIC_KEY_SIZE
      && (RoleOf(req.roleFlags) == ROLE_RELAY || req.fingerprint != "")
  {
  }

  /** A relay with a fingerprint is enrolled under it, and a second relay with the same one gets the same request. */
  lemma RelayFingerprintCounts(rid: string, other: string, nonce: Bytes, later: Bytes)
    ensures var req := EnrollRequest(seq(PUBLIC_KEY_SIZE, _ => 0), "relay-7", ROLE_RELAY);
      && Enroll(INIT, req, rid, nonce).1 == Ok(EnrollResponse(rid, nonce))
      && Enroll(Enroll(INIT, req, rid, nonce).0, req, other, later).1 == Ok(EnrollResponse(rid, nonce))
  {
    assert RoleOf(ROLE_RELAY) == ROLE_RELAY;
  }

  /** Enrolling a fingerprint again returns the request and challenge of its record and changes nothing. */
  lemma EnrollIsIdempotent(cfg: Config, s: State, rid: string, req: EnrollRequest, newID: string, nonce: Bytes)
    requires Inv(cfg, s) && rid in s.pending && s.pending[rid].fingerprint != ""
             && req.fingerprint == s.pending[rid].fingerprint
    requires ValidRole(RoleOf(req.roleFlags)) && |req.publicKey| == PUBLIC_KEY_SIZE
    ensures Enroll(s, req, newID, nonce) == (s, Ok(EnrollResponse(rid, s.pending[rid].challenge)))
  {
    assert RecordOK(rid, s.pending[rid]);
  }

  /** The same answer is given after any run in which no failed challenge dropped the record. */
  lemma EnrollStable(cfg: Config, s: State, rid: string, ops: seq<Op>, req: EnrollRequest, newID: string, nonce: Bytes)
    requires Inv(cfg, s) && FreshRun(cfg, s, ops) && rid in s.pending && s.pending[rid].fingerprint != ""
    requires forall i {:trigger ops[i]} :: 0 <= i < |ops| ==> !FailedChallenge(cfg, Run(cfg, s, ops[..i]), ops[i], rid)
    requires req.fingerprint == s.pending[rid].fingerprint && ValidRole(RoleOf(req.roleFlags))
             && |req.publicKey| == PUBLIC_KEY_SIZE
    ensures var s' := Run(cfg, s, ops);
      RecordKept(s, s', rid) && Enroll(s', req, newID, nonce) == (s', Ok(EnrollResponse(rid, s.pending[rid].challenge)))
  {
    RecordKeptByRun(cfg, s, ops, rid);
    EnrollIsIdempotent(cfg, Run(cfg, s, ops), rid, req, newID, nonce);
  }

  lemma {:induction false} RecordKeptByRun(cfg: Config, s: State, ops: seq<Op>, rid: string)
    requires Inv(cfg, s) && FreshRun(cfg, s, ops) && rid in s.pending
    requires forall i {:trigger ops[i]} :: 0 <= i < |ops| ==> !FailedChallenge(cfg, Run(cfg, s, ops[..i]), ops[i], rid)
    ensures Inv(cfg, Run(cfg, s, ops)) && RecordKept(s, Run(cfg, s, ops), rid)
    decreases |ops|
  {
    if ops != [] {
      var n := |ops| - 1;
      FreshRunPrefix(cfg, s, ops, n);
      forall i {:trigger ops[..n][i]} | 0 <= i < n
          ensures !FailedChallenge(cfg, Run(cfg, s, ops[..n][..i]), ops[..n][i], rid) {
        assert ops[..n][..i] == ops[..i] && ops[..n][i] == ops[i];
      }
      RecordKeptByRun(cfg, s, ops[..n], rid);
      var mid := Run(cfg, s, ops[..n]);
      assert FreshID(mid, ops[n]) && !FailedChallenge(cfg, mid, ops[n], rid);
      RecordKeptByStep(cfg, mid, ops[n], rid);
    }
  }

  lemma RecordKeptByStep(cfg: Config, s: State, op: Op, rid: string)
    requires Inv(cfg, s) && FreshID(s, op) && rid in s.pending && !FailedChallenge(cfg, s, op, rid)
    ensures Inv(cfg, Next(cfg, s, op)) && RecordKept(s, Next(cfg, s, op), rid)
  {
    StepFollowsLifecycle(cfg, s, op);
    NextKeeps(cfg, s, op);
  }

  // ---------- tokens ----------

  ghost predicate Binds(c: TokenClaims, s: State) {
    && c.ToSlot() in s.endpoints
    && var ep := s.endpoints[c.ToSlot()];
       && ep.addr == EndpointAddr(c.domain, c.group, c.endpointID, c.roleFlags)
       && ep.publicKey == c.publicKey && ep.fingerprint == c.fingerprint
  }

  /** A slot's token is signed once: two signed claim sets for one slot are the same claims. */
  lemma AddressNeverReissued(p: Primitives, ttl: int, ops: seq<Op>, c1: TokenClaims, c2: TokenClaims)
    requires p.Lawful()
    requires FreshRun(PasetoConfig(p, ttl), INIT, ops)
    requires c1 in Run(PasetoConfig(p, ttl), INIT, ops).issued && c2 in Run(PasetoConfig(p, ttl), INIT, ops).issued
    ensures c1.ToSlot() == c2.ToSlot() <==> c1 == c2
  {
    var cfg := PasetoConfig(p, ttl);
    ReachableInv(cfg, ops);
    var s := Run(cfg, INIT, ops);
    assert Describes(cfg, s, c1, c1.ToSlot()) && Describes(cfg, s, c2, c2.ToSlot());
    SignTokenInjective(p, c1, c2);
  }

  /**
   A token that verifies and is not forged describes exactly one endpoint record, and describes it still
   after any further operations.
   */
  lemma TokenBindsOneEndpoint(p: Primitives, ttl: int, ops: seq<Op>, more: seq<Op>, token: string, now: int)
    requires p.Lawful()
    requires FreshRun(PasetoConfig(p, ttl), INIT, ops + more)
    requires Unforged(p, Run(PasetoConfig(p, ttl), INIT, ops).issued, token)
    requires VerifyToken(p, token, now).Ok?
    ensures var cfg, c := PasetoConfig(p, ttl), VerifyToken(p, token, now).value;
      var s, s' := Run(cfg, INIT, ops), Run(cfg, INIT, ops + more);
      && Binds(c, s) && Binds(c, s')
      && OnlyEndpointAt(s, c.ToSlot()) && OnlyEndpointAt(s', c.ToSlot())
  {
    var cfg, c := PasetoConfig(p, ttl), VerifyToken(p, token, now).value;
    FreshRunSplits(cfg, INIT, ops, more);
    ReachableInv(cfg, ops);
    var s := Run(cfg, INIT, ops);
    VerifiedClaimsWereIssued(p, s.issued, token, now);
    assert Describes(cfg, s, c, c.ToSlot());
    RunFollowsLifecycle(cfg, s, more);
    RunComposes(cfg, INIT, ops, more);
    EndpointsSitAtTheirSlots(s, c.ToSlot());
    RunKeeps(cfg, s, more);
    EndpointsSitAtTheirSlots(Run(cfg, INIT, ops + more), c.ToSlot());
  }

  ghost predicate OnlyEndpointAt(s: State, at: Slot) {
    forall slot :: slot in s.endpoints && s.endpoints[slot].addr.ToSlot() == at ==> slot == at
  }

  lemma EndpointsSitAtTheirSlots(s: State, at: Slot)
    requires EndpointsOK(s)
    ensures OnlyEndpointAt(s, at)
  {
    forall slot | slot in s.endpoints ensures s.endpoints[slot].addr.ToSlot() == slot {
      assert EndpointOK(slot, s.endpoints[slot]);
    }
  }

  // ---------- operations composed ----------

  /** An observed address is what a lookup for that slot then reports; a relay route survives beside it. */
  lemma ObserveThenLookup(cfg: Config, s: State, addr: EndpointAddr, observed: string, proto: string,
                          target: EndpointAddr)
    requires Inv(cfg, s) && Observe(s, addr, observed, proto).1.Ok? && target.ToSlot() == addr.ToSlot()
    ensures var r := LookupReachability(Observe(s, addr, observed, proto).0, target);
      && r.Some? && r.value.direct == Some(DirectRoute(observed, proto))
      && var known := LookupReachability(s, target);
         r.value.relay == if known.Some? then known.value.relay else None
  {
    InfoIsAtSlot(cfg, s, addr, target);
  }

  /** A relay route is what a lookup then reports; an observed address survives beside it. */
  lemma RelayRouteThenLookup(cfg: Config, s: State, addr: EndpointAddr, token: string, relayAddr: EndpointAddr,
                             now: int, target: EndpointAddr)
    requires Inv(cfg, s) && SetRelayRoute(cfg, s, addr, token, relayAddr, now).1.Ok? && target.ToSlot() == addr.ToSlot()
    ensures var r := LookupReachability(SetRelayRoute(cfg, s, addr, token, relayAddr, now).0, target);
      && r.Some? && r.value.relay == Some(relayAddr)
      && var known := LookupReachability(s, target);
         r.value.direct == if known.Some? then known.value.direct else None
  {
    InfoIsAtSlot(cfg, s, addr, target);
  }

  lemma InfoIsAtSlot(cfg: Config, s: State, addr: EndpointAddr, target: EndpointAddr)
    requires Inv(cfg, s) && target.ToSlot() == addr.ToSlot()
    ensures target.AddrKey() == addr.AddrKey() && InfoFor(s, addr).addr.ToSlot() == addr.ToSlot()
  {
    AddrKeyIdentifiesSlot(target, addr);
    if addr.AddrKey() in s.reachability {
      assert ReachOK(s, addr.AddrKey(), s.reachability[addr.AddrKey()]);
      AddrKeyIdentifiesSlot(s.reachability[addr.AddrKey()].addr, addr);
    }
  }

  /** Changing one slot's routes, or revoking it, leaves every other slot's lookup as it was. */
  lemma RoutesAreIndependent(cfg: Config, s: State, addr: EndpointAddr, target: EndpointAddr, op: Op)
    requires Inv(cfg, s) && target.ToSlot() != addr.ToSlot()
    requires (op.OpObserve? || op.OpSetRelayRoute? || op.OpClear? || op.OpRevoke?) && op.addr == addr
    ensures LookupReachability(Next(cfg, s, op), target) == LookupReachability(s, target)
  {
    AddrKeyIdentifiesSlot(target, addr);
    RouteOpIsLocal(cfg, s, addr, op, target.AddrKey(), target.ToSlot());
    if target.AddrKey() in s.reachability {
      InfoIsAtSlot(cfg, s, target, target);
    }
  }

  lemma RouteOpIsLocal(cfg: Config, s: State, addr: EndpointAddr, op: Op, key: string, slot: Slot)
    requires (op.OpObserve? || op.OpSetRelayRoute? || op.OpClear? || op.OpRevoke?) && op.addr == addr
    requires key != addr.AddrKey() && slot != addr.ToSlot()
    ensures var s' := Next(cfg, s, op);
      && (key in s'.reachability <==> key in s.reachability)
      && (key in s.reachability ==> s'.reachability[key] == s.reachability[key])
      && (ActiveAt(s', slot) <==> ActiveAt(s, slot))
  {
  }

  /** A cleared slot has no route until it is observed or reports a relay again. */
  lemma ClearThenLookup(s: State, addr: EndpointAddr, target: EndpointAddr)
    requires target.ToSlot() == addr.ToSlot()
    ensures LookupReachability(ClearReachability(s, addr), target) == None
    ensures DirectRouteOf(ClearReachability(s, addr), target) == None
  {
    AddrKeyIdentifiesSlot(target, addr);
  }

  /** Once a request is Registered, its owner's polls report the same address and token for ever. */
  lemma PollIsStable(cfg: Config, s: State, rid: string, more: seq<Op>, signature: Bytes)
    requires Inv(cfg, s) && FreshRun(cfg, s, more) && RegisteredIn(s, rid)
    requires cfg.verify(s.pending[rid].publicKey, PollMessage(rid), signature)
    ensures Poll(cfg, Run(cfg, s, more), rid, signature)
         == Ok(EnrollStatus(Registered, Some(EnrollResult(s.pending[rid].address, s.pending[rid].token))))
  {
    RunFollowsLifecycle(cfg, s, more);
  }

  /** A denial is what every later poll reports, and no later approval or challenge answer overturns it. */
  lemma DenialIsFinal(cfg: Config, s: State, rid: string, more: seq<Op>, signature: Bytes, answer: Bytes, d: DomainID,
                      g: GroupID, now: int)
    requires Inv(cfg, s) && Deny(s, rid).1.Ok? && FreshRun(cfg, Deny(s, rid).0, more)
    requires cfg.verify(s.pending[rid].publicKey, PollMessage(rid), signature)
    ensures var s' := Run(cfg, Deny(s, rid).0, more);
      && Poll(cfg, s', rid, signature) == Ok(EnrollStatus(Denied, None))
      && Approve(cfg, s', rid, d, g, now) == (s', Err(WrongState(Denied)))
      && Confirm(cfg, s', rid, answer, now) == (s', Ok(EnrollStatus(Denied, None)))
  {
    DenyKeeps(cfg, s, rid);
    RunFollowsLifecycle(cfg, Deny(s, rid).0, more);
    assert RecordKept(Deny(s, rid).0, Run(cfg, Deny(s, rid).0, more), rid);
  }

  /** Approval succeeds below capacity, at the group's next ID, and the owner's poll then reports the result. */
  lemma ApprovalAdmits(cfg: Config, s: State, rid: string, d: DomainID, g: GroupID, now: int, signature: Bytes)
    requires Inv(cfg, s) && rid in s.pending && s.pending[rid].state == Pending && d != RELAY_DOMAIN
    requires cfg.verify(s.pending[rid].publicKey, PollMessage(rid), signature)
    ensures var (s', r) := Approve(cfg, s, rid, d, g, now);
      && (r.Ok? <==> Count(s, d, g) < Alloc.MAX_ENDPOINTS)
      && if r.Err? then s' == s
         else Admitted(cfg, s, (s', Poll(cfg, s', rid, signature)), s.pending[rid], d, g, Count(s, d, g) + 1, now)
  {
    AllocationInDenseGroup(cfg, s, rid, d, g, now);
    if Count(s, d, g) < Alloc.MAX_ENDPOINTS {
      NextSlotFree(s, d, g);
      AdmitIsAdmitted(cfg, s, rid, d, g, Count(s, d, g) + 1, now);
      PollAfterAdmit(cfg, s, rid, d, g, Count(s, d, g) + 1, now, signature);
    }
  }

  lemma PollAfterAdmit(cfg: Config, s: State, rid: string, d: DomainID, g: GroupID, id: EndpointID, now: int,
                       signature: Bytes)
    requires rid in s.pending && cfg.verify(s.pending[rid].publicKey, PollMessage(rid), signature)
    ensures var s' := Admit(cfg, s, rid, d, g, id, now);
      Poll(cfg, s', rid, signature) == Ok(StatusFor(s'.pending[rid]))
  {
  }

  predicate RevokedAt(s: State, slot: Slot) {
    slot in s.endpoints && s.endpoints[slot].state == Revoked
  }

  lemma RevokedIsUnreachable(cfg: Config, s: State, target: EndpointAddr)
    requires Inv(cfg, s) && RevokedAt(s, target.ToSlot())
    ensures target.AddrKey() !in s.reachability
  {
    if target.AddrKey() in s.reachability {
      AddrKeyIdentifiesSlot(s.reachability[target.AddrKey()].addr, target);
    }
  }

  /**
   After revocation the slot stays unreachable and unpunchable through every later run, and no token activates
   it again.
   */
  lemma RevocationIsFinal(cfg: Config, s: State, addr: EndpointAddr, more: seq<Op>, target: EndpointAddr,
                          token: string, now: int)
    requires Inv(cfg, s) && Revoke(s, addr).1.Ok? && FreshRun(cfg, Revoke(s, addr).0, more)
             && target.ToSlot() == addr.ToSlot()
    ensures var s' := Run(cfg, Revoke(s, addr).0, more);
      && RevokedAt(s', target.ToSlot())
      && LookupReachability(s', target) == None && DirectRouteOf(s', target) == None
      && Activate(cfg, s', target, token, now).1.Err?
  {
    var s1 := Revoke(s, addr).0;
    RevokeKeeps(cfg, s, addr);
    RunKeeps(cfg, s1, more);
    RevokedStays(cfg, s1, more, target.ToSlot());
    RevokedIsUnreachable(cfg, Run(cfg, s1, more), target);
    RevokedNeverActivates(cfg, Run(cfg, s1, more), target, token, now);
  }

  lemma RevokedStays(cfg: Config, s: State, more: seq<Op>, slot: Slot)
    requires Inv(cfg, s) && FreshRun(cfg, s, more) && RevokedAt(s, slot)
    ensures RevokedAt(Run(cfg, s, more), slot)
  {
    RunFollowsLifecycle(cfg, s, more);
  }

  lemma RevokedNeverActivates(cfg: Config, s: State, target: EndpointAddr, token: string, now: int)
    requires RevokedAt(s, target.ToSlot())
    ensures Activate(cfg, s, target, token, now).1.Err?
  {
  }

  /**
   An endpoint that was activated and fetches its info later, other operations having come between, is refused
   exactly when it was revoked meanwhile.
   */
  lemma InfoRefusedIffRevoked(cfg: Config, s: State, addr: EndpointAddr, token: string, now: int, more: seq<Op>)
    requires Inv(cfg, s) && Activate(cfg, s, addr, token, now).1.Ok?
             && FreshRun(cfg, Activate(cfg, s, addr, token, now).0, more)
    ensures var s' := Run(cfg, Activate(cfg, s, addr, token, now).0, more);
      InfoRefusal(s', addr) == if RevokedAt(s', addr.ToSlot()) then Some(WrongState(Revoked)) else None
  {
    ActivateKeeps(cfg, s, addr, token, now);
    RunFollowsLifecycle(cfg, Activate(cfg, s, addr, token, now).0, more);
  }

  /** The group an enrollment is registered into without an administrator: relays', or a pre-approval's. */
  predicate AutoGroup(s: State, req: EnrollRequest, d: DomainID, g: GroupID) {
    if RoleOf(req.roleFlags) == ROLE_RELAY then d == RELAY_DOMAIN && g == RELAY_GROUP
    else req.fingerprint in s.preApproved && s.preApproved[req.fingerprint] == AddrMapping(d, g)
  }

  /** Opening a sealed token gives back its claims until they expire. */
  ghost predicate TokensRoundTrip(cfg: Config) {
    forall c, t :: cfg.open(cfg.seal(c), t) == if t > c.expiresAt then Err(Expired) else Ok(c)
  }

  lemma PasetoRoundTrips(p: Primitives, ttl: int)
    requires p.Lawful()
    ensures TokensRoundTrip(PasetoConfig(p, ttl))
  {
    var cfg := PasetoConfig(p, ttl);
    forall c, t ensures cfg.open(cfg.seal(c), t) == if t > c.expiresAt then Err(Expired) else Ok(c) {
      VerifyUndoesSign(p, c, t);
    }
  }

  /**
   Zero-touch enrollment end to end: a new relay or pre-approved endpoint that answers its challenge is
   registered at the group's next ID, and the token it is given activates exactly that endpoint until the
   token expires.
   */
  lemma ZeroTouchEnrollment(cfg: Config, s: State, req: EnrollRequest, rid: string, nonce: Bytes,
                            signature: Bytes, d: DomainID, g: GroupID, now: int, later: int)
    requires TokensRoundTrip(cfg) && Inv(cfg, s) && rid !in s.pending
    requires Enroll(s, req, rid, nonce).1 == Ok(EnrollResponse(rid, nonce)) && AutoGroup(s, req, d, g)
    requires cfg.verify(req.publicKey, nonce, signature) && Count(s, d, g) < Alloc.MAX_ENDPOINTS
    ensures var (s1, confirmed) := Confirm(cfg, Enroll(s, req, rid, nonce).0, rid, signature, now);
      && confirmed.Ok? && confirmed.value.state == Registered && confirmed.value.result.Some?
      && var addr, token := confirmed.value.result.value.address, confirmed.value.result.value.token;
         && addr == EndpointAddr(d, g, Count(s, d, g) + 1, req.roleFlags) && addr.ToSlot() !in s.endpoints
         && var (s2, activated) := Activate(cfg, s1, addr, token, later);
            && (activated.Ok? <==> later <= now + cfg.tokenTTL)
            && var active := RegisteredEndpoint(addr, req.publicKey, Active, token, req.fingerprint);
               (activated.Ok? ==> s2.endpoints == s.endpoints[addr.ToSlot() := active])
  {
    var id := Count(s, d, g) + 1;
    var claims := TokenClaims(id, d, g, req.roleFlags, req.publicKey, req.fingerprint, now, now + cfg.tokenTTL, ISSUER);
    ConfirmAdmits(cfg, s, req, rid, nonce, signature, d, g, now);
    var s1 := Confirm(cfg, Enroll(s, req, rid, nonce).0, rid, signature, now).0;
    var addr := EndpointAddr(d, g, id, req.roleFlags);
    var stored := RegisteredEndpoint(addr, req.publicKey, Registered, cfg.seal(claims), req.fingerprint);
    ActivateStored(cfg, s, s1, addr, stored, claims, later);
  }

  /** Activating the endpoint that a registration has just added to s. */
  lemma ActivateStored(cfg: Config, s: State, s1: State, addr: EndpointAddr, stored: RegisteredEndpoint,
                       claims: TokenClaims, later: int)
    requires addr == EndpointAddr(claims.domain, claims.group, claims.endpointID, claims.roleFlags)
    requires cfg.open(cfg.seal(claims), later) == if later > claims.expiresAt then Err(Expired) else Ok(claims)
    requires s1.endpoints == s.endpoints[addr.ToSlot() := stored] && stored.state == Registered
    ensures var (s2, r) := Activate(cfg, s1, addr, cfg.seal(claims), later);
      && (r.Ok? <==> later <= claims.expiresAt)
      && (r.Ok? ==> s2.endpoints == s.endpoints[addr.ToSlot() := stored.(state := Active)])
  {
  }

  /** A good answer to the challenge stores one Registered endpoint at the group's next ID, with its token. */
  lemma ConfirmAdmits(cfg: Config, s: State, req: EnrollRequest, rid: string, nonce: Bytes, signature: Bytes,
                      d: DomainID, g: GroupID, now: int)
    requires Inv(cfg, s) && rid !in s.pending
    requires Enroll(s, req, rid, nonce).1 == Ok(EnrollResponse(rid, nonce)) && AutoGroup(s, req, d, g)
    requires cfg.verify(req.publicKey, nonce, signature) && Count(s, d, g) < Alloc.MAX_ENDPOINTS
    ensures var (s1, r) := Confirm(cfg, Enroll(s, req, rid, nonce).0, rid, signature, now);
      var id := Count(s, d, g) + 1;
      var addr := EndpointAddr(d, g, id, req.roleFlags);
      var token := cfg.seal(TokenClaims(id, d, g, req.roleFlags, req.publicKey, req.fingerprint, now,
          now + cfg.tokenTTL, ISSUER));
      && r == Ok(EnrollStatus(Registered, Some(EnrollResult(addr, token)))) && addr.ToSlot() !in s.endpoints
      && s1.endpoints == s.endpoints[addr.ToSlot() :=
           RegisteredEndpoint(addr, req.publicKey, Registered, token, req.fingerprint)]
  {
    EnrollKeeps(cfg, s, req, rid, nonce);
    EnrolledRecord(cfg, s, req, rid, nonce);
    ChallengeAnswered(cfg, Enroll(s, req, rid, nonce).0, rid, signature, d, g, now);
  }

  /** The same, from any state holding the unanswered challenge. */
  lemma ChallengeAnswered(cfg: Config, s: State, rid: string, signature: Bytes, d: DomainID, g: GroupID, now: int)
    requires Inv(cfg, s) && rid in s.pending && s.pending[rid].state == ChallengeIssued
             && Count(s, d, g) < Alloc.MAX_ENDPOINTS
    requires cfg.verify(s.pending[rid].publicKey, s.pending[rid].challenge, signature)
    requires if RoleOf(s.pending[rid].roleFlags) == ROLE_RELAY then d == RELAY_DOMAIN && g == RELAY_GROUP
             else
               && s.pending[rid].fingerprint in s.preApproved
               && s.preApproved[s.pending[rid].fingerprint] == AddrMapping(d, g)
    ensures Admitted(cfg, s, Confirm(cfg, s, rid, signature, now), s.pending[rid], d, g, Count(s, d, g) + 1, now)
  {
    var id := Count(s, d, g) + 1;
    RegistersNext(cfg, s, rid, d, g, now);
    ConfirmRegisters(cfg, s, rid, signature, d, g, id, now);
    AdmitIsAdmitted(cfg, s, rid, d, g, id, now);
  }

  lemma RegistersNext(cfg: Config, s: State, rid: string, d: DomainID, g: GroupID, now: int)
    requires Inv(cfg, s) && rid in s.pending && s.pending[rid].state != Registered
             && Count(s, d, g) < Alloc.MAX_ENDPOINTS
    ensures RegisterApproved(cfg, s, rid, d, g, now) == Ok(Admit(cfg, s, rid, d, g, Count(s, d, g) + 1, now))
    ensures Slot(d, g, Count(s, d, g) + 1) !in s.endpoints
  {
    AllocationInDenseGroup(cfg, s, rid, d, g, now);
    NextSlotFree(s, d, g);
  }

  lemma AdmitIsAdmitted(cfg: Config, s: State, rid: string, d: DomainID, g: GroupID, id: EndpointID, now: int)
    requires rid in s.pending && Slot(d, g, id) !in s.endpoints
    ensures var s' := Admit(cfg, s, rid, d, g, id, now);
      Admitted(cfg, s, (s', Ok(StatusFor(s'.pending[rid]))), s.pending[rid], d, g, id, now)
  {
  }

  /** The result of registering a record at an ID: its address and token, and one new endpoint. */
  ghost predicate Admitted(cfg: Config, s: State, done: (State, Result<EnrollStatus, Error>), pe: PendingEnroll,
                           d: DomainID, g: GroupID, id: EndpointID, now: int)
  {
    var addr := EndpointAddr(d, g, id, pe.roleFlags);
    var token := cfg.seal(TokenClaims(id, d, g, pe.roleFlags, pe.publicKey, pe.fingerprint, now, now + cfg.tokenTTL,
        ISSUER));
    && done.1 == Ok(EnrollStatus(Registered, Some(EnrollResult(addr, token)))) && addr.ToSlot() !in s.endpoints
    && done.0.endpoints == s.endpoints[addr.ToSlot() :=
         RegisteredEndpoint(addr, pe.publicKey, Registered, token, pe.fingerprint)]
  }

  lemma ConfirmRegisters(cfg: Config, s: State, rid: string, signature: Bytes, d: DomainID, g: GroupID, id: EndpointID,
                         now: int)
    requires rid in s.pending && s.pending[rid].state == ChallengeIssued
    requires cfg.verify(s.pending[rid].publicKey, s.pending[rid].challenge, signature)
    requires if RoleOf(s.pending[rid].roleFlags) == ROLE_RELAY then d == RELAY_DOMAIN && g == RELAY_GROUP
             else
               && s.pending[rid].fingerprint in s.preApproved
               && s.preApproved[s.pending[rid].fingerprint] == AddrMapping(d, g)
    requires RegisterApproved(cfg, s, rid, d, g, now) == Ok(Admit(cfg, s, rid, d, g, id, now))
    ensures Confirm(cfg, s, rid, signature, now)
         == (Admit(cfg, s, rid, d, g, id, now), Ok(StatusFor(Admit(cfg, s, rid, d, g, id, now).pending[rid])))
  {
  }

  lemma EnrolledRecord(cfg: Config, s: State, req: EnrollRequest, rid: string, nonce: Bytes)
    requires Inv(cfg, s) && rid !in s.pending && Enroll(s, req, rid, nonce).1 == Ok(EnrollResponse(rid, nonce))
    ensures var s0 := Enroll(s, req, rid, nonce).0;
      && s0 == AddRecord(s, PendingEnroll(rid, req.publicKey, req.fingerprint, req.roleFlags, nonce, ChallengeIssued,
           NO_ADDR, ""))
      && s0.endpoints == s.endpoints && s0.preApproved == s.preApproved
  {
  }
}
