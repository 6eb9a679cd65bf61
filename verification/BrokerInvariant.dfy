/** What every step of the broker keeps: the consistency of its six tables. */
module BrokerInvariant {
  import opened Common
  import opened SwarmTypes
  import opened Paseto
  import opened Broker
  import Alloc = IDAllocator

  predicate RecordOK(rid: string, pe: PendingEnroll) {
    && pe.requestID == rid
    && |pe.publicKey| == PUBLIC_KEY_SIZE
    && ValidRole(RoleOf(pe.roleFlags))
    && (RoleOf(pe.roleFlags) != ROLE_RELAY ==> pe.fingerprint != "")
    && (pe.state == ChallengeIssued || pe.state == Pending || pe.state == Registered || pe.state == Denied)
    && (pe.state == Pending ==> RoleOf(pe.roleFlags) != ROLE_RELAY)
  }

  ghost predicate RecordsOK(s: State) {
    forall rid :: rid in s.pending ==> RecordOK(rid, s.pending[rid])
  }

  /** `byFingerprint` is a bijection between fingerprints and the records that carry one. */
  ghost predicate IndexAgrees(s: State) {
    && (forall fp :: fp in s.byFingerprint ==>
         fp != "" && s.byFingerprint[fp] in s.pending && s.pending[s.byFingerprint[fp]].fingerprint == fp)
    && (forall rid :: rid in s.pending && s.pending[rid].fingerprint != "" ==>
         s.pending[rid].fingerprint in s.byFingerprint && s.byFingerprint[s.pending[rid].fingerprint] == rid)
  }

  /** A Registered record owns the endpoint stored at its address. */
  predicate Owns(s: State, rid: string, slot: Slot) {
    && rid in s.pending && s.pending[rid].state == Registered && s.pending[rid].address.ToSlot() == slot
    && slot in s.endpoints
    && var pe, ep := s.pending[rid], s.endpoints[slot];
       && ep.addr == pe.address && pe.address.roleFlags == pe.roleFlags
       && ep.token == pe.token && ep.publicKey == pe.publicKey && ep.fingerprint == pe.fingerprint
  }

  ghost predicate RecordsOwn(s: State) {
    forall rid :: rid in s.pending && s.pending[rid].state == Registered ==>
        Owns(s, rid, s.pending[rid].address.ToSlot())
  }

  ghost predicate OwnersDistinct(s: State) {
    forall r1, r2, slot :: Owns(s, r1, slot) && Owns(s, r2, slot) ==> r1 == r2
  }

  ghost predicate EndpointsOwned(s: State) {
    forall slot :: slot in s.endpoints ==> exists rid :: Owns(s, rid, slot)
  }

  /** Relays live exactly in domain 0, and there only in group 0. */
  predicate EndpointOK(slot: Slot, ep: RegisteredEndpoint) {
    && ep.addr.ToSlot() == slot
    && 1 <= slot.id <= Alloc.MAX_ENDPOINTS
    && (ep.state == Registered || ep.state == Active || ep.state == Revoked)
    && (ep.addr.Role() == ROLE_RELAY <==> slot.domain == RELAY_DOMAIN)
    && (slot.domain == RELAY_DOMAIN ==> slot.group == RELAY_GROUP)
  }

  ghost predicate EndpointsOK(s: State) {
    forall slot :: slot in s.endpoints ==> EndpointOK(slot, s.endpoints[slot])
  }

  ghost function Count(s: State, d: DomainID, g: GroupID): nat {
    |GroupIDs(s.endpoints, d, g)|
  }

  /** A group holds exactly the IDs 1..n, and its hint is what n allocations leave behind. */
  ghost predicate Dense(s: State, d: DomainID, g: GroupID) {
    var n := Count(s, d, g);
    && n <= Alloc.MAX_ENDPOINTS
    && (forall id: EndpointID :: Slot(d, g, id) in s.endpoints <==> 1 <= id <= n)
    && (n == 0 ==> GroupKey(d, g) !in s.nextID)
    && (n > 0 ==>
         GroupKey(d, g) in s.nextID && s.nextID[GroupKey(d, g)] == if n == Alloc.MAX_ENDPOINTS then 1 else n + 1)
  }

  ghost predicate AllDense(s: State) {
    forall d: DomainID, g: GroupID :: Dense(s, d, g)
  }

  ghost predicate PreApprovalsOK(s: State) {
    forall fp :: fp in s.preApproved ==> fp != "" && s.preApproved[fp].domain != RELAY_DOMAIN
  }

  predicate ReachOK(s: State, key: string, info: ReachabilityInfo) {
    && key == info.addr.AddrKey()
    && ActiveAt(s, info.addr.ToSlot())
    && (info.direct.Some? || info.relay.Some?)
  }

  ghost predicate ReachabilityOK(s: State) {
    forall key :: key in s.reachability ==> ReachOK(s, key, s.reachability[key])
  }

  /** The claims were signed into the token stored at their own address, and describe that endpoint. */
  predicate Describes(cfg: Config, s: State, c: TokenClaims, slot: Slot) {
    && c.ToSlot() == slot
    && slot in s.endpoints
    && var ep := s.endpoints[slot];
       && ep.token == cfg.seal(c)
       && ep.addr == EndpointAddr(c.domain, c.group, c.endpointID, c.roleFlags)
       && ep.publicKey == c.publicKey && ep.fingerprint == c.fingerprint
  }

  ghost predicate IssuedOK(cfg: Config, s: State) {
    forall c :: c in s.issued ==> Describes(cfg, s, c, c.ToSlot())
  }

  ghost predicate TokensIssued(cfg: Config, s: State) {
    forall slot :: slot in s.endpoints ==> exists c :: c in s.issued && Describes(cfg, s, c, slot)
  }

  ghost predicate Inv(cfg: Config, s: State) {
    && RecordsOK(s) && IndexAgrees(s)
    && RecordsOwn(s) && OwnersDistinct(s) && EndpointsOwned(s)
    && EndpointsOK(s) && AllDense(s) && PreApprovalsOK(s)
    && ReachabilityOK(s) && IssuedOK(cfg, s) && TokensIssued(cfg, s)
  }

  lemma InitInv(cfg: Config)
    ensures Inv(cfg, INIT)
  {
    forall d: DomainID, g: GroupID ensures Dense(INIT, d, g) {
      assert GroupIDs(INIT.endpoints, d, g) == {};
    }
  }

  /** A record that is not Registered shares its fingerprint with no live endpoint. */
  lemma NoLiveTwin(cfg: Config, s: State, rid: string)
    requires Inv(cfg, s) && rid in s.pending && s.pending[rid].state != Registered
    ensures FindByFingerprint(s.endpoints, s.pending[rid].fingerprint) == None
  {
    var fp := s.pending[rid].fingerprint;
    if fp != "" {
      forall slot | slot in s.endpoints ensures !LiveWith(s.endpoints, fp, slot) {
        var owner :| Owns(s, owner, slot);
      }
    }
  }

  /** Below capacity, the next ID is the count plus one; at capacity, registration is refused. */
  lemma AllocationInDenseGroup(cfg: Config, s: State, rid: string, d: DomainID, g: GroupID, now: int)
    requires Inv(cfg, s) && rid in s.pending && s.pending[rid].state != Registered
    ensures RegisterApproved(cfg, s, rid, d, g, now) == NextRegistration(cfg, s, rid, d, g, now)
  {
    NoLiveTwin(cfg, s, rid);
    assert Dense(s, d, g);
    if Count(s, d, g) < Alloc.MAX_ENDPOINTS {
      ScanOfDense(s, d, g);
    }
  }

  ghost function NextRegistration(cfg: Config, s: State, rid: string, d: DomainID, g: GroupID, now: int)
    : Result<State, Error>
    requires rid in s.pending
  {
    var n := Count(s, d, g);
    if n >= Alloc.MAX_ENDPOINTS then Err(CapacityReached) else Ok(Admit(cfg, s, rid, d, g, n + 1, now))
  }

  lemma ScanOfDense(s: State, d: DomainID, g: GroupID)
    requires Dense(s, d, g) && Count(s, d, g) < Alloc.MAX_ENDPOINTS
    ensures Alloc.Scan(GroupIDs(s.endpoints, d, g), HintFor(s, d, g), 0) == Some(Count(s, d, g) + 1)
  {
    var ids := GroupIDs(s.endpoints, d, g);
    assert HintFor(s, d, g) == |ids| + 1;
    Alloc.DenseScan(ids, |ids|);
  }

  // ---------- each kind of update keeps the invariant ----------

  /** Updates that leave the endpoint table and the allocator alone keep every group dense. */
  lemma DenseFrame(s: State, s': State)
    requires AllDense(s) && s'.endpoints.Keys == s.endpoints.Keys && s'.nextID == s.nextID
    ensures AllDense(s')
  {
    forall d: DomainID, g: GroupID ensures Dense(s', d, g) {
      assert GroupIDs(s'.endpoints, d, g) == GroupIDs(s.endpoints, d, g);
      assert Dense(s, d, g);
    }
  }

  /** Ownership is untouched when the endpoint table and all Registered records are. */
  lemma OwnershipFrame(s: State, s': State)
    requires RecordsOwn(s) && OwnersDistinct(s) && EndpointsOwned(s) && s'.endpoints == s.endpoints
    requires forall rid :: (rid in s.pending && s.pending[rid].state == Registered) <==>
             (rid in s'.pending && s'.pending[rid].state == Registered)
    requires forall rid :: rid in s.pending && s.pending[rid].state == Registered ==> s'.pending[rid] == s.pending[rid]
    ensures RecordsOwn(s') && OwnersDistinct(s') && EndpointsOwned(s')
  {
    assert forall rid, slot :: Owns(s', rid, slot) <==> Owns(s, rid, slot);
  }

  /** Updates confined to records that are not Registered leave everything but the record index alone. */
  lemma PendingFrame(cfg: Config, s: State, s': State)
    requires Inv(cfg, s) && RecordsOK(s') && IndexAgrees(s') && SameRegistered(s, s')
    ensures Inv(cfg, s')
  {
    OwnershipFrame(s, s');
    DenseFrame(s, s');
    TokensFrame(cfg, s, s');
  }

  lemma TokensFrame(cfg: Config, s: State, s': State)
    requires IssuedOK(cfg, s) && TokensIssued(cfg, s)
    requires s'.endpoints == s.endpoints && s'.issued == s.issued
    ensures IssuedOK(cfg, s') && TokensIssued(cfg, s')
  {
    assert forall c, slot :: Describes(cfg, s', c, slot) <==> Describes(cfg, s, c, slot);
  }

  lemma AddRecordKeeps(cfg: Config, s: State, pe: PendingEnroll)
    requires Inv(cfg, s) && pe.requestID !in s.pending && RecordOK(pe.requestID, pe) && pe.state != Registered
    requires pe.fingerprint != "" ==> pe.fingerprint !in s.byFingerprint
    ensures Inv(cfg, AddRecord(s, pe))
  {
    AddRecordIndexed(s, AddRecord(s, pe), pe);
    PendingFrame(cfg, s, AddRecord(s, pe));
  }

  lemma AddRecordIndexed(s: State, s': State, pe: PendingEnroll)
    requires RecordsOK(s) && IndexAgrees(s) && pe.requestID !in s.pending && RecordOK(pe.requestID, pe)
    requires pe.fingerprint != "" ==> pe.fingerprint !in s.byFingerprint
    requires s' == AddRecord(s, pe)
    ensures RecordsOK(s') && IndexAgrees(s')
  {
  }

  lemma EnrollKeeps(cfg: Config, s: State, req: EnrollRequest, rid: string, nonce: Bytes)
    requires Inv(cfg, s) && rid !in s.pending
    ensures Inv(cfg, Enroll(s, req, rid, nonce).0)
  {
    var role := RoleOf(req.roleFlags);
    if ValidRole(role) && |req.publicKey| == PUBLIC_KEY_SIZE && (role != ROLE_RELAY ==> req.fingerprint != "")
       && (req.fingerprint != "" ==> req.fingerprint !in s.byFingerprint)
    {
      AddRecordKeeps(cfg, s, PendingEnroll(rid, req.publicKey, req.fingerprint, req.roleFlags, nonce, ChallengeIssued,
          NO_ADDR, ""));
    }
  }

  lemma DropKeeps(cfg: Config, s: State, rid: string)
    requires Inv(cfg, s) && rid in s.pending && s.pending[rid].state != Registered
    ensures Inv(cfg, Drop(s, rid))
  {
    var s' := Drop(s, rid);
    assert RecordsOK(s');
    assert IndexAgrees(s');
    PendingFrame(cfg, s, s');
  }

  lemma ReplaceRecord(s: State, s': State, rid: string, pe: PendingEnroll)
    requires RecordsOK(s) && IndexAgrees(s) && rid in s.pending && RecordOK(rid, pe)
    requires pe.fingerprint == s.pending[rid].fingerprint
    requires s'.pending == s.pending[rid := pe] && s'.byFingerprint == s.byFingerprint
    ensures RecordsOK(s') && IndexAgrees(s')
  {
  }

  lemma SetRecordStateKeeps(cfg: Config, s: State, rid: string, st: LifecycleState)
    requires Inv(cfg, s) && rid in s.pending && s.pending[rid].state != Registered
    requires st == Denied || (st == Pending && RoleOf(s.pending[rid].roleFlags) != ROLE_RELAY)
    ensures Inv(cfg, SetRecordState(s, rid, st))
  {
    var s' := SetRecordState(s, rid, st);
    RecordStateIndexed(s, rid, st);
    RegisteredUntouched(s, s', rid);
    PendingFrame(cfg, s, s');
  }

  ghost predicate SameRegistered(s: State, s': State) {
    && s' == s.(pending := s'.pending, byFingerprint := s'.byFingerprint)
    && (forall rid :: (rid in s.pending && s.pending[rid].state == Registered) <==>
         (rid in s'.pending && s'.pending[rid].state == Registered))
    && (forall rid :: rid in s.pending && s.pending[rid].state == Registered ==> s'.pending[rid] == s.pending[rid])
  }

  lemma RegisteredUntouched(s: State, s': State, rid: string)
    requires rid in s.pending && rid in s'.pending && s'.pending == s.pending[rid := s'.pending[rid]]
    requires s.pending[rid].state != Registered && s'.pending[rid].state != Registered
    requires s' == s.(pending := s'.pending, byFingerprint := s'.byFingerprint)
    ensures SameRegistered(s, s')
  {
  }

  lemma RecordStateIndexed(s: State, rid: string, st: LifecycleState)
    requires RecordsOK(s) && IndexAgrees(s) && rid in s.pending
    requires st == Denied || (st == Pending && RoleOf(s.pending[rid].roleFlags) != ROLE_RELAY)
    ensures RecordsOK(SetRecordState(s, rid, st)) && IndexAgrees(SetRecordState(s, rid, st))
  {
    assert RecordOK(rid, s.pending[rid]);
    ReplaceRecord(s, SetRecordState(s, rid, st), rid, s.pending[rid].(state := st));
  }

  /** The preconditions under which the broker admits a record into a group. */
  ghost predicate MayAdmit(s: State, rid: string, d: DomainID, g: GroupID, id: EndpointID) {
    && rid in s.pending && s.pending[rid].state != Registered
    && (RoleOf(s.pending[rid].roleFlags) == ROLE_RELAY <==> d == RELAY_DOMAIN)
    && (d == RELAY_DOMAIN ==> g == RELAY_GROUP)
    && id == Count(s, d, g) + 1 <= Alloc.MAX_ENDPOINTS
  }

  /** A new owner with a new endpoint joins; everyone else's ownership is unchanged. */
  lemma InsertOwner(s: State, s': State, rid: string, slot0: Slot)
    requires RecordsOwn(s) && OwnersDistinct(s) && EndpointsOwned(s)
    requires rid in s.pending && s.pending[rid].state != Registered && slot0 !in s.endpoints
    requires rid in s'.pending && slot0 in s'.endpoints
    requires s'.pending == s.pending[rid := s'.pending[rid]]
             && s'.endpoints == s.endpoints[slot0 := s'.endpoints[slot0]]
    requires Owns(s', rid, slot0)
    ensures RecordsOwn(s') && OwnersDistinct(s') && EndpointsOwned(s')
  {
    forall r, slot | Owns(s, r, slot) ensures r != rid && Owns(s', r, slot) {
    }
    forall r, slot | Owns(s', r, slot) ensures (r == rid && slot == slot0) || (r != rid && Owns(s, r, slot)) {
      if r != rid {
        assert Owns(s, r, s.pending[r].address.ToSlot());
      }
    }
    forall slot | slot in s'.endpoints ensures exists r :: Owns(s', r, slot) {
      if slot != slot0 {
        var r :| Owns(s, r, slot);
        assert Owns(s', r, slot);
      }
    }
  }

  lemma GroupIDsAfterInsert(endpoints: map<Slot, RegisteredEndpoint>, slot: Slot, ep: RegisteredEndpoint, d: DomainID,
                            g: GroupID)
    ensures GroupIDs(endpoints[slot := ep], d, g)
         == GroupIDs(endpoints, d, g) + if slot.domain == d && slot.group == g then {slot.id} else {}
  {
  }

  lemma InsertDense(s: State, s': State, slot: Slot, ep: RegisteredEndpoint)
    requires AllDense(s)
    requires slot.id == Count(s, slot.domain, slot.group) + 1 <= Alloc.MAX_ENDPOINTS
    requires s'.endpoints == s.endpoints[slot := ep]
    requires s'.nextID == s.nextID[GroupKey(slot.domain, slot.group) := Alloc.NextHint(slot.id)]
    ensures AllDense(s')
  {
    forall d: DomainID, g: GroupID ensures Dense(s', d, g) {
      assert Dense(s, d, g);
      InsertDenseAt(s, s', slot, ep, d, g);
    }
  }

  lemma InsertDenseAt(s: State, s': State, slot: Slot, ep: RegisteredEndpoint, d: DomainID, g: GroupID)
    requires Dense(s, d, g)
    requires slot.id == Count(s, slot.domain, slot.group) + 1 <= Alloc.MAX_ENDPOINTS
    requires s'.endpoints == s.endpoints[slot := ep]
    requires s'.nextID == s.nextID[GroupKey(slot.domain, slot.group) := Alloc.NextHint(slot.id)]
    ensures Dense(s', d, g)
  {
    GroupIDsAfterInsert(s.endpoints, slot, ep, d, g);
    if slot.domain == d && slot.group == g {
      InsertDenseHere(s, s', slot, ep);
    } else {
      assert GroupKey(slot.domain, slot.group) != GroupKey(d, g);
    }
  }

  lemma InsertDenseHere(s: State, s': State, slot: Slot, ep: RegisteredEndpoint)
    requires Dense(s, slot.domain, slot.group)
    requires slot.id == Count(s, slot.domain, slot.group) + 1 <= Alloc.MAX_ENDPOINTS
    requires s'.endpoints == s.endpoints[slot := ep]
    requires s'.nextID == s.nextID[GroupKey(slot.domain, slot.group) := Alloc.NextHint(slot.id)]
    ensures Dense(s', slot.domain, slot.group)
  {
    var d, g := slot.domain, slot.group;
    GroupIDsAfterInsert(s.endpoints, slot, ep, d, g);
    assert Count(s', d, g) == slot.id;
    forall id: EndpointID ensures Slot(d, g, id) in s'.endpoints <==> Slot(d, g, id) in s.endpoints || id == slot.id {
      assert Slot(d, g, slot.id) == slot;
    }
  }

  lemma InsertToken(cfg: Config, s: State, s': State, slot0: Slot, c0: TokenClaims)
    requires IssuedOK(cfg, s) && TokensIssued(cfg, s) && slot0 !in s.endpoints && slot0 in s'.endpoints
    requires s'.endpoints == s.endpoints[slot0 := s'.endpoints[slot0]] && s'.issued == s.issued + {c0}
    requires Describes(cfg, s', c0, slot0)
    ensures IssuedOK(cfg, s') && TokensIssued(cfg, s')
  {
    forall c, slot | Describes(cfg, s, c, slot) ensures Describes(cfg, s', c, slot) {
    }
    forall slot | slot in s'.endpoints ensures exists c :: c in s'.issued && Describes(cfg, s', c, slot) {
      if slot != slot0 {
        var c :| c in s.issued && Describes(cfg, s, c, slot);
        assert c in s'.issued && Describes(cfg, s', c, slot);
      }
    }
  }

  lemma InsertEndpoint(s: State, s': State, slot: Slot, ep: RegisteredEndpoint)
    requires EndpointsOK(s) && ReachabilityOK(s) && slot !in s.endpoints && EndpointOK(slot, ep)
    requires s'.endpoints == s.endpoints[slot := ep] && s'.reachability == s.reachability
    ensures EndpointsOK(s') && ReachabilityOK(s')
  {
  }

  lemma AdmitKeeps(cfg: Config, s: State, rid: string, d: DomainID, g: GroupID, id: EndpointID, now: int)
    requires Inv(cfg, s) && MayAdmit(s, rid, d, g, id)
    ensures Inv(cfg, Admit(cfg, s, rid, d, g, id, now))
  {
    var s', slot := Admit(cfg, s, rid, d, g, id, now), Slot(d, g, id);
    assert slot !in s.endpoints by {
      assert Dense(s, d, g);
    }
    var pe, ep := s'.pending[rid], s'.endpoints[slot];
    assert RecordOK(rid, s.pending[rid]);
    ReplaceRecord(s, s', rid, pe);
    InsertOwner(s, s', rid, slot);
    InsertDense(s, s', slot, ep);
    InsertToken(cfg, s, s', slot, ClaimsFor(cfg, s.pending[rid], d, g, id, now));
    InsertEndpoint(s, s', slot, ep);
  }

  lemma RegisterKeeps(cfg: Config, s: State, rid: string, d: DomainID, g: GroupID, now: int)
    requires Inv(cfg, s) && rid in s.pending && s.pending[rid].state != Registered
    requires (RoleOf(s.pending[rid].roleFlags) == ROLE_RELAY <==> d == RELAY_DOMAIN)
             && (d == RELAY_DOMAIN ==> g == RELAY_GROUP)
    ensures var r := RegisterApproved(cfg, s, rid, d, g, now); r.Ok? ==> Inv(cfg, r.value)
  {
    AllocationInDenseGroup(cfg, s, rid, d, g, now);
    NextRegistrationKeeps(cfg, s, rid, d, g, now);
    assert RegisterApproved(cfg, s, rid, d, g, now) == NextRegistration(cfg, s, rid, d, g, now);
  }

  lemma NextRegistrationKeeps(cfg: Config, s: State, rid: string, d: DomainID, g: GroupID, now: int)
    requires Inv(cfg, s) && rid in s.pending && s.pending[rid].state != Registered
    requires (RoleOf(s.pending[rid].roleFlags) == ROLE_RELAY <==> d == RELAY_DOMAIN)
             && (d == RELAY_DOMAIN ==> g == RELAY_GROUP)
    ensures var r := NextRegistration(cfg, s, rid, d, g, now); r.Ok? ==> Inv(cfg, r.value)
  {
    if Count(s, d, g) < Alloc.MAX_ENDPOINTS {
      AdmitKeeps(cfg, s, rid, d, g, Count(s, d, g) + 1, now);
    }
  }

  /** Moving one endpoint to Active or Revoked; Revoked endpoints lose their reachability entry first. */
  lemma EndpointStateKeeps(cfg: Config, s: State, slot: Slot, st: LifecycleState)
    requires Inv(cfg, s) && slot in s.endpoints && (st == Active || st == Revoked)
    requires st == Revoked ==> forall key :: key in s.reachability ==> s.reachability[key].addr.ToSlot() != slot
    ensures Inv(cfg, SetEndpointState(s, slot, st))
  {
    var s' := SetEndpointState(s, slot, st);
    DenseFrame(s, s');
    StateChangeKeepsOwnership(s, s', slot, st);
    StateChangeKeepsTokens(cfg, s, s', slot, st);
    assert EndpointOK(slot, s.endpoints[slot]);
    StateChangeKeepsEndpoints(s, s', slot, st);
  }

  lemma StateChangeKeepsOwnership(s: State, s': State, slot: Slot, st: LifecycleState)
    requires RecordsOwn(s) && OwnersDistinct(s) && EndpointsOwned(s) && slot in s.endpoints
    requires s'.pending == s.pending && s'.endpoints == s.endpoints[slot := s.endpoints[slot].(state := st)]
    ensures RecordsOwn(s') && OwnersDistinct(s') && EndpointsOwned(s')
  {
    assert forall rid, sl :: Owns(s', rid, sl) <==> Owns(s, rid, sl);
  }

  lemma StateChangeKeepsTokens(cfg: Config, s: State, s': State, slot: Slot, st: LifecycleState)
    requires IssuedOK(cfg, s) && TokensIssued(cfg, s) && slot in s.endpoints
    requires s'.issued == s.issued && s'.endpoints == s.endpoints[slot := s.endpoints[slot].(state := st)]
    ensures IssuedOK(cfg, s') && TokensIssued(cfg, s')
  {
    assert forall c, sl :: Describes(cfg, s', c, sl) <==> Describes(cfg, s, c, sl);
  }

  lemma StateChangeKeepsEndpoints(s: State, s': State, slot: Slot, st: LifecycleState)
    requires EndpointsOK(s) && ReachabilityOK(s) && slot in s.endpoints && (st == Active || st == Revoked)
    requires st == Revoked ==> forall key :: key in s.reachability ==> s.reachability[key].addr.ToSlot() != slot
    requires s'.reachability == s.reachability && s'.endpoints == s.endpoints[slot := s.endpoints[slot].(state := st)]
    ensures EndpointsOK(s') && ReachabilityOK(s')
  {
  }

  lemma ReachabilityKeeps(cfg: Config, s: State, reach: map<string, ReachabilityInfo>)
    requires Inv(cfg, s)
    requires forall key :: key in reach ==> ReachOK(s, key, reach[key])
    ensures Inv(cfg, s.(reachability := reach))
  {
    SideTablesFrame(cfg, s, s.(reachability := reach));
  }

  /** Pre-approvals and routes matter to nothing but themselves. */
  lemma SideTablesFrame(cfg: Config, s: State, s': State)
    requires Inv(cfg, s) && PreApprovalsOK(s') && ReachabilityOK(s')
    requires s' == s.(preApproved := s'.preApproved, reachability := s'.reachability)
    ensures Inv(cfg, s')
  {
    OwnershipFrame(s, s');
    DenseFrame(s, s');
    TokensFrame(cfg, s, s');
  }

  lemma RevokeKeeps(cfg: Config, s: State, addr: EndpointAddr)
    requires Inv(cfg, s)
    ensures Inv(cfg, Revoke(s, addr).0)
  {
    var slot := addr.ToSlot();
    if slot in s.endpoints {
      var reach := s.reachability - {addr.AddrKey()};
      forall key | key in reach ensures reach[key].addr.ToSlot() != slot {
        AddrKeyIdentifiesSlot(reach[key].addr, addr);
      }
      ReachabilityKeeps(cfg, s, reach);
      EndpointStateKeeps(cfg, s.(reachability := reach), slot, Revoked);
    }
  }

  lemma InfoUpdateKeeps(cfg: Config, s: State, addr: EndpointAddr, info: ReachabilityInfo)
    requires Inv(cfg, s) && ActiveAt(s, addr.ToSlot())
    requires info.addr == InfoFor(s, addr).addr && (info.direct.Some? || info.relay.Some?)
    ensures Inv(cfg, s.(reachability := s.reachability[addr.AddrKey() := info]))
  {
    ReachabilityKeeps(cfg, s, s.reachability[addr.AddrKey() := info]);
  }

  lemma ConfirmKeeps(cfg: Config, s: State, rid: string, signature: Bytes, now: int)
    requires Inv(cfg, s)
    ensures Inv(cfg, Confirm(cfg, s, rid, signature, now).0)
  {
    if rid in s.pending && s.pending[rid].state == ChallengeIssued {
      var pe := s.pending[rid];
      if !cfg.verify(pe.publicKey, pe.challenge, signature) {
        DropKeeps(cfg, s, rid);
      } else if RoleOf(pe.roleFlags) == ROLE_RELAY {
        RegisterKeeps(cfg, s, rid, RELAY_DOMAIN, RELAY_GROUP, now);
      } else if pe.fingerprint in s.preApproved {
        RegisterKeeps(cfg, s, rid, s.preApproved[pe.fingerprint].domain, s.preApproved[pe.fingerprint].group, now);
      } else {
        SetRecordStateKeeps(cfg, s, rid, Pending);
      }
    }
  }

  lemma PreApproveKeeps(cfg: Config, s: State, fp: string, d: DomainID, g: GroupID)
    requires Inv(cfg, s)
    ensures Inv(cfg, PreApprove(s, fp, d, g).0)
  {
    if fp != "" && d != RELAY_DOMAIN {
      SideTablesFrame(cfg, s, s.(preApproved := s.preApproved[fp := AddrMapping(d, g)]));
    }
  }

  lemma ApproveKeeps(cfg: Config, s: State, rid: string, d: DomainID, g: GroupID, now: int)
    requires Inv(cfg, s)
    ensures Inv(cfg, Approve(cfg, s, rid, d, g, now).0)
  {
    if rid in s.pending && s.pending[rid].state == Pending && d != RELAY_DOMAIN {
      RegisterKeeps(cfg, s, rid, d, g, now);
    }
  }

  lemma DenyKeeps(cfg: Config, s: State, rid: string)
    requires Inv(cfg, s)
    ensures Inv(cfg, Deny(s, rid).0)
  {
    if Deny(s, rid).1.Ok? {
      SetRecordStateKeeps(cfg, s, rid, Denied);
    }
  }

  lemma ActivateKeeps(cfg: Config, s: State, addr: EndpointAddr, token: string, now: int)
    requires Inv(cfg, s)
    ensures Inv(cfg, Activate(cfg, s, addr, token, now).0)
  {
    if Activate(cfg, s, addr, token, now).1.Ok? {
      EndpointStateKeeps(cfg, s, addr.ToSlot(), Active);
    }
  }

  lemma ObserveKeeps(cfg: Config, s: State, addr: EndpointAddr, observed: string, proto: string)
    requires Inv(cfg, s)
    ensures Inv(cfg, Observe(s, addr, observed, proto).0)
  {
    if ActiveAt(s, addr.ToSlot()) {
      InfoUpdateKeeps(cfg, s, addr, InfoFor(s, addr).(direct := Some(DirectRoute(observed, proto))));
    }
  }

  lemma SetRelayRouteKeeps(cfg: Config, s: State, addr: EndpointAddr, token: string, relayAddr: EndpointAddr, now: int)
    requires Inv(cfg, s)
    ensures Inv(cfg, SetRelayRoute(cfg, s, addr, token, relayAddr, now).0)
  {
    if ActiveAt(s, addr.ToSlot()) {
      InfoUpdateKeeps(cfg, s, addr, InfoFor(s, addr).(relay := Some(relayAddr)));
    }
  }

  lemma ClearKeeps(cfg: Config, s: State, addr: EndpointAddr)
    requires Inv(cfg, s)
    ensures Inv(cfg, ClearReachability(s, addr))
  {
    ReachabilityKeeps(cfg, s, s.reachability - {addr.AddrKey()});
  }

  /** Every operation keeps the invariant, whether it succeeds or fails. */
  lemma NextKeeps(cfg: Config, s: State, op: Op)
    requires Inv(cfg, s) && FreshID(s, op)
    ensures Inv(cfg, Next(cfg, s, op))
  {
    match op
    case OpEnroll(req, rid, nonce) => EnrollKeeps(cfg, s, req, rid, nonce);
    case OpConfirm(rid, signature, now) => ConfirmKeeps(cfg, s, rid, signature, now);
    case OpPreApprove(fp, d, g) => PreApproveKeeps(cfg, s, fp, d, g);
    case OpApprove(rid, d, g, now) => ApproveKeeps(cfg, s, rid, d, g, now);
    case OpDeny(rid) => DenyKeeps(cfg, s, rid);
    case OpActivate(addr, token, now) => ActivateKeeps(cfg, s, addr, token, now);
    case OpRevoke(addr) => RevokeKeeps(cfg, s, addr);
    case OpObserve(addr, observed, proto) => ObserveKeeps(cfg, s, addr, observed, proto);
    case OpSetRelayRoute(addr, token, relayAddr, now) => SetRelayRouteKeeps(cfg, s, addr, token, relayAddr, now);
    case OpClear(addr) => ClearKeeps(cfg, s, addr);
  }

  lemma FreshRunPrefix(cfg: Config, s: State, ops: seq<Op>, n: nat)
    requires FreshRun(cfg, s, ops) && n <= |ops|
    ensures FreshRun(cfg, s, ops[..n])
  {
    forall i {:trigger ops[..n][i]} | 0 <= i < n ensures FreshID(Run(cfg, s, ops[..n][..i]), ops[..n][i]) {
      assert ops[..n][..i] == ops[..i] && ops[..n][i] == ops[i];
    }
  }

  /** Every run from an invariant state, and so every run from the empty registrar, stays consistent. */
  lemma {:induction false} RunKeeps(cfg: Config, s: State, ops: seq<Op>)
    requires Inv(cfg, s) && FreshRun(cfg, s, ops)
    ensures Inv(cfg, Run(cfg, s, ops))
    decreases |ops|
  {
    if ops != [] {
      var n := |ops| - 1;
      FreshRunPrefix(cfg, s, ops, n);
      RunKeeps(cfg, s, ops[..n]);
      assert FreshID(Run(cfg, s, ops[..n]), ops[n]);
      NextKeeps(cfg, Run(cfg, s, ops[..n]), ops[n]);
    }
  }

  lemma ReachableInv(cfg: Config, ops: seq<Op>)
    requires FreshRun(cfg, INIT, ops)
    ensures Inv(cfg, Run(cfg, INIT, ops))
  {
    InitInv(cfg);
    RunKeeps(cfg, INIT, ops);
  }
}
