/** When each broker operation succeeds, why it refuses, and what it changes (swarm/registrar.go). */
module BrokerAnswers {
  import opened Common
  import opened SwarmTypes
  import opened Paseto
  import opened Broker
  import opened BrokerInvariant
  import opened BrokerTheorems
  import Alloc = IDAllocator

  /** The token opens to claims naming this domain, group and ID. */
  predicate TokenNames(cfg: Config, token: string, now: int, addr: EndpointAddr) {
    && cfg.open(token, now).Ok?
    && var c := cfg.open(token, now).value;
       c.domain == addr.domain && c.group == addr.group && c.endpointID == addr.endpoint
  }

  /** The token opens, but to claims naming another endpoint. */
  predicate TokenNamesAnother(cfg: Config, token: string, now: int, addr: EndpointAddr) {
    cfg.open(token, now).Ok? && !TokenNames(cfg, token, now, addr)
  }

  predicate Stored(s: State, addr: EndpointAddr) {
    Slot(addr.domain, addr.group, addr.endpoint) in s.endpoints
  }

  predicate StoredAs(s: State, addr: EndpointAddr, st: LifecycleState) {
    Stored(s, addr) && s.endpoints[Slot(addr.domain, addr.group, addr.endpoint)].state == st
  }

  /** The two states differ in one endpoint, and there only in its lifecycle state. */
  predicate MovedTo(s: State, s': State, addr: EndpointAddr, st: LifecycleState) {
    && Stored(s, addr)
    && var slot := Slot(addr.domain, addr.group, addr.endpoint);
       s' == s.(endpoints := s.endpoints[slot := s.endpoints[slot].(state := st)])
  }

  // ---------- activation and revocation ----------

  /** Activation needs a token for exactly this address, role flags included, and a Registered endpoint. */
  lemma ActivateExactly(cfg: Config, s: State, addr: EndpointAddr, token: string, now: int)
    ensures var (s', r) := Activate(cfg, s, addr, token, now);
      var fits := TokenNames(cfg, token, now, addr) && cfg.open(token, now).value.roleFlags == addr.roleFlags;
      && (r.Ok? <==> fits && StoredAs(s, addr, Registered))
      && (r.Ok? ==> MovedTo(s, s', addr, Active))
      && (r.Err? ==> s' == s)
      && (r == Err(TokenMismatch) <==> cfg.open(token, now).Ok? && !fits)
      && (r == Err(EndpointNotFound) <==> fits && !Stored(s, addr))
      && (forall e :: r == Err(BadToken(e)) <==> cfg.open(token, now) == Err(e))
  {
  }

  /**
   Over reachable brokers, a token that is not forged activates only the endpoint it binds: the one with its
   address, role flags, key and fingerprint.
   */
  lemma ActivationIsBound(p: Primitives, ttl: int, ops: seq<Op>, addr: EndpointAddr, token: string, now: int)
    requires p.Lawful() && FreshRun(PasetoConfig(p, ttl), INIT, ops)
    requires Unforged(p, Run(PasetoConfig(p, ttl), INIT, ops).issued, token)
    requires Activate(PasetoConfig(p, ttl), Run(PasetoConfig(p, ttl), INIT, ops), addr, token, now).1.Ok?
    ensures var s := Run(PasetoConfig(p, ttl), INIT, ops);
      var s' := Activate(PasetoConfig(p, ttl), s, addr, token, now).0;
      && VerifyToken(p, token, now).Ok? && Binds(VerifyToken(p, token, now).value, s)
      && Stored(s, addr) && s.endpoints[addr.ToSlot()].addr == addr
      && s.endpoints[addr.ToSlot()].publicKey == VerifyToken(p, token, now).value.publicKey
      && MovedTo(s, s', addr, Active)
  {
    var cfg := PasetoConfig(p, ttl);
    var s := Run(cfg, INIT, ops);
    ActivateExactly(cfg, s, addr, token, now);
    assert ops + [] == ops;
    TokenBindsOneEndpoint(p, ttl, ops, [], token, now);
  }

  lemma RevokeExactly(s: State, addr: EndpointAddr)
    ensures var (s', r) := Revoke(s, addr);
      && r == (if Stored(s, addr) then Ok(()) else Err(EndpointNotFound))
      && (r.Ok? ==> MovedTo(s.(reachability := s'.reachability), s', addr, Revoked))
      && (r.Ok? ==> s'.reachability == s.reachability - {addr.AddrKey()})
      && (r.Err? ==> s' == s)
  {
  }

  /** The registration info is given to Active endpoints and to no others. */
  lemma InfoExactly(s: State, addr: EndpointAddr)
    ensures InfoRefusal(s, addr) == None <==> StoredAs(s, addr, Active)
    ensures InfoRefusal(s, addr) == Some(EndpointNotFound) <==> !Stored(s, addr)
  {
  }

  // ---------- reachability ----------

  /** Only the routes under this address's key may have changed. */
  predicate OnlyRoutesAt(s: State, s': State, addr: EndpointAddr) {
    && s' == s.(reachability := s'.reachability)
    && s'.reachability - {addr.AddrKey()} == s.reachability - {addr.AddrKey()}
  }

  function RelayOf(s: State, addr: EndpointAddr): Option<EndpointAddr> {
    if addr.AddrKey() in s.reachability then s.reachability[addr.AddrKey()].relay else None
  }

  function DirectOf(s: State, addr: EndpointAddr): Option<DirectRoute> {
    if addr.AddrKey() in s.reachability then s.reachability[addr.AddrKey()].direct else None
  }

  lemma ObserveExactly(s: State, addr: EndpointAddr, observed: string, proto: string)
    ensures var (s', r) := Observe(s, addr, observed, proto);
      && (r.Ok? <==> StoredAs(s, addr, Active))
      && (r.Ok? ==> OnlyRoutesAt(s, s', addr) && DirectOf(s', addr) == Some(DirectRoute(observed, proto)))
      && (r.Ok? ==> RelayOf(s', addr) == RelayOf(s, addr))
      && (r.Err? ==> s' == s)
      && (r == Err(EndpointNotFound) <==> !Stored(s, addr))
  {
  }

  /** A relay route is accepted from the endpoint itself only; role flags are not compared here. */
  lemma SetRelayRouteExactly(cfg: Config, s: State, addr: EndpointAddr, token: string, relay: EndpointAddr, now: int)
    ensures var (s', r) := SetRelayRoute(cfg, s, addr, token, relay, now);
      && (r.Ok? <==> TokenNames(cfg, token, now, addr) && StoredAs(s, addr, Active))
      && (r.Ok? ==> OnlyRoutesAt(s, s', addr) && RelayOf(s', addr) == Some(relay))
      && (r.Ok? ==> DirectOf(s', addr) == DirectOf(s, addr))
      && (r.Err? ==> s' == s)
      && (r == Err(TokenMismatch) <==> TokenNamesAnother(cfg, token, now, addr))
      && (r == Err(EndpointNotFound) <==> TokenNames(cfg, token, now, addr) && !Stored(s, addr))
  {
  }

  lemma ClearExactly(s: State, addr: EndpointAddr)
    ensures OnlyRoutesAt(s, ClearReachability(s, addr), addr)
    ensures addr.AddrKey() !in ClearReachability(s, addr).reachability
  {
  }

  /** A lookup returns the stored routes unchanged. */
  lemma LookupExactly(cfg: Config, s: State, target: EndpointAddr)
    requires Inv(cfg, s)
    ensures LookupReachability(s, target)
         == if target.AddrKey() in s.reachability then Some(s.reachability[target.AddrKey()]) else None
  {
    if target.AddrKey() in s.reachability {
      assert ReachOK(s, target.AddrKey(), s.reachability[target.AddrKey()]);
    }
  }

  /** Which punches are refused, and for which reason. */
  lemma PunchExactly(cfg: Config, s: State, client: EndpointAddr, agent: EndpointAddr, token: string, now: int)
    requires Inv(cfg, s)
    ensures var r := RequestPunch(cfg, s, client, agent, token, now);
      && (r.Ok? <==> TokenNames(cfg, token, now, client) && DirectOf(s, client).Some? && DirectOf(s, agent).Some?)
      && (r == Err(TokenMismatch) <==> TokenNamesAnother(cfg, token, now, client))
      && (r == Err(ClientNotObserved) <==> TokenNames(cfg, token, now, client) && DirectOf(s, client).None?)
      && (r == Err(AgentNotObserved) <==>
           TokenNames(cfg, token, now, client) && DirectOf(s, client).Some? && DirectOf(s, agent).None?)
  {
    RoutedIsActive(cfg, s, client);
    RoutedIsActive(cfg, s, agent);
  }

  lemma RoutedIsActive(cfg: Config, s: State, a: EndpointAddr)
    requires Inv(cfg, s)
    ensures a.AddrKey() in s.reachability ==> ActiveAt(s, a.ToSlot())
  {
    if a.AddrKey() in s.reachability {
      assert ReachOK(s, a.AddrKey(), s.reachability[a.AddrKey()]);
      AddrKeyIdentifiesSlot(s.reachability[a.AddrKey()].addr, a);
    }
  }

  /** Once both endpoints have been observed, the client's token buys each side the other's observed address. */
  lemma ObserveThenPunch(cfg: Config, s: State, client: EndpointAddr, agent: EndpointAddr, c: DirectRoute,
                         a: DirectRoute, token: string, now: int)
    requires Inv(cfg, s) && StoredAs(s, client, Active) && StoredAs(s, agent, Active)
    requires client.ToSlot() != agent.ToSlot() && TokenNames(cfg, token, now, client)
    ensures var s1 := Observe(s, client, c.observedAddr, c.proto).0;
      var s2 := Observe(s1, agent, a.observedAddr, a.proto).0;
      RequestPunch(cfg, s2, client, agent, token, now)
      == Ok((PunchRequest(agent, a.observedAddr, a.proto), PunchRequest(client, c.observedAddr, c.proto)))
  {
    ObserveExactly(s, client, c.observedAddr, c.proto);
    var s1 := Observe(s, client, c.observedAddr, c.proto).0;
    ObserveExactly(s1, agent, a.observedAddr, a.proto);
    AddrKeyIdentifiesSlot(client, agent);
    var s2 := Observe(s1, agent, a.observedAddr, a.proto).0;
    assert client.AddrKey() in s2.reachability - {agent.AddrKey()};
  }

  // ---------- enrollment ----------

  /** A request that is not yet known becomes one new record, waiting for its challenge. */
  lemma EnrollExactly(s: State, req: EnrollRequest, rid: string, nonce: Bytes)
    requires req.roleFlags & 0x03 != 0 && |req.publicKey| == 32
    requires req.roleFlags & 0x03 == 0x03 || req.fingerprint != ""
    requires req.fingerprint == "" || req.fingerprint !in s.byFingerprint
    ensures var (s', r) := Enroll(s, req, rid, nonce);
      && r == Ok(EnrollResponse(rid, nonce))
      && s' == s.(pending := s'.pending, byFingerprint := s'.byFingerprint)
      && (rid in s'.pending && s'.pending - {rid} == s.pending - {rid})
      && s'.pending[rid] == s'.pending[rid].(
           requestID := rid, publicKey := req.publicKey, fingerprint := req.fingerprint,
           roleFlags := req.roleFlags, challenge := nonce, state := ChallengeIssued)
      && s'.byFingerprint ==
         (if req.fingerprint == "" then s.byFingerprint else s.byFingerprint[req.fingerprint := rid])
  {
  }

  /** A refused request changes nothing. */
  lemma EnrollRefusal(s: State, req: EnrollRequest, rid: string, nonce: Bytes)
    ensures var (s', r) := Enroll(s, req, rid, nonce);
      && (r.Err? ==> s' == s)
      && (r == Err(InvalidRole) <==> req.roleFlags & 0x03 == 0)
      && (r == Err(InvalidPublicKey) <==> req.roleFlags & 0x03 != 0 && |req.publicKey| != 32)
      && (r == Err(FingerprintRequired) <==>
           && req.roleFlags & 0x03 != 0 && req.roleFlags & 0x03 != 0x03
           && |req.publicKey| == 32 && req.fingerprint == "")
  {
  }

  /** The two states differ in one record, and there only in its lifecycle state. */
  predicate RecordMovedTo(s: State, s': State, rid: string, st: LifecycleState) {
    rid in s.pending && s' == s.(pending := s.pending[rid := s.pending[rid].(state := st)])
  }

  /** The record's challenge has been answered with a good signature. */
  predicate Answers(cfg: Config, s: State, rid: string, signature: Bytes) {
    && rid in s.pending && s.pending[rid].state == ChallengeIssued
    && cfg.verify(s.pending[rid].publicKey, s.pending[rid].challenge, signature)
  }

  /** No administrator is needed: a relay, or a pre-approved fingerprint. */
  predicate Automatic(s: State, rid: string)
    requires rid in s.pending
  {
    s.pending[rid].roleFlags & 0x03 == 0x03 || s.pending[rid].fingerprint in s.preApproved
  }

  /** A good answer from anyone else makes the record Pending, and changes nothing else. */
  lemma ConfirmWaits(cfg: Config, s: State, rid: string, signature: Bytes, now: int)
    requires Answers(cfg, s, rid, signature) && !Automatic(s, rid)
    ensures Confirm(cfg, s, rid, signature, now).1 == Ok(EnrollStatus(Pending, None))
    ensures RecordMovedTo(s, Confirm(cfg, s, rid, signature, now).0, rid, Pending)
  {
  }

  /** What a status says of a record. */
  predicate Reports(status: EnrollStatus, pe: PendingEnroll) {
    && status.state == pe.state
    && status.result == if pe.state == Registered then Some(EnrollResult(pe.address, pe.token)) else None
  }

  /** Confirming a request that is past its challenge repeats its status and changes nothing. */
  lemma ConfirmRepeats(cfg: Config, s: State, rid: string, signature: Bytes, now: int)
    requires rid in s.pending && s.pending[rid].state != ChallengeIssued
    ensures var (s', r) := Confirm(cfg, s, rid, signature, now);
      s' == s && r.Ok? && Reports(r.value, s.pending[rid])
  {
  }

  /** A bad answer removes the record and frees its fingerprint, and nothing else. */
  lemma ConfirmDrops(cfg: Config, s: State, rid: string, signature: Bytes, now: int)
    requires rid in s.pending && s.pending[rid].state == ChallengeIssued && !Answers(cfg, s, rid, signature)
    ensures var (s', r) := Confirm(cfg, s, rid, signature, now);
      && r == Err(ChallengeFailed)
      && s' == s.(pending := s.pending - {rid}, byFingerprint := s'.byFingerprint)
      && (s.pending[rid].fingerprint == "" ==> s'.byFingerprint == s.byFingerprint)
      && (s.pending[rid].fingerprint != "" ==> s'.byFingerprint == s.byFingerprint - {s.pending[rid].fingerprint})
  {
  }

  /** Which replies confirmation gives: the request is unknown, the answer bad, the group full, or all is well. */
  lemma ConfirmExactly(cfg: Config, s: State, rid: string, signature: Bytes, now: int)
    requires Inv(cfg, s)
    ensures var (s', r) := Confirm(cfg, s, rid, signature, now);
      && (r == Err(UnknownRequest) <==> rid !in s.pending)
      && (r == Err(ChallengeFailed) <==>
           rid in s.pending && s.pending[rid].state == ChallengeIssued && !Answers(cfg, s, rid, signature))
      && (r == Err(CapacityReached) <==> Answers(cfg, s, rid, signature) && Automatic(s, rid) && AutoFull(s, rid))
      && (r.Err? ==> r.error == UnknownRequest || r.error == ChallengeFailed || r.error == CapacityReached)
      && (r.Err? && r.error != ChallengeFailed ==> s' == s)
      && (r.Ok? && Answers(cfg, s, rid, signature) && Automatic(s, rid) ==>
           r.value.state == Registered && rid in s'.pending && Reports(r.value, s'.pending[rid]))
  {
    if Answers(cfg, s, rid, signature) && Automatic(s, rid) {
      var pe := s.pending[rid];
      if pe.roleFlags & 0x03 == 0x03 {
        AllocationInDenseGroup(cfg, s, rid, RELAY_DOMAIN, RELAY_GROUP, now);
      } else {
        var m := s.preApproved[pe.fingerprint];
        AllocationInDenseGroup(cfg, s, rid, m.domain, m.group, now);
      }
    }
  }

  /** The group an automatic registration goes to holds all its 65534 endpoints. */
  ghost predicate AutoFull(s: State, rid: string)
    requires rid in s.pending && Automatic(s, rid)
  {
    if s.pending[rid].roleFlags & 0x03 == 0x03 then Count(s, 0, 0) >= 65534
    else
      var m := s.preApproved[s.pending[rid].fingerprint];
      Count(s, m.domain, m.group) >= 65534
  }

  /** A poll is answered to whoever signs the request ID with the record's key, and to nobody else. */
  lemma PollExactly(cfg: Config, s: State, rid: string, signature: Bytes)
    ensures var r := Poll(cfg, s, rid, signature);
      var signed := rid in s.pending && cfg.verify(s.pending[rid].publicKey, ToBytes(rid + "|poll"), signature);
      && (r.Ok? <==> signed)
      && (r.Ok? ==> Reports(r.value, s.pending[rid]))
      && (r == Err(UnknownRequest) <==> rid !in s.pending)
      && (r == Err(PollSignatureInvalid) <==> rid in s.pending && !signed)
  {
  }

  lemma PreApproveExactly(s: State, fp: string, d: DomainID, g: GroupID)
    ensures var (s', r) := PreApprove(s, fp, d, g);
      && (r.Ok? <==> fp != "" && d != 0)
      && s' == (if r.Ok? then s.(preApproved := s.preApproved[fp := AddrMapping(d, g)]) else s)
      && (r == Err(EmptyFingerprint) <==> fp == "")
  {
  }

  lemma DenyExactly(s: State, rid: string)
    ensures var (s', r) := Deny(s, rid);
      && (r.Ok? <==> rid in s.pending && (s.pending[rid].state == Pending || s.pending[rid].state == ChallengeIssued))
      && (r.Ok? ==> RecordMovedTo(s, s', rid, Denied))
      && (r.Err? ==> s' == s)
      && (r == Err(UnknownRequest) <==> rid !in s.pending)
  {
  }

  /** Approval is for Pending records, into business domains, below capacity. */
  lemma ApproveExactly(cfg: Config, s: State, rid: string, d: DomainID, g: GroupID, now: int)
    requires Inv(cfg, s)
    ensures var (s', r) := Approve(cfg, s, rid, d, g, now);
      && (r.Ok? <==> rid in s.pending && s.pending[rid].state == Pending && d != 0 && Count(s, d, g) < 65534)
      && (r.Err? ==> s' == s)
      && (r == Err(UnknownRequest) <==> rid !in s.pending)
      && (r == Err(ReservedDomain) <==> rid in s.pending && s.pending[rid].state == Pending && d == 0)
  {
    if rid in s.pending && s.pending[rid].state == Pending {
      AllocationInDenseGroup(cfg, s, rid, d, g, now);
    }
  }

  // ---------- what no operation touches ----------

  predicate ChangesRecords(op: Op) {
    op.OpEnroll? || op.OpConfirm? || op.OpApprove? || op.OpDeny?
  }

  predicate Registers(op: Op) {
    op.OpConfirm? || op.OpApprove?
  }

  predicate ChangesRoutes(op: Op) {
    op.OpObserve? || op.OpSetRelayRoute? || op.OpClear? || op.OpRevoke?
  }

  /** Each table is changed by its own operations only. */
  lemma TablesTouched(cfg: Config, s: State, op: Op)
    ensures var s' := Next(cfg, s, op);
      && (!op.OpPreApprove? ==> s'.preApproved == s.preApproved)
      && (!ChangesRecords(op) ==> s'.pending == s.pending && s'.byFingerprint == s.byFingerprint)
      && (!ChangesRoutes(op) ==> s'.reachability == s.reachability)
      && (!Registers(op) ==> s'.nextID == s.nextID && s'.issued == s.issued)
      && (!Registers(op) && !op.OpActivate? && !op.OpRevoke? ==> s'.endpoints == s.endpoints)
  {
    match op
    case OpConfirm(rid, signature, now) => ConfirmLeavesTables(cfg, s, rid, signature, now);
    case OpApprove(rid, d, g, now) => ApproveLeavesTables(cfg, s, rid, d, g, now);
    case OpEnroll(req, rid, nonce) => EnrollLeavesTables(s, req, rid, nonce);
    case OpDeny(rid) => DenyExactly(s, rid);
    case OpPreApprove(fp, d, g) => PreApproveExactly(s, fp, d, g);
    case OpActivate(addr, token, now) => ActivateExactly(cfg, s, addr, token, now);
    case OpRevoke(addr) => RevokeExactly(s, addr);
    case OpObserve(addr, observed, proto) => ObserveExactly(s, addr, observed, proto);
    case OpSetRelayRoute(addr, token, relay, now) => SetRelayRouteExactly(cfg, s, addr, token, relay, now);
    case OpClear(addr) => ClearExactly(s, addr);
  }

  lemma EnrollLeavesTables(s: State, req: EnrollRequest, rid: string, nonce: Bytes)
    ensures var s' := Enroll(s, req, rid, nonce).0;
      s' == s.(pending := s'.pending, byFingerprint := s'.byFingerprint)
  {
  }

  lemma ApproveLeavesTables(cfg: Config, s: State, rid: string, d: DomainID, g: GroupID, now: int)
    ensures var s' := Approve(cfg, s, rid, d, g, now).0;
      s'.preApproved == s.preApproved && s'.reachability == s.reachability
  {
    if rid in s.pending {
      RegistrationLeavesTables(cfg, s, rid, d, g, now);
    }
  }

  lemma RegistrationLeavesTables(cfg: Config, s: State, rid: string, d: DomainID, g: GroupID, now: int)
    requires rid in s.pending
    ensures var r := RegisterApproved(cfg, s, rid, d, g, now);
      r.Ok? ==> r.value.preApproved == s.preApproved && r.value.reachability == s.reachability
  {
  }

  lemma ConfirmLeavesTables(cfg: Config, s: State, rid: string, signature: Bytes, now: int)
    ensures var s' := Confirm(cfg, s, rid, signature, now).0;
      s'.preApproved == s.preApproved && s'.reachability == s.reachability
  {
    if Answers(cfg, s, rid, signature) && Automatic(s, rid) {
      var pe := s.pending[rid];
      if pe.roleFlags & 0x03 == 0x03 {
        ReportLeavesTables(cfg, s, rid, RELAY_DOMAIN, RELAY_GROUP, now);
      } else {
        ReportLeavesTables(cfg, s, rid, s.preApproved[pe.fingerprint].domain, s.preApproved[pe.fingerprint].group, now);
      }
    } else if Answers(cfg, s, rid, signature) {
      ConfirmWaits(cfg, s, rid, signature, now);
    } else if rid in s.pending && s.pending[rid].state == ChallengeIssued {
      ConfirmDrops(cfg, s, rid, signature, now);
    }
  }

  lemma ReportLeavesTables(cfg: Config, s: State, rid: string, d: DomainID, g: GroupID, now: int)
    requires rid in s.pending
    ensures var s' := RegisterThenReport(cfg, s, rid, d, g, now).0;
      s'.preApproved == s.preApproved && s'.reachability == s.reachability
  {
    RegistrationLeavesTables(cfg, s, rid, d, g, now);
  }

  // ---------- the administrator's path, end to end ----------

  /**
   A new client or agent that no one has pre-approved answers its challenge and waits; once an administrator
   approves it, its poll brings the group's next ID and a token, and the token activates exactly that endpoint
   until it expires.
   */
  lemma AdminEnrollment(cfg: Config, s: State, req: EnrollRequest, rid: string, nonce: Bytes, answer: Bytes,
                        poll: Bytes, d: DomainID, g: GroupID, now: int, approved: int, later: int)
    requires TokensRoundTrip(cfg) && Inv(cfg, s) && rid !in s.pending
    requires Enroll(s, req, rid, nonce).1 == Ok(EnrollResponse(rid, nonce))
    requires req.roleFlags & 0x03 != 0x03 && req.fingerprint !in s.preApproved
    requires cfg.verify(req.publicKey, nonce, answer) && cfg.verify(req.publicKey, ToBytes(rid + "|poll"), poll)
    requires d != 0 && Count(s, d, g) < 65534
    ensures var s1 := Enroll(s, req, rid, nonce).0;
      var (s2, waiting) := Confirm(cfg, s1, rid, answer, now);
      && waiting == Ok(EnrollStatus(Pending, None)) && Poll(cfg, s2, rid, poll) == waiting
      && var (s3, r) := Approve(cfg, s2, rid, d, g, approved);
         r.Ok? && ApprovedFor(cfg, s, s3, req, Poll(cfg, s3, rid, poll), d, g, approved, later)
  {
    var s1 := Enroll(s, req, rid, nonce).0;
    EnrolledRecord(cfg, s, req, rid, nonce);
    EnrollKeeps(cfg, s, req, rid, nonce);
    ConfirmWaits(cfg, s1, rid, answer, now);
    var s2 := Confirm(cfg, s1, rid, answer, now).0;
    ConfirmKeeps(cfg, s1, rid, answer, now);
    PollExactly(cfg, s2, rid, poll);
    assert Count(s2, d, g) == Count(s, d, g);
    ApprovalAdmits(cfg, s2, rid, d, g, approved, poll);
    AdmittedActivates(cfg, s, s2, Approve(cfg, s2, rid, d, g, approved).0, req, rid, poll, d, g, approved, later);
  }

  /** The owner's poll reports the next ID with a token, and the token activates that endpoint until it expires. */
  ghost predicate ApprovedFor(cfg: Config, s: State, s3: State, req: EnrollRequest, polled: Result<EnrollStatus, Error>,
                              d: DomainID, g: GroupID, approved: int, later: int)
    requires Count(s, d, g) < 65534
  {
    && polled.Ok? && polled.value.state == Registered && polled.value.result.Some?
    && var addr, token := polled.value.result.value.address, polled.value.result.value.token;
       && addr == EndpointAddr(d, g, Count(s, d, g) + 1, req.roleFlags) && addr.ToSlot() !in s.endpoints
       && var (s4, activated) := Activate(cfg, s3, addr, token, later);
          && (activated.Ok? <==> later <= approved + cfg.tokenTTL)
          && var active := RegisteredEndpoint(addr, req.publicKey, Active, token, req.fingerprint);
             (activated.Ok? ==> s4.endpoints == s.endpoints[addr.ToSlot() := active])
  }

  lemma AdmittedActivates(cfg: Config, s: State, s2: State, s3: State, req: EnrollRequest, rid: string, poll: Bytes,
                          d: DomainID, g: GroupID, approved: int, later: int)
    requires TokensRoundTrip(cfg) && rid in s2.pending && s2.endpoints == s.endpoints && Count(s, d, g) < 65534
    requires var pe := s2.pending[rid];
      pe.publicKey == req.publicKey && pe.fingerprint == req.fingerprint && pe.roleFlags == req.roleFlags
    requires Admitted(cfg, s2, (s3, Poll(cfg, s3, rid, poll)), s2.pending[rid], d, g, Count(s, d, g) + 1, approved)
    ensures ApprovedFor(cfg, s, s3, req, Poll(cfg, s3, rid, poll), d, g, approved, later)
  {
    var id := Count(s, d, g) + 1;
    var claims := TokenClaims(id, d, g, req.roleFlags, req.publicKey, req.fingerprint, approved,
                              approved + cfg.tokenTTL, ISSUER);
    var addr := EndpointAddr(d, g, id, req.roleFlags);
    var stored := RegisteredEndpoint(addr, req.publicKey, Registered, cfg.seal(claims), req.fingerprint);
    ActivateStored(cfg, s, s3, addr, stored, claims, later);
  }
}
