/**
 The enrollment broker as a pure state machine (swarm/registrar.go). Every operation is a function from
 a state to the next state and the reply; class Registrar refines these functions.
 */
module Broker {
  import opened Common
  import opened SwarmTypes
  import opened Paseto
  import Alloc = IDAllocator

  datatype EnrollRequest = EnrollRequest(publicKey: Bytes, fingerprint: string, roleFlags: bv8)

  datatype EnrollResponse = EnrollResponse(requestID: string, challenge: Bytes)

  datatype EnrollResult = EnrollResult(address: EndpointAddr, token: string)

  datatype EnrollStatus = EnrollStatus(state: LifecycleState, result: Option<EnrollResult>)

  /** The broker's record of one enrollment; address and token mean something once Registered. */
  datatype PendingEnroll = PendingEnroll(
    requestID: string,
    publicKey: Bytes,
    fingerprint: string,
    roleFlags: bv8,
    challenge: Bytes,
    state: LifecycleState,
    address: EndpointAddr,
    token: string)

  datatype AddrMapping = AddrMapping(domain: DomainID, group: GroupID)

  datatype RegisteredEndpoint = RegisteredEndpoint(
    addr: EndpointAddr,
    publicKey: Bytes,
    state: LifecycleState,
    token: string,
    fingerprint: string)

  datatype DirectRoute = DirectRoute(observedAddr: string, proto: string)

  datatype ReachabilityInfo = ReachabilityInfo(
    addr: EndpointAddr,
    direct: Option<DirectRoute>,
    relay: Option<EndpointAddr>)

  datatype PunchRequest = PunchRequest(peerAddr: EndpointAddr, observedAddr: string, proto: string)

  /** What an Active endpoint is told about itself and the relays. */
  datatype RegistrationInfo = RegistrationInfo(id: EndpointID, token: string, registrarKey: Bytes,
                                               relays: seq<EndpointAddr>)

  datatype GroupKey = GroupKey(domain: DomainID, group: GroupID)

  /** The registrar's six tables, plus the history of every claim set it has ever signed. */
  datatype State = State(
    endpoints: map<Slot, RegisteredEndpoint>,
    pending: map<string, PendingEnroll>,
    byFingerprint: map<string, string>,
    preApproved: map<string, AddrMapping>,
    nextID: map<GroupKey, EndpointID>,
    reachability: map<string, ReachabilityInfo>,
    issued: set<TokenClaims>)

  /** The token functions a broker is built on; PasetoConfig instantiates them. */
  datatype Config = Config(
    seal: TokenClaims -> string,
    open: (string, int) -> Result<TokenClaims, TokenError>,
    verify: (Bytes, Bytes, Bytes) -> bool,
    tokenTTL: int)

  function PasetoConfig(p: Primitives, tokenTTL: int): Config {
    Config(c => SignToken(p, c), (token, now) => VerifyToken(p, token, now), p.verify, tokenTTL)
  }

  datatype Error =
    | InvalidRole
    | InvalidPublicKey
    | FingerprintRequired
    | UnknownRequest
    | ChallengeFailed
    | PollSignatureInvalid
    | EmptyFingerprint
    | ReservedDomain
    | WrongState(state: LifecycleState)
    | CapacityReached
    | NoAvailableID
    | BadToken(cause: TokenError)
    | TokenMismatch
    | EndpointNotFound
    | ClientNotObserved
    | AgentNotObserved
    | ClientNotActive
    | AgentNotActive

  const PUBLIC_KEY_SIZE := 32
  const ISSUER := "gole-swarm-registrar"
  const NO_ADDR := EndpointAddr(0, 0, 0, 0)
  const INIT := State(map[], map[], map[], map[], map[], map[], {})

  /** The IDs stored in one group. */
  ghost function GroupIDs(endpoints: map<Slot, RegisteredEndpoint>, d: DomainID, g: GroupID): (ids: set<EndpointID>)
    ensures forall id: EndpointID :: id in ids <==> Slot(d, g, id) in endpoints
  {
    var ids := set s | s in endpoints && s.domain == d && s.group == g :: s.id;
    assert forall id: EndpointID :: Slot(d, g, id) in endpoints ==> Slot(d, g, id).id in ids;
    ids
  }

  ghost predicate LiveWith(endpoints: map<Slot, RegisteredEndpoint>, fp: string, s: Slot) {
    s in endpoints && endpoints[s].fingerprint == fp && endpoints[s].state != Revoked
  }

  /** Some non-revoked endpoint with this fingerprint. */
  ghost function FindByFingerprint(endpoints: map<Slot, RegisteredEndpoint>, fp: string): Option<Slot> {
    if fp != "" && exists s :: LiveWith(endpoints, fp, s) then
      var s :| LiveWith(endpoints, fp, s);
      Some(s)
    else None
  }

  function StatusFor(pe: PendingEnroll): EnrollStatus {
    EnrollStatus(pe.state, if pe.state == Registered then Some(EnrollResult(pe.address, pe.token)) else None)
  }

  function ClaimsFor(cfg: Config, pe: PendingEnroll, d: DomainID, g: GroupID, id: EndpointID, now: int): TokenClaims {
    TokenClaims(id, d, g, pe.roleFlags, pe.publicKey, pe.fingerprint, now, now + cfg.tokenTTL, ISSUER)
  }

  /** Stores the endpoint and its token, and completes the record. */
  function Admit(cfg: Config, s: State, rid: string, d: DomainID, g: GroupID, id: EndpointID, now: int): State
    requires rid in s.pending
  {
    var pe := s.pending[rid];
    var addr := EndpointAddr(d, g, id, pe.roleFlags);
    var claims := ClaimsFor(cfg, pe, d, g, id, now);
    var token := cfg.seal(claims);
    s.(endpoints := s.endpoints[Slot(d, g, id) :=
         RegisteredEndpoint(addr, pe.publicKey, Registered, token, pe.fingerprint)],
       pending := s.pending[rid := pe.(address := addr, token := token, state := Registered)],
       nextID := s.nextID[GroupKey(d, g) := Alloc.NextHint(id)],
       issued := s.issued + {claims})
  }

  function HintFor(s: State, d: DomainID, g: GroupID): EndpointID {
    var k := GroupKey(d, g);
    Alloc.StartOf(if k in s.nextID then s.nextID[k] else 0)
  }

  /** An error leaves the state as it was. */
  ghost function RegisterApproved(cfg: Config, s: State, rid: string, d: DomainID, g: GroupID, now: int)
    : (r: Result<State, Error>)
    requires rid in s.pending
    ensures r.Ok? ==> rid in r.value.pending
  {
    var pe := s.pending[rid];
    match FindByFingerprint(s.endpoints, pe.fingerprint)
    case Some(slot) =>
      var ep := s.endpoints[slot];
      Ok(s.(pending := s.pending[rid := pe.(address := ep.addr, token := ep.token, state := Registered)]))
    case None => RegisterNew(cfg, s, rid, d, g, now)
  }

  ghost function RegisterNew(cfg: Config, s: State, rid: string, d: DomainID, g: GroupID, now: int)
    : (r: Result<State, Error>)
    requires rid in s.pending
    ensures r.Ok? ==> rid in r.value.pending
  {
    match ChooseID(s, d, g)
    case Err(e) => Err(e)
    case Ok(id) => Ok(Admit(cfg, s, rid, d, g, id, now))
  }

  ghost function ChooseID(s: State, d: DomainID, g: GroupID): Result<EndpointID, Error> {
    var ids := GroupIDs(s.endpoints, d, g);
    if |ids| >= Alloc.MAX_ENDPOINTS then Err(CapacityReached)
    else
      match Alloc.Scan(ids, HintFor(s, d, g), 0)
      case None => Err(NoAvailableID)
      case Some(id) => Ok(id)
  }

  function AddRecord(s: State, pe: PendingEnroll): State {
    s.(pending := s.pending[pe.requestID := pe],
       byFingerprint :=
         if pe.fingerprint != "" then s.byFingerprint[pe.fingerprint := pe.requestID] else s.byFingerprint)
  }

  /** Phase 1. `rid` and `nonce` are the random values the broker draws. */
  function Enroll(s: State, req: EnrollRequest, rid: string, nonce: Bytes): (State, Result<EnrollResponse, Error>) {
    var role := RoleOf(req.roleFlags);
    if !ValidRole(role) then (s, Err(InvalidRole))
    else if |req.publicKey| != PUBLIC_KEY_SIZE then (s, Err(InvalidPublicKey))
    else if role != ROLE_RELAY && req.fingerprint == "" then (s, Err(FingerprintRequired))
    else if req.fingerprint != "" && req.fingerprint in s.byFingerprint
        && s.byFingerprint[req.fingerprint] in s.pending then
      var existing := s.pending[s.byFingerprint[req.fingerprint]];
      (s, Ok(EnrollResponse(existing.requestID, existing.challenge)))
    else
      var pe := PendingEnroll(rid, req.publicKey, req.fingerprint, req.roleFlags, nonce, ChallengeIssued, NO_ADDR, "");
      (AddRecord(s, pe), Ok(EnrollResponse(rid, nonce)))
  }

  function Drop(s: State, rid: string): State
    requires rid in s.pending
  {
    var fp := s.pending[rid].fingerprint;
    s.(pending := s.pending - {rid},
       byFingerprint := if fp != "" then s.byFingerprint - {fp} else s.byFingerprint)
  }

  function SetRecordState(s: State, rid: string, st: LifecycleState): State
    requires rid in s.pending
  {
    s.(pending := s.pending[rid := s.pending[rid].(state := st)])
  }

  ghost function RegisterThenReport(cfg: Config, s: State, rid: string, d: DomainID, g: GroupID, now: int)
    : (State, Result<EnrollStatus, Error>)
    requires rid in s.pending
  {
    match RegisterApproved(cfg, s, rid, d, g, now)
    case Ok(s') => (s', Ok(StatusFor(s'.pending[rid])))
    case Err(e) => (s, Err(e))
  }

  /** Phase 2. */
  ghost function Confirm(cfg: Config, s: State, rid: string, signature: Bytes, now: int)
    : (State, Result<EnrollStatus, Error>)
  {
    if rid !in s.pending then (s, Err(UnknownRequest))
    else
      var pe := s.pending[rid];
      if pe.state != ChallengeIssued then (s, Ok(StatusFor(pe)))
      else if !cfg.verify(pe.publicKey, pe.challenge, signature) then (Drop(s, rid), Err(ChallengeFailed))
      else if RoleOf(pe.roleFlags) == ROLE_RELAY then RegisterThenReport(cfg, s, rid, RELAY_DOMAIN, RELAY_GROUP, now)
      else if pe.fingerprint in s.preApproved then
        var m := s.preApproved[pe.fingerprint];
        RegisterThenReport(cfg, s, rid, m.domain, m.group, now)
      else
        (SetRecordState(s, rid, Pending), Ok(StatusFor(pe.(state := Pending))))
  }

  function PollMessage(rid: string): Bytes {
    ToBytes(rid + "|poll")
  }

  /** Phase 3. */
  function Poll(cfg: Config, s: State, rid: string, signature: Bytes): Result<EnrollStatus, Error> {
    if rid !in s.pending then Err(UnknownRequest)
    else if !cfg.verify(s.pending[rid].publicKey, PollMessage(rid), signature) then Err(PollSignatureInvalid)
    else Ok(StatusFor(s.pending[rid]))
  }

  function PreApprove(s: State, fp: string, d: DomainID, g: GroupID): (State, Result<(), Error>) {
    if fp == "" then (s, Err(EmptyFingerprint))
    else if d == RELAY_DOMAIN then (s, Err(ReservedDomain))
    else (s.(preApproved := s.preApproved[fp := AddrMapping(d, g)]), Ok(()))
  }

  ghost function Approve(cfg: Config, s: State, rid: string, d: DomainID, g: GroupID, now: int)
    : (State, Result<(), Error>)
  {
    if rid !in s.pending then (s, Err(UnknownRequest))
    else if s.pending[rid].state != Pending then (s, Err(WrongState(s.pending[rid].state)))
    else if d == RELAY_DOMAIN then (s, Err(ReservedDomain))
    else
      match RegisterApproved(cfg, s, rid, d, g, now)
      case Ok(s') => (s', Ok(()))
      case Err(e) => (s, Err(e))
  }

  function Deny(s: State, rid: string): (State, Result<(), Error>) {
    if rid !in s.pending then (s, Err(UnknownRequest))
    else
      var st := s.pending[rid].state;
      if st != Pending && st != ChallengeIssued then (s, Err(WrongState(st)))
      else (SetRecordState(s, rid, Denied), Ok(()))
  }

  /** Token claims name the same slot as an address. */
  predicate ClaimsAt(c: TokenClaims, addr: EndpointAddr) {
    c.ToSlot() == addr.ToSlot()
  }

  function SetEndpointState(s: State, slot: Slot, st: LifecycleState): State
    requires slot in s.endpoints
  {
    s.(endpoints := s.endpoints[slot := s.endpoints[slot].(state := st)])
  }

  function Activate(cfg: Config, s: State, addr: EndpointAddr, token: string, now: int): (State, Result<(), Error>) {
    match cfg.open(token, now)
    case Err(e) => (s, Err(BadToken(e)))
    case Ok(claims) =>
      var slot := addr.ToSlot();
      if !ClaimsAt(claims, addr) || claims.roleFlags != addr.roleFlags then (s, Err(TokenMismatch))
      else if slot !in s.endpoints then (s, Err(EndpointNotFound))
      else if s.endpoints[slot].state != Registered then (s, Err(WrongState(s.endpoints[slot].state)))
      else (SetEndpointState(s, slot, Active), Ok(()))
  }

  function Revoke(s: State, addr: EndpointAddr): (State, Result<(), Error>) {
    var slot := addr.ToSlot();
    if slot !in s.endpoints then (s, Err(EndpointNotFound))
    else (SetEndpointState(s, slot, Revoked).(reachability := s.reachability - {addr.AddrKey()}), Ok(()))
  }

  function InfoFor(s: State, addr: EndpointAddr): ReachabilityInfo {
    var key := addr.AddrKey();
    if key in s.reachability then s.reachability[key] else ReachabilityInfo(addr, None, None)
  }

  function Observe(s: State, addr: EndpointAddr, observed: string, proto: string): (State, Result<(), Error>) {
    var slot := addr.ToSlot();
    if slot !in s.endpoints then (s, Err(EndpointNotFound))
    else if s.endpoints[slot].state != Active then (s, Err(WrongState(s.endpoints[slot].state)))
    else
      var info := InfoFor(s, addr).(direct := Some(DirectRoute(observed, proto)));
      (s.(reachability := s.reachability[addr.AddrKey() := info]), Ok(()))
  }

  function SetRelayRoute(cfg: Config, s: State, addr: EndpointAddr, token: string, relayAddr: EndpointAddr, now: int)
    : (State, Result<(), Error>)
  {
    match cfg.open(token, now)
    case Err(e) => (s, Err(BadToken(e)))
    case Ok(claims) =>
      var slot := addr.ToSlot();
      if !ClaimsAt(claims, addr) then (s, Err(TokenMismatch))
      else if slot !in s.endpoints then (s, Err(EndpointNotFound))
      else if s.endpoints[slot].state != Active then (s, Err(WrongState(s.endpoints[slot].state)))
      else
        var info := InfoFor(s, addr).(relay := Some(relayAddr));
        (s.(reachability := s.reachability[addr.AddrKey() := info]), Ok(()))
  }

  function ClearReachability(s: State, addr: EndpointAddr): State {
    s.(reachability := s.reachability - {addr.AddrKey()})
  }

  predicate ActiveAt(s: State, slot: Slot) {
    slot in s.endpoints && s.endpoints[slot].state == Active
  }

  function LookupReachability(s: State, target: EndpointAddr): Option<ReachabilityInfo> {
    var key := target.AddrKey();
    if key !in s.reachability then None
    else if !ActiveAt(s, s.reachability[key].addr.ToSlot()) then None
    else Some(s.reachability[key])
  }

  function DirectRouteOf(s: State, addr: EndpointAddr): Option<DirectRoute> {
    if addr.AddrKey() in s.reachability then s.reachability[addr.AddrKey()].direct else None
  }

  function RequestPunch(cfg: Config, s: State, client: EndpointAddr, agent: EndpointAddr, token: string, now: int)
    : Result<(PunchRequest, PunchRequest), Error>
  {
    match cfg.open(token, now)
    case Err(e) => Err(BadToken(e))
    case Ok(claims) =>
      if !ClaimsAt(claims, client) then Err(TokenMismatch)
      else
        match (DirectRouteOf(s, client), DirectRouteOf(s, agent))
        case (None, _) => Err(ClientNotObserved)
        case (Some(_), None) => Err(AgentNotObserved)
        case (Some(c), Some(a)) =>
          if !ActiveAt(s, client.ToSlot()) then Err(ClientNotActive)
          else if !ActiveAt(s, agent.ToSlot()) then Err(AgentNotActive)
          else Ok((PunchRequest(agent, a.observedAddr, a.proto), PunchRequest(client, c.observedAddr, c.proto)))
  }

  /** Why an endpoint is not given its registration info, if it is not. */
  function InfoRefusal(s: State, addr: EndpointAddr): Option<Error> {
    var slot := addr.ToSlot();
    if slot !in s.endpoints then Some(EndpointNotFound)
    else if s.endpoints[slot].state != Active then Some(WrongState(s.endpoints[slot].state))
    else None
  }

  /** The slots ListRelays scans and keeps. */
  ghost function RelaySlots(s: State): set<Slot> {
    set slot | slot in s.endpoints && slot.domain == RELAY_DOMAIN && slot.group == RELAY_GROUP
        && s.endpoints[slot].state == Active
  }

  // ---------- runs ----------

  datatype Op =
    | OpEnroll(req: EnrollRequest, rid: string, nonce: Bytes)
    | OpConfirm(rid: string, signature: Bytes, now: int)
    | OpPreApprove(fp: string, domain: DomainID, group: GroupID)
    | OpApprove(rid: string, domain: DomainID, group: GroupID, now: int)
    | OpDeny(rid: string)
    | OpActivate(addr: EndpointAddr, token: string, now: int)
    | OpRevoke(addr: EndpointAddr)
    | OpObserve(addr: EndpointAddr, observed: string, proto: string)
    | OpSetRelayRoute(addr: EndpointAddr, token: string, relayAddr: EndpointAddr, now: int)
    | OpClear(addr: EndpointAddr)

  ghost function Next(cfg: Config, s: State, op: Op): State {
    match op
    case OpEnroll(req, rid, nonce) => Enroll(s, req, rid, nonce).0
    case OpConfirm(rid, signature, now) => Confirm(cfg, s, rid, signature, now).0
    case OpPreApprove(fp, d, g) => PreApprove(s, fp, d, g).0
    case OpApprove(rid, d, g, now) => Approve(cfg, s, rid, d, g, now).0
    case OpDeny(rid) => Deny(s, rid).0
    case OpActivate(addr, token, now) => Activate(cfg, s, addr, token, now).0
    case OpRevoke(addr) => Revoke(s, addr).0
    case OpObserve(addr, observed, proto) => Observe(s, addr, observed, proto).0
    case OpSetRelayRoute(addr, token, relayAddr, now) => SetRelayRoute(cfg, s, addr, token, relayAddr, now).0
    case OpClear(addr) => ClearReachability(s, addr)
  }

  /** The broker draws request IDs that no current record uses. */
  predicate FreshID(s: State, op: Op) {
    op.OpEnroll? ==> op.rid !in s.pending
  }

  ghost function Run(cfg: Config, s: State, ops: seq<Op>): State {
    if ops == [] then s else Next(cfg, Run(cfg, s, ops[..|ops| - 1]), ops[|ops| - 1])
  }

  ghost predicate FreshRun(cfg: Config, s: State, ops: seq<Op>) {
    forall i {:trigger ops[i]} :: 0 <= i < |ops| ==> FreshID(Run(cfg, s, ops[..i]), ops[i])
  }
}
