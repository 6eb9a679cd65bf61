/** Enrolling endpoints beside the broker (swarm/endpoint.go): client state machine and agreement. */
module Enrollment {
  import opened Common
  import opened SwarmTypes
  import opened BrokerInvariant
  import opened BrokerTheorems
  import BrokerAnswers
  import Broker
  import Alloc = IDAllocator
  import Registration

  datatype Client = Client(
    publicKey: Bytes,
    fingerprint: string,
    state: LifecycleState,
    requestID: string,
    addr: Option<EndpointAddr>,
    token: string)

  datatype ClientError =
    | WrongClientState(state: LifecycleState)
    | NoActiveEnrollment
    | NotRegistered
    | BrokerRefused(cause: Broker.Error)

  function NewClient(publicKey: Bytes): Client {
    Client(publicKey, "", Unregistered, "", None, "")
  }

  function ApplyStatus(c: Client, status: Broker.EnrollStatus): Client {
    match status.state
    case Registered =>
      (match status.result
       case Some(r) => c.(addr := Some(r.address), token := r.token, state := Registered)
       case None => c.(state := Registered))
    case Pending => c.(state := Pending)
    case Denied => c.(state := Denied)
    case _ => c
  }

  function ClientOnEnroll(s: Broker.State, c: Client, fp: string, roleFlags: bv8, rid: string, nonce: Bytes)
    : (Broker.State, Client, Result<Broker.EnrollResponse, ClientError>)
  {
    if c.state != Unregistered then (s, c, Err(WrongClientState(c.state)))
    else
      var (s', r) := Broker.Enroll(s, Broker.EnrollRequest(c.publicKey, fp, roleFlags), rid, nonce);
      match r
      case Err(e) => (s', c.(fingerprint := fp, state := Unregistered), Err(BrokerRefused(e)))
      case Ok(resp) => (s', c.(fingerprint := fp, requestID := resp.requestID, state := ChallengeIssued), Ok(resp))
  }

  ghost function ClientOnConfirm(cfg: Broker.Config, s: Broker.State, c: Client, signature: Bytes, now: int)
    : (Broker.State, Client, Result<Broker.EnrollStatus, ClientError>)
  {
    if c.state != ChallengeIssued then (s, c, Err(WrongClientState(c.state)))
    else
      var (s', r) := Broker.Confirm(cfg, s, c.requestID, signature, now);
      match r
      case Err(e) => (s', c.(state := Unregistered), Err(BrokerRefused(e)))
      case Ok(status) => (s', ApplyStatus(c.(state := ChallengeResponse), status), Ok(status))
  }

  function ClientOnPoll(cfg: Broker.Config, s: Broker.State, c: Client, signature: Bytes)
    : (Client, Result<Broker.EnrollStatus, ClientError>)
  {
    if c.requestID == "" then (c, Err(NoActiveEnrollment))
    else
      match Broker.Poll(cfg, s, c.requestID, signature)
      case Err(e) => (c, Err(BrokerRefused(e)))
      case Ok(status) => (ApplyStatus(c, status), Ok(status))
  }

  function ClientOnActivate(cfg: Broker.Config, s: Broker.State, c: Client, now: int)
    : (Broker.State, Client, Result<(), ClientError>)
  {
    if c.state != Registered then (s, c, Err(WrongClientState(c.state)))
    else if c.addr.None? then (s, c, Err(NotRegistered))
    else
      var (s', r) := Broker.Activate(cfg, s, c.addr.value, c.token, now);
      match r
      case Err(e) => (s', c, Err(BrokerRefused(e)))
      case Ok(_) => (s', c.(state := Active), Ok(()))
  }

  // ---------- many clients, one broker ----------

  datatype System = System(broker: Broker.State, clients: seq<Client>)

  datatype Event =
    | Join(publicKey: Bytes)
    | BrokerOp(op: Broker.Op)
    | ClientEnroll(i: nat, fp: string, roleFlags: bv8, rid: string, nonce: Bytes)
    | ClientConfirm(i: nat, signature: Bytes, now: int)
    | ClientPoll(i: nat, signature: Bytes)
    | ClientActivate(i: nat, now: int)

  predicate Possible(sys: System, e: Event) {
    match e
    case Join(_) => true
    case BrokerOp(op) => Broker.FreshID(sys.broker, op)
    case ClientEnroll(i, fp, flags, rid, nonce) => i < |sys.clients| && rid !in sys.broker.pending
    case _ => e.i < |sys.clients|
  }

  ghost function After(cfg: Broker.Config, sys: System, e: Event): System
    requires Possible(sys, e)
  {
    match e
    case Join(pk) => sys.(clients := sys.clients + [NewClient(pk)])
    case BrokerOp(op) => sys.(broker := Broker.Next(cfg, sys.broker, op))
    case ClientEnroll(i, fp, flags, rid, nonce) =>
      var r := ClientOnEnroll(sys.broker, sys.clients[i], fp, flags, rid, nonce);
      System(r.0, sys.clients[i := r.1])
    case ClientConfirm(i, signature, now) =>
      var r := ClientOnConfirm(cfg, sys.broker, sys.clients[i], signature, now);
      System(r.0, sys.clients[i := r.1])
    case ClientPoll(i, signature) =>
      sys.(clients := sys.clients[i := ClientOnPoll(cfg, sys.broker, sys.clients[i], signature).0])
    case ClientActivate(i, now) =>
      var r := ClientOnActivate(cfg, sys.broker, sys.clients[i], now);
      System(r.0, sys.clients[i := r.1])
  }

  ghost predicate Reachable(cfg: Broker.Config, events: seq<Event>, sys: System)
    decreases |events|
  {
    if events == [] then sys == System(Broker.INIT, [])
    else
      var n := |events| - 1;
      exists before :: Reachable(cfg, events[..n], before) && Possible(before, events[n])
          && sys == After(cfg, before, events[n])
  }

  /** A Registered or Active client holds exactly its request record's address and token. */
  predicate Agrees(s: Broker.State, c: Client) {
    c.state == Registered || c.state == Active ==>
      && c.requestID in s.pending
      && var pe := s.pending[c.requestID];
         && pe.state == Registered && c.addr == Some(pe.address) && c.token == pe.token
         && (c.state == Active ==>
              pe.address.ToSlot() in s.endpoints
              && (s.endpoints[pe.address.ToSlot()].state == Active
                   || s.endpoints[pe.address.ToSlot()].state == Revoked))
  }

  ghost predicate SystemInv(cfg: Broker.Config, sys: System) {
    Inv(cfg, sys.broker) && forall i :: 0 <= i < |sys.clients| ==> Agrees(sys.broker, sys.clients[i])
  }

  /** The broker operation an event performs, if any. */
  function OpOf(sys: System, e: Event): Option<Broker.Op>
    requires Possible(sys, e)
  {
    match e
    case BrokerOp(op) => Some(op)
    case ClientEnroll(i, fp, flags, rid, nonce) =>
      if sys.clients[i].state == Unregistered then
        Some(Broker.OpEnroll(Broker.EnrollRequest(sys.clients[i].publicKey, fp, flags), rid, nonce))
      else None
    case ClientConfirm(i, signature, now) =>
      if sys.clients[i].state == ChallengeIssued then
        Some(Broker.OpConfirm(sys.clients[i].requestID, signature, now))
      else None
    case ClientActivate(i, now) =>
      if sys.clients[i].state == Registered && sys.clients[i].addr.Some?
      then Some(Broker.OpActivate(sys.clients[i].addr.value, sys.clients[i].token, now)) else None
    case _ => None
  }

  lemma EventIsBrokerOp(cfg: Broker.Config, sys: System, e: Event)
    requires Possible(sys, e)
    ensures After(cfg, sys, e).broker
            == match OpOf(sys, e) { case None => sys.broker case Some(op) => Broker.Next(cfg, sys.broker, op) }
    ensures OpOf(sys, e).Some? ==> Broker.FreshID(sys.broker, OpOf(sys, e).value)
  {
  }

  /** What the broker does next never upsets a client's agreement: Registered records are frozen. */
  lemma AgreementStable(cfg: Broker.Config, s: Broker.State, op: Broker.Op, c: Client)
    requires Inv(cfg, s) && Broker.FreshID(s, op) && Agrees(s, c)
    ensures Agrees(Broker.Next(cfg, s, op), c)
  {
    StepFollowsLifecycle(cfg, s, op);
    if c.state == Registered || c.state == Active {
      assert !FailedChallenge(cfg, s, op, c.requestID);
      assert RecordKept(s, Broker.Next(cfg, s, op), c.requestID);
    }
  }

  lemma ActorAgrees(cfg: Broker.Config, sys: System, e: Event)
    requires SystemInv(cfg, sys) && Possible(sys, e) && !e.Join? && !e.BrokerOp?
    ensures Agrees(After(cfg, sys, e).broker, After(cfg, sys, e).clients[e.i])
  {
    var c := sys.clients[e.i];
    assert Agrees(sys.broker, c);
    match e
    case ClientEnroll(i, fp, flags, rid, nonce) => EnrollAgrees(sys.broker, c, fp, flags, rid, nonce);
    case ClientConfirm(i, signature, now) => ConfirmAgrees(cfg, sys.broker, c, signature, now);
    case ClientPoll(i, signature) => PollAgrees(cfg, sys.broker, c, signature);
    case ClientActivate(i, now) => ActivateAgrees(cfg, sys.broker, c, now);
  }

  lemma EnrollAgrees(s: Broker.State, c: Client, fp: string, roleFlags: bv8, rid: string, nonce: Bytes)
    requires Agrees(s, c) && rid !in s.pending
    ensures Agrees(ClientOnEnroll(s, c, fp, roleFlags, rid, nonce).0, ClientOnEnroll(s, c, fp, roleFlags, rid, nonce).1)
  {
  }

  lemma PollAgrees(cfg: Broker.Config, s: Broker.State, c: Client, signature: Bytes)
    requires Inv(cfg, s) && Agrees(s, c)
    ensures Agrees(s, ClientOnPoll(cfg, s, c, signature).0)
  {
  }

  lemma ConfirmAgrees(cfg: Broker.Config, s: Broker.State, c: Client, signature: Bytes, now: int)
    requires Inv(cfg, s) && Agrees(s, c)
    ensures Agrees(ClientOnConfirm(cfg, s, c, signature, now).0, ClientOnConfirm(cfg, s, c, signature, now).1)
  {
    if c.state == ChallengeIssued {
      StatusMatchesRecord(cfg, s, c.requestID, signature, now);
      var (s', r) := Broker.Confirm(cfg, s, c.requestID, signature, now);
      if r.Ok? {
        ApplyAgrees(s', c.(state := ChallengeResponse), r.value);
      }
    }
  }

  /** A client that applies its own record's status agrees with that record. */
  lemma ApplyAgrees(s: Broker.State, c: Client, status: Broker.EnrollStatus)
    requires c.requestID in s.pending && status == Broker.StatusFor(s.pending[c.requestID])
    requires c.state == ChallengeResponse && status.state != Active
    ensures Agrees(s, ApplyStatus(c, status))
  {
  }

  /** A status reporting Registered carries the record's own address and token. */
  lemma StatusMatchesRecord(cfg: Broker.Config, s: Broker.State, rid: string, signature: Bytes, now: int)
    requires Inv(cfg, s)
    ensures var (s', r) := Broker.Confirm(cfg, s, rid, signature, now);
      r.Ok? ==> rid in s'.pending && r.value == Broker.StatusFor(s'.pending[rid])
  {
  }

  lemma ActivateAgrees(cfg: Broker.Config, s: Broker.State, c: Client, now: int)
    requires Inv(cfg, s) && Agrees(s, c)
    ensures Agrees(ClientOnActivate(cfg, s, c, now).0, ClientOnActivate(cfg, s, c, now).1)
  {
    if c.state == Registered {
      AgreementStable(cfg, s, Broker.OpActivate(c.addr.value, c.token, now), c);
    }
  }

  lemma EventKeeps(cfg: Broker.Config, sys: System, e: Event)
    requires SystemInv(cfg, sys) && Possible(sys, e)
    ensures SystemInv(cfg, After(cfg, sys, e))
  {
    var sys' := After(cfg, sys, e);
    EventIsBrokerOp(cfg, sys, e);
    var op := OpOf(sys, e);
    if op.Some? {
      NextKeeps(cfg, sys.broker, op.value);
    }
    forall i | 0 <= i < |sys'.clients| ensures Agrees(sys'.broker, sys'.clients[i]) {
      if i == |sys.clients| {
      } else if !e.Join? && !e.BrokerOp? && i == e.i {
        ActorAgrees(cfg, sys, e);
      } else {
        assert Agrees(sys.broker, sys.clients[i]);
        if op.Some? {
          AgreementStable(cfg, sys.broker, op.value, sys.clients[i]);
        }
      }
    }
  }

  lemma {:induction false} ReachableSystemInv(cfg: Broker.Config, events: seq<Event>, sys: System)
    requires Reachable(cfg, events, sys)
    ensures SystemInv(cfg, sys)
    decreases |events|
  {
    if events == [] {
      InitInv(cfg);
    } else {
      var n := |events| - 1;
      var before :| Reachable(cfg, events[..n], before) && Possible(before, events[n])
          && sys == After(cfg, before, events[n]);
      ReachableSystemInv(cfg, events[..n], before);
      EventKeeps(cfg, before, events[n]);
    }
  }

  /**
   However any number of clients, admins and other callers interleave, a client that believes itself
   Registered or Active holds the address and token of its own request record, and that address is a stored
   endpoint with this token; an Active client's endpoint has been activated.
   */
  lemma ClientsAgreeWithBroker(cfg: Broker.Config, events: seq<Event>, sys: System, i: nat)
    requires Reachable(cfg, events, sys) && i < |sys.clients|
    requires sys.clients[i].state == Registered || sys.clients[i].state == Active
    ensures var c, s := sys.clients[i], sys.broker;
      && c.requestID in s.pending && s.pending[c.requestID].state == Registered
      && c.addr == Some(s.pending[c.requestID].address) && c.token == s.pending[c.requestID].token
      && var slot := s.pending[c.requestID].address.ToSlot();
         && slot in s.endpoints && s.endpoints[slot].addr == c.addr.value && s.endpoints[slot].token == c.token
         && (c.state == Active ==> s.endpoints[slot].state != Registered)
  {
    ReachableSystemInv(cfg, events, sys);
    assert Agrees(sys.broker, sys.clients[i]);
    var c := sys.clients[i];
    assert Owns(sys.broker, c.requestID, sys.broker.pending[c.requestID].address.ToSlot());
  }

  // ---------- one client's way, end to end ----------

  /** The client holds the group's next address, and activation makes it and its endpoint Active until expiry. */
  ghost predicate HoldsAndActivates(cfg: Broker.Config, s: Broker.State, s2: Broker.State, c: Client,
                                    addr: EndpointAddr, later: int, expiry: int)
  {
    && c.state == Registered && c.addr == Some(addr) && addr.ToSlot() !in s.endpoints
    && var (s3, c3, r) := ClientOnActivate(cfg, s2, c, later);
       && (r.Ok? <==> later <= expiry)
       && c3 == c.(state := if r.Ok? then Active else Registered)
       && (r.Ok? ==>
            var active := Broker.RegisteredEndpoint(addr, c.publicKey, Active, c.token, c.fingerprint);
            s3.endpoints == s.endpoints[addr.ToSlot() := active])
  }

  lemma ActivatesUntilExpiry(cfg: Broker.Config, s: Broker.State, s2: Broker.State, c: Client, addr: EndpointAddr,
                             later: int, expiry: int)
    requires c.state == Registered && c.addr == Some(addr) && addr.ToSlot() !in s.endpoints
    requires var (s3, r) := Broker.Activate(cfg, s2, addr, c.token, later);
      && (r.Ok? <==> later <= expiry)
      && (r.Ok? ==>
           s3.endpoints == s.endpoints[addr.ToSlot() :=
             Broker.RegisteredEndpoint(addr, c.publicKey, Active, c.token, c.fingerprint)])
    ensures HoldsAndActivates(cfg, s, s2, c, addr, later, expiry)
  {
  }

  /** The broker takes the client's request as new. */
  ghost predicate NewRequest(s: Broker.State, c: Client, req: Broker.EnrollRequest, rid: string, nonce: Bytes) {
    && c.state == Unregistered && req.publicKey == c.publicKey && rid !in s.pending
    && Broker.Enroll(s, req, rid, nonce).1 == Ok(Broker.EnrollResponse(rid, nonce))
  }

  lemma EnrollsAsNew(s: Broker.State, c: Client, req: Broker.EnrollRequest, rid: string, nonce: Bytes)
    requires NewRequest(s, c, req, rid, nonce)
    ensures ClientOnEnroll(s, c, req.fingerprint, req.roleFlags, rid, nonce)
         == (Broker.Enroll(s, req, rid, nonce).0,
             c.(fingerprint := req.fingerprint, requestID := rid, state := ChallengeIssued),
             Ok(Broker.EnrollResponse(rid, nonce)))
  {
  }

  /** A relay, or an endpoint pre-approved by its fingerprint, is Registered as soon as it answers its challenge. */
  lemma ClientEnrollsUnattended(cfg: Broker.Config, s: Broker.State, c: Client, req: Broker.EnrollRequest, rid: string,
                                nonce: Bytes, signature: Bytes, d: DomainID, g: GroupID, now: int, later: int)
    requires TokensRoundTrip(cfg) && Inv(cfg, s) && NewRequest(s, c, req, rid, nonce) && AutoGroup(s, req, d, g)
    requires cfg.verify(req.publicKey, nonce, signature) && Count(s, d, g) < Alloc.MAX_ENDPOINTS
    ensures var (s1, c1, _) := ClientOnEnroll(s, c, req.fingerprint, req.roleFlags, rid, nonce);
      var (s2, c2, r2) := ClientOnConfirm(cfg, s1, c1, signature, now);
      && c2 == c.(fingerprint := req.fingerprint, requestID := rid, state := Registered, addr := c2.addr,
                  token := c2.token)
      && r2.Ok? && r2.value.state == Registered
      && HoldsAndActivates(cfg, s, s2, c2, EndpointAddr(d, g, Count(s, d, g) + 1, req.roleFlags), later,
                           now + cfg.tokenTTL)
  {
    EnrollsAsNew(s, c, req, rid, nonce);
    ZeroTouchEnrollment(cfg, s, req, rid, nonce, signature, d, g, now, later);
    var (s1, c1, _) := ClientOnEnroll(s, c, req.fingerprint, req.roleFlags, rid, nonce);
    var (s2, c2, _) := ClientOnConfirm(cfg, s1, c1, signature, now);
    var addr := EndpointAddr(d, g, Count(s, d, g) + 1, req.roleFlags);
    ActivatesUntilExpiry(cfg, s, s2, c2, addr, later, now + cfg.tokenTTL);
  }

  /** Any other endpoint becomes Pending; after an administrator's approval its poll makes it Registered. */
  lemma ClientEnrollsByApproval(cfg: Broker.Config, s: Broker.State, c: Client, req: Broker.EnrollRequest, rid: string,
                                nonce: Bytes, answer: Bytes, poll: Bytes, d: DomainID, g: GroupID, now: int,
                                approved: int, later: int)
    requires TokensRoundTrip(cfg) && Inv(cfg, s) && NewRequest(s, c, req, rid, nonce) && rid != ""
    requires req.roleFlags & 0x03 != 0x03 && req.fingerprint !in s.preApproved
    requires cfg.verify(req.publicKey, nonce, answer) && cfg.verify(req.publicKey, ToBytes(rid + "|poll"), poll)
    requires d != 0 && Count(s, d, g) < 65534
    ensures var (s1, c1, _) := ClientOnEnroll(s, c, req.fingerprint, req.roleFlags, rid, nonce);
      var (s2, c2, _) := ClientOnConfirm(cfg, s1, c1, answer, now);
      var s3 := Broker.Approve(cfg, s2, rid, d, g, approved).0;
      var (c3, r3) := ClientOnPoll(cfg, s3, c2, poll);
      && c2 == c1.(state := Pending) && ClientOnPoll(cfg, s2, c2, poll).0 == c2
      && c3 == c2.(state := Registered, addr := c3.addr, token := c3.token)
      && r3.Ok? && r3.value.state == Registered
      && HoldsAndActivates(cfg, s, s3, c3, EndpointAddr(d, g, Count(s, d, g) + 1, req.roleFlags), later,
                           approved + cfg.tokenTTL)
  {
    EnrollsAsNew(s, c, req, rid, nonce);
    BrokerAnswers.AdminEnrollment(cfg, s, req, rid, nonce, answer, poll, d, g, now, approved, later);
    var s1 := Broker.Enroll(s, req, rid, nonce).0;
    var c1 := c.(fingerprint := req.fingerprint, requestID := rid, state := ChallengeIssued);
    var (s2, waiting) := Broker.Confirm(cfg, s1, rid, answer, now);
    AnsweredWith(cfg, s1, c1, answer, now, Pending);
    var c2 := c1.(state := Pending);
    PolledWith(cfg, s2, c2, poll, Broker.EnrollStatus(Pending, None));
    var s3 := Broker.Approve(cfg, s2, rid, d, g, approved).0;
    var status := Broker.Poll(cfg, s3, rid, poll).value;
    PolledWith(cfg, s3, c2, poll, status);
    var addr := EndpointAddr(d, g, Count(s, d, g) + 1, req.roleFlags);
    var c3 := c2.(state := Registered, addr := Some(addr), token := status.result.value.token);
    ActivatesUntilExpiry(cfg, s, s3, c3, addr, later, approved + cfg.tokenTTL);
  }

  lemma AnsweredWith(cfg: Broker.Config, s: Broker.State, c: Client, answer: Bytes, now: int, st: LifecycleState)
    requires c.state == ChallengeIssued && (st == Pending || st == Denied)
    requires Broker.Confirm(cfg, s, c.requestID, answer, now).1 == Ok(Broker.EnrollStatus(st, None))
    ensures ClientOnConfirm(cfg, s, c, answer, now)
         == (Broker.Confirm(cfg, s, c.requestID, answer, now).0, c.(state := st), Ok(Broker.EnrollStatus(st, None)))
  {
  }

  lemma PolledWith(cfg: Broker.Config, s: Broker.State, c: Client, signature: Bytes, status: Broker.EnrollStatus)
    requires c.requestID != "" && Broker.Poll(cfg, s, c.requestID, signature) == Ok(status)
    ensures var (c', r) := ClientOnPoll(cfg, s, c, signature);
      && r == Ok(status)
      && (status.state == Pending ==> c' == c.(state := Pending))
      && (status.state == Registered && status.result.Some? ==>
           c' == c.(state := Registered, addr := Some(status.result.value.address), token := status.result.value.token))
  {
  }

  /**
   Refused calls: one made in the wrong state changes nothing and reaches no broker table; a refused enrollment
   or challenge sends the client back to Unregistered; a refused poll or activation leaves it as it is.
   */
  lemma RefusalsSendBack(cfg: Broker.Config, s: Broker.State, c: Client, fp: string, roleFlags: bv8, rid: string,
                         nonce: Bytes, signature: Bytes, now: int)
    ensures var (s', c', r) := ClientOnEnroll(s, c, fp, roleFlags, rid, nonce);
      && (c.state != Unregistered ==> s' == s && c' == c && r == Err(WrongClientState(c.state)))
      && (c.state == Unregistered && r.Err? ==> c' == c.(fingerprint := fp))
    ensures var (s', c', r) := ClientOnConfirm(cfg, s, c, signature, now);
      && (c.state != ChallengeIssued ==> s' == s && c' == c && r == Err(WrongClientState(c.state)))
      && (c.state == ChallengeIssued && r.Err? ==> c' == c.(state := Unregistered))
    ensures var (c', r) := ClientOnPoll(cfg, s, c, signature);
      && (r == Err(NoActiveEnrollment) <==> c.requestID == "") && (r.Err? ==> c' == c)
    ensures var (s', c', r) := ClientOnActivate(cfg, s, c, now);
      && (c.state != Registered ==> r == Err(WrongClientState(c.state)) && s' == s)
      && (c.state == Registered && c.addr.None? ==> r == Err(NotRegistered) && s' == s)
      && (r.Err? ==> c' == c)
  {
  }

  /** A denial reaches the client that polls; a status short of a decision leaves it as it was. */
  lemma PollReportsDecision(cfg: Broker.Config, s: Broker.State, c: Client, signature: Bytes)
    requires c.requestID in s.pending && c.requestID != ""
    requires cfg.verify(s.pending[c.requestID].publicKey, ToBytes(c.requestID + "|poll"), signature)
    ensures var (c', r) := ClientOnPoll(cfg, s, c, signature);
      var pe := s.pending[c.requestID];
      && r.Ok? && r.value.state == pe.state
      && (pe.state == Denied ==> c' == c.(state := Denied))
      && (pe.state == Pending ==> c' == c.(state := Pending))
      && (pe.state == Registered ==> c' == c.(state := Registered, addr := Some(pe.address), token := pe.token))
      && (pe.state == ChallengeIssued ==> c' == c)
  {
    BrokerAnswers.PollExactly(cfg, s, c.requestID, signature);
  }

  // ---------- the mutable endpoint ----------

  class Endpoint {
    const publicKey: Bytes
    const sign: Bytes -> Bytes
    var fingerprint: string
    var state: LifecycleState
    var requestID: string
    var addr: Option<EndpointAddr>
    var token: string
    var registrarKey: Bytes
    var relays: seq<EndpointAddr>

    function View(): Client
      reads this
    {
      Client(publicKey, fingerprint, state, requestID, addr, token)
    }

    constructor (publicKey: Bytes, sign: Bytes -> Bytes)
      ensures View() == NewClient(publicKey) && this.sign == sign
    {
      this.publicKey, this.sign := publicKey, sign;
      fingerprint, state, requestID, addr, token := "", Unregistered, "", None, "";
      registrarKey, relays := [], [];
    }

    method Enroll(reg: Registration.Registrar, fp: string, roleFlags: bv8, rid: string, nonce: Bytes)
      returns (r: Result<Broker.EnrollResponse, ClientError>)
      requires reg.Valid() && rid !in reg.pending
      modifies this, reg
      ensures reg.Valid() && (reg.View(), View(), r)
              == ClientOnEnroll(old(reg.View()), old(View()), fp, roleFlags, rid, nonce)
    {
      if state != Unregistered {
        return Err(WrongClientState(state));
      }
      state := Requesting;
      this.fingerprint := fp;
      var resp := reg.Enroll(Broker.EnrollRequest(publicKey, fp, roleFlags), rid, nonce);
      if resp.Err? {
        state := Unregistered;
        return Err(BrokerRefused(resp.error));
      }
      requestID := resp.value.requestID;
      state := ChallengeIssued;
      return Ok(resp.value);
    }

    method ConfirmEnrollment(reg: Registration.Registrar, challenge: Bytes, now: int)
      returns (r: Result<Broker.EnrollStatus, ClientError>)
      requires reg.Valid()
      modifies this, reg
      ensures reg.Valid() && (reg.View(), View(), r)
              == ClientOnConfirm(reg.cfg, old(reg.View()), old(View()), sign(challenge), now)
    {
      if state != ChallengeIssued {
        return Err(WrongClientState(state));
      }
      state := ChallengeResponse;
      var status := reg.ConfirmEnrollment(requestID, sign(challenge), now);
      if status.Err? {
        state := Unregistered;
        return Err(BrokerRefused(status.error));
      }
      Apply(status.value);
      return Ok(status.value);
    }

    method Poll(reg: Registration.Registrar) returns (r: Result<Broker.EnrollStatus, ClientError>)
      modifies this
      ensures (View(), r) == ClientOnPoll(reg.cfg, reg.View(), old(View()), sign(Broker.PollMessage(old(requestID))))
    {
      if requestID == "" {
        return Err(NoActiveEnrollment);
      }
      var status := reg.PollEnrollment(requestID, sign(Broker.PollMessage(requestID)));
      if status.Err? {
        return Err(BrokerRefused(status.error));
      }
      Apply(status.value);
      return Ok(status.value);
    }

    /**
     Activation up to the broker's answer. FetchInfo is the rest of the source's method: the two are separate
     because the broker's lock is released between them, so that other operations may come first.
     */
    method Activate(reg: Registration.Registrar, now: int) returns (r: Result<(), ClientError>)
      requires reg.Valid()
      modifies this`state, reg
      ensures reg.Valid() && (reg.View(), View(), r) == ClientOnActivate(reg.cfg, old(reg.View()), old(View()), now)
    {
      if state != Registered {
        return Err(WrongClientState(state));
      }
      if addr.None? {
        return Err(NotRegistered);
      }
      var done := reg.ActivateEndpoint(addr.value, token, now);
      if done.Err? {
        return Err(BrokerRefused(done.error));
      }
      state := Active;
      return Ok(());
    }

    /** If the info is refused the endpoint stays Active with the key and relays it knew. */
    method FetchInfo(reg: Registration.Registrar) returns (r: Result<(), ClientError>)
      requires reg.Valid() && addr.Some?
      modifies this`registrarKey, this`relays
      ensures match Broker.InfoRefusal(reg.View(), addr.value)
        case Some(e) => r == Err(BrokerRefused(e)) && registrarKey == old(registrarKey) && relays == old(relays)
        case None => r == Ok(()) && registrarKey == reg.registrarKey && Registration.ListsRelays(relays, reg.View())
    {
      var info := reg.FullRegistrationInfo(addr.value);
      if info.Err? {
        return Err(BrokerRefused(info.error));
      }
      assert reg.InfoFits(info.value, addr.value);
      registrarKey := info.value.registrarKey;
      relays := info.value.relays;
      return Ok(());
    }

    method Apply(status: Broker.EnrollStatus)
      modifies this
      ensures View() == ApplyStatus(old(View()), status)
    {
      match status.state {
        case Registered =>
          if status.result.Some? {
            addr := Some(status.result.value.address);
            token := status.result.value.token;
          }
          state := Registered;
        case Pending => state := Pending;
        case Denied => state := Denied;
        case _ =>
      }
    }
  }
}
