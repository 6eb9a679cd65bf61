/** The enrollment broker with its mutable tables (swarm/registrar.go). */
module Registration {
  import opened Common
  import opened SwarmTypes
  import opened Paseto
  import opened NestedTables
  import opened BrokerInvariant
  import Broker
  import Alloc = IDAllocator

  /** No fingerprint names two live endpoints. */
  ghost predicate LiveUnique(endpoints: map<Slot, Broker.RegisteredEndpoint>) {
    forall fp, s1, s2 :: fp != "" && Broker.LiveWith(endpoints, fp, s1) && Broker.LiveWith(endpoints, fp, s2) ==>
        s1 == s2
  }

  lemma InvImpliesLiveUnique(cfg: Broker.Config, s: Broker.State)
    requires Inv(cfg, s)
    ensures LiveUnique(s.endpoints)
  {
    forall fp, s1, s2 | fp != "" && Broker.LiveWith(s.endpoints, fp, s1) && Broker.LiveWith(s.endpoints, fp, s2)
        ensures s1 == s2 {
      var r1 :| Owns(s, r1, s1);
      var r2 :| Owns(s, r2, s2);
    }
  }

  ghost predicate RelayGroupOK(group: map<EndpointID, Broker.RegisteredEndpoint>) {
    forall id :: id in group ==> group[id].addr.ToSlot() == Slot(RELAY_DOMAIN, RELAY_GROUP, id)
  }

  ghost function ActiveSlots(group: map<EndpointID, Broker.RegisteredEndpoint>, ids: set<EndpointID>): set<Slot> {
    set id | id in ids && id in group && group[id].state == Active :: Slot(RELAY_DOMAIN, RELAY_GROUP, id)
  }

  ghost function SlotsOf(out: seq<EndpointAddr>): set<Slot> {
    if out == [] then {} else SlotsOf(out[..|out| - 1]) + {out[|out| - 1].ToSlot()}
  }

  lemma SlotsOfSnoc(out: seq<EndpointAddr>, a: EndpointAddr)
    ensures SlotsOf(out + [a]) == SlotsOf(out) + {a.ToSlot()}
  {
    assert (out + [a])[..|out|] == out;
  }

  /** The scan of one group's endpoints, in whatever order the map yields them. */
  method ActiveAddresses(group: map<EndpointID, Broker.RegisteredEndpoint>) returns (out: seq<EndpointAddr>)
    requires RelayGroupOK(group)
    ensures SlotsOf(out) == ActiveSlots(group, group.Keys) && |out| == |ActiveSlots(group, group.Keys)|
    ensures forall a :: a in out ==> a.endpoint in group && group[a.endpoint].addr == a
  {
    out := [];
    var ids := group.Keys;
    while ids != {}
      invariant ids <= group.Keys
      invariant Lists(group, group.Keys - ids, out)
      decreases ids
    {
      var id :| id in ids;
      ListsStep(group, group.Keys - ids, out, id);
      OneLess(group.Keys, ids, id);
      ids := ids - {id};
      if group[id].state == Active {
        out := out + [group[id].addr];
      }
    }
    assert group.Keys - {} == group.Keys;
  }

  /** The list holds the addresses of the Active endpoints among these IDs, each once. */
  ghost predicate Lists(group: map<EndpointID, Broker.RegisteredEndpoint>, done: set<EndpointID>,
                        out: seq<EndpointAddr>)
  {
    && SlotsOf(out) == ActiveSlots(group, done) && |out| == |SlotsOf(out)|
    && forall a :: a in out ==> a.endpoint in group && group[a.endpoint].addr == a
  }

  lemma ListsStep(group: map<EndpointID, Broker.RegisteredEndpoint>, done: set<EndpointID>, out: seq<EndpointAddr>,
                  id: EndpointID)
    requires RelayGroupOK(group) && Lists(group, done, out) && id in group && id !in done
    ensures Lists(group, done + {id}, if group[id].state == Active then out + [group[id].addr] else out)
  {
    ActiveSlotsStep(group, done, id);
    var a, before := group[id].addr, ActiveSlots(group, done);
    assert a.ToSlot() == Slot(RELAY_DOMAIN, RELAY_GROUP, id);
    if group[id].state == Active {
      ListsSnoc(group, before, before + {a.ToSlot()}, out, a);
    } else {
      assert before + {} == before;
    }
  }

  lemma ListsSnoc(group: map<EndpointID, Broker.RegisteredEndpoint>, before: set<Slot>, after: set<Slot>,
                  out: seq<EndpointAddr>, a: EndpointAddr)
    requires SlotsOf(out) == before && |out| == |before| && a.ToSlot() !in before && after == before + {a.ToSlot()}
    requires a.endpoint in group && group[a.endpoint].addr == a
    requires forall b :: b in out ==> b.endpoint in group && group[b.endpoint].addr == b
    ensures SlotsOf(out + [a]) == after && |out + [a]| == |after|
    ensures forall b :: b in out + [a] ==> b.endpoint in group && group[b.endpoint].addr == b
  {
    AnotherSlot(out, a);
  }

  lemma AnotherSlot(out: seq<EndpointAddr>, a: EndpointAddr)
    requires a.ToSlot() !in SlotsOf(out)
    ensures SlotsOf(out + [a]) == SlotsOf(out) + {a.ToSlot()} && |SlotsOf(out + [a])| == |SlotsOf(out)| + 1
  {
    SlotsOfSnoc(out, a);
  }

  lemma OneLess(all: set<EndpointID>, left: set<EndpointID>, id: EndpointID)
    requires id in left && left <= all
    ensures all - (left - {id}) == (all - left) + {id}
  {
  }

  lemma ActiveSlotsStep(group: map<EndpointID, Broker.RegisteredEndpoint>, done: set<EndpointID>, id: EndpointID)
    requires id in group && id !in done
    ensures var slot, before := Slot(RELAY_DOMAIN, RELAY_GROUP, id), ActiveSlots(group, done);
      slot !in before && ActiveSlots(group, done + {id}) == before + if group[id].state == Active then {slot} else {}
  {
  }

  /** The group's endpoints are those the registry keeps for relays. */
  ghost predicate HoldsRelays(group: map<EndpointID, Broker.RegisteredEndpoint>, s: Broker.State) {
    && RelayGroupOK(group) && ActiveSlots(group, group.Keys) == Broker.RelaySlots(s)
    && forall id :: id in group ==>
         var slot := Slot(RELAY_DOMAIN, RELAY_GROUP, id);
         slot in s.endpoints && s.endpoints[slot] == group[id]
  }

  lemma ScanListsRelays(group: map<EndpointID, Broker.RegisteredEndpoint>, s: Broker.State, out: seq<EndpointAddr>)
    requires HoldsRelays(group, s)
    requires SlotsOf(out) == ActiveSlots(group, group.Keys) && |out| == |ActiveSlots(group, group.Keys)|
    requires forall a :: a in out ==> a.endpoint in group && group[a.endpoint].addr == a
    ensures ListsRelays(out, s)
  {
    forall a | a in out ensures a.ToSlot() in s.endpoints && s.endpoints[a.ToSlot()].addr == a {
      assert a.ToSlot() == Slot(RELAY_DOMAIN, RELAY_GROUP, a.endpoint);
    }
  }

  lemma RelayGroupScan(cfg: Broker.Config, eps: EndpointTable, s: Broker.State)
    requires Inv(cfg, s) && s.endpoints == Flatten(eps)
    ensures HoldsRelays(GroupOf(eps, RELAY_DOMAIN, RELAY_GROUP), s)
  {
    var group := GroupOf(eps, RELAY_DOMAIN, RELAY_GROUP);
    forall id | id in group
      ensures var slot := Slot(RELAY_DOMAIN, RELAY_GROUP, id);
        group[id].addr.ToSlot() == slot && slot in s.endpoints && s.endpoints[slot] == group[id]
    {
      var slot := Slot(RELAY_DOMAIN, RELAY_GROUP, id);
      assert Holds(eps, slot);
      assert EndpointOK(slot, s.endpoints[slot]);
    }
    forall slot ensures slot in ActiveSlots(group, group.Keys) <==> slot in Broker.RelaySlots(s) {
      assert Slot(slot.domain, slot.group, slot.id) == slot;
    }
  }

  /** Each Active relay of the registry, once, with its full address. */
  ghost predicate ListsRelays(relays: seq<EndpointAddr>, s: Broker.State) {
    && SlotsOf(relays) == Broker.RelaySlots(s) && |relays| == |Broker.RelaySlots(s)|
    && forall a :: a in relays ==> a.ToSlot() in s.endpoints && s.endpoints[a.ToSlot()].addr == a
  }

  /** The list holds exactly the addresses of Active endpoints in domain 0, group 0, and none twice. */
  lemma RelaysListedExactly(cfg: Broker.Config, s: Broker.State, relays: seq<EndpointAddr>)
    requires Inv(cfg, s) && ListsRelays(relays, s)
    ensures forall a :: a in relays <==>
              a.domain == 0 && a.group == 0 && a.ToSlot() in s.endpoints
              && s.endpoints[a.ToSlot()].addr == a && s.endpoints[a.ToSlot()].state == Active
    ensures forall i, j :: 0 <= i < j < |relays| ==> relays[i] != relays[j]
  {
    ListedOnce(relays);
    forall a ensures a in relays <==>
              a.domain == 0 && a.group == 0 && a.ToSlot() in s.endpoints
              && s.endpoints[a.ToSlot()].addr == a && s.endpoints[a.ToSlot()].state == Active
    {
      if a in relays {
        Listed(relays, a);
        assert a.ToSlot() in Broker.RelaySlots(s);
      } else if a.ToSlot() in Broker.RelaySlots(s) {
        var b := SlotListed(relays, a.ToSlot());
      }
    }
  }

  lemma {:induction false} ListedOnce(out: seq<EndpointAddr>)
    ensures |SlotsOf(out)| <= |out|
    ensures |SlotsOf(out)| == |out| ==> forall i, j :: 0 <= i < j < |out| ==> out[i] != out[j]
    decreases |out|
  {
    if out != [] {
      var n := |out| - 1;
      ListedOnce(out[..n]);
      forall i | 0 <= i < n ensures out[i].ToSlot() in SlotsOf(out[..n]) {
        assert out[i] in out[..n];
        Listed(out[..n], out[i]);
      }
    }
  }

  lemma {:induction false} Listed(out: seq<EndpointAddr>, a: EndpointAddr)
    requires a in out
    ensures a.ToSlot() in SlotsOf(out)
    decreases |out|
  {
    var n := |out| - 1;
    if a != out[n] {
      Listed(out[..n], a);
    }
  }

  lemma {:induction false} SlotListed(out: seq<EndpointAddr>, slot: Slot) returns (a: EndpointAddr)
    requires slot in SlotsOf(out)
    ensures a in out && a.ToSlot() == slot
    decreases |out|
  {
    var n := |out| - 1;
    if out[n].ToSlot() == slot {
      a := out[n];
    } else {
      a := SlotListed(out[..n], slot);
    }
  }

  ghost function HintMoved(s: Broker.State, d: DomainID, g: GroupID, id: EndpointID): Broker.State {
    s.(nextID := s.nextID[Broker.GroupKey(d, g) := Alloc.NextHint(id)])
  }

  /** Moving the hint before or with the rest of the registration gives the same state. */
  lemma HintThenAdmit(cfg: Broker.Config, s: Broker.State, rid: string, d: DomainID, g: GroupID, id: EndpointID,
                      now: int)
    requires rid in s.pending
    ensures var hinted := HintMoved(s, d, g, id);
      Broker.Admit(cfg, hinted, rid, d, g, id, now).(nextID := hinted.nextID)
          == Broker.Admit(cfg, s, rid, d, g, id, now)
  {
  }

  class Registrar {
    const cfg: Broker.Config
    const registrarKey: Bytes

    var endpoints: EndpointTable
    var pending: map<string, Broker.PendingEnroll>
    var byFingerprint: map<string, string>
    var preApproved: map<string, Broker.AddrMapping>
    var nextID: HintTable
    var reachability: map<string, Broker.ReachabilityInfo>
    ghost var issued: set<TokenClaims>

    ghost function View(): Broker.State
      reads this
    {
      Broker.State(Flatten(endpoints), pending, byFingerprint, preApproved, FlattenHints(nextID), reachability, issued)
    }

    ghost predicate Valid()
      reads this
    {
      Inv(cfg, View())
    }

    constructor (prims: Primitives, tokenTTL: int)
      ensures Valid() && View() == Broker.INIT && cfg == Broker.PasetoConfig(prims, tokenTTL)
              && registrarKey == prims.registrarKey
    {
      cfg, registrarKey := Broker.PasetoConfig(prims, tokenTTL), prims.registrarKey;
      endpoints, pending, byFingerprint, preApproved, nextID, reachability := map[], map[], map[], map[], map[], map[];
      issued := {};
      new;
      InitInv(cfg);
      assert Flatten(endpoints) == map[] && FlattenHints(nextID) == map[];
    }

    // ---------- enrollment ----------

    method Enroll(req: Broker.EnrollRequest, rid: string, nonce: Bytes)
      returns (r: Result<Broker.EnrollResponse, Broker.Error>)
      requires Valid() && rid !in pending
      modifies this
      ensures Valid() && (View(), r) == Broker.Enroll(old(View()), req, rid, nonce)
    {
      EnrollKeeps(cfg, View(), req, rid, nonce);
      var role := RoleOf(req.roleFlags);
      if role != ROLE_CLIENT && role != ROLE_AGENT && role != ROLE_RELAY {
        return Err(Broker.InvalidRole);
      }
      if |req.publicKey| != Broker.PUBLIC_KEY_SIZE {
        return Err(Broker.InvalidPublicKey);
      }
      if role != ROLE_RELAY && req.fingerprint == "" {
        return Err(Broker.FingerprintRequired);
      }
      if req.fingerprint != "" {
        if req.fingerprint in byFingerprint {
          var known := byFingerprint[req.fingerprint];
          if known in pending {
            var existing := pending[known];
            return Ok(Broker.EnrollResponse(existing.requestID, existing.challenge));
          }
        }
      }
      var pe := Broker.PendingEnroll(rid, req.publicKey, req.fingerprint, req.roleFlags, nonce, ChallengeIssued,
          Broker.NO_ADDR, "");
      pending := pending[rid := pe];
      if req.fingerprint != "" {
        byFingerprint := byFingerprint[req.fingerprint := rid];
      }
      return Ok(Broker.EnrollResponse(rid, nonce));
    }

    method ConfirmEnrollment(rid: string, signature: Bytes, now: int)
      returns (r: Result<Broker.EnrollStatus, Broker.Error>)
      requires Valid()
      modifies this
      ensures Valid() && (View(), r) == Broker.Confirm(cfg, old(View()), rid, signature, now)
    {
      ConfirmKeeps(cfg, View(), rid, signature, now);
      if rid !in pending {
        return Err(Broker.UnknownRequest);
      }
      var pe := pending[rid];
      if pe.state != ChallengeIssued {
        return Ok(Broker.StatusFor(pe));
      }
      if !cfg.verify(pe.publicKey, pe.challenge, signature) {
        pending := pending - {rid};
        if pe.fingerprint != "" {
          byFingerprint := byFingerprint - {pe.fingerprint};
        }
        return Err(Broker.ChallengeFailed);
      }
      InvImpliesLiveUnique(cfg, View());
      if RoleOf(pe.roleFlags) == ROLE_RELAY {
        var done := RegisterApproved(rid, RELAY_DOMAIN, RELAY_GROUP, now);
        return if done.Ok? then Ok(Broker.StatusFor(pending[rid])) else Err(done.error);
      }
      if pe.fingerprint in preApproved {
        var mapping := preApproved[pe.fingerprint];
        var done := RegisterApproved(rid, mapping.domain, mapping.group, now);
        return if done.Ok? then Ok(Broker.StatusFor(pending[rid])) else Err(done.error);
      }
      pending := pending[rid := pe.(state := Pending)];
      return Ok(Broker.StatusFor(pending[rid]));
    }

    method PollEnrollment(rid: string, signature: Bytes) returns (r: Result<Broker.EnrollStatus, Broker.Error>)
      ensures r == Broker.Poll(cfg, View(), rid, signature)
    {
      if rid !in pending {
        return Err(Broker.UnknownRequest);
      }
      var pe := pending[rid];
      if !cfg.verify(pe.publicKey, Broker.PollMessage(rid), signature) {
        return Err(Broker.PollSignatureInvalid);
      }
      return Ok(Broker.StatusFor(pe));
    }

    // ---------- admin ----------

    method PreApprove(fp: string, d: DomainID, g: GroupID) returns (r: Result<(), Broker.Error>)
      requires Valid()
      modifies this
      ensures Valid() && (View(), r) == Broker.PreApprove(old(View()), fp, d, g)
    {
      PreApproveKeeps(cfg, View(), fp, d, g);
      if fp == "" {
        return Err(Broker.EmptyFingerprint);
      }
      if d == RELAY_DOMAIN {
        return Err(Broker.ReservedDomain);
      }
      preApproved := preApproved[fp := Broker.AddrMapping(d, g)];
      return Ok(());
    }

    method ApproveEnrollment(rid: string, d: DomainID, g: GroupID, now: int) returns (r: Result<(), Broker.Error>)
      requires Valid()
      modifies this
      ensures Valid() && (View(), r) == Broker.Approve(cfg, old(View()), rid, d, g, now)
    {
      ApproveKeeps(cfg, View(), rid, d, g, now);
      if rid !in pending {
        return Err(Broker.UnknownRequest);
      }
      var pe := pending[rid];
      if pe.state != Pending {
        return Err(Broker.WrongState(pe.state));
      }
      if d == RELAY_DOMAIN {
        return Err(Broker.ReservedDomain);
      }
      InvImpliesLiveUnique(cfg, View());
      r := RegisterApproved(rid, d, g, now);
    }

    method DenyEnrollment(rid: string) returns (r: Result<(), Broker.Error>)
      requires Valid()
      modifies this
      ensures Valid() && (View(), r) == Broker.Deny(old(View()), rid)
    {
      DenyKeeps(cfg, View(), rid);
      if rid !in pending {
        return Err(Broker.UnknownRequest);
      }
      var pe := pending[rid];
      if pe.state != Pending && pe.state != ChallengeIssued {
        return Err(Broker.WrongState(pe.state));
      }
      pending := pending[rid := pe.(state := Denied)];
      return Ok(());
    }

    // ---------- activation, revocation, reachability ----------

    function GetEndpoint(addr: EndpointAddr): (r: Option<Broker.RegisteredEndpoint>)
      reads this
      ensures r == var slot := addr.ToSlot(); if slot in View().endpoints then Some(View().endpoints[slot]) else None
    {
      if addr.domain in endpoints && addr.group in endpoints[addr.domain]
          && addr.endpoint in endpoints[addr.domain][addr.group] then
        Some(endpoints[addr.domain][addr.group][addr.endpoint])
      else None
    }

    /** Assigns the state of a stored endpoint. */
    method SetState(slot: Slot, st: LifecycleState)
      requires slot in View().endpoints
      modifies this`endpoints
      ensures View() == Broker.SetEndpointState(old(View()), slot, st)
    {
      var ep := At(endpoints, slot).(state := st);
      PutIsFlatUpdate(endpoints, slot, ep);
      endpoints := Put(endpoints, slot, ep);
    }

    method ActivateEndpoint(addr: EndpointAddr, token: string, now: int) returns (r: Result<(), Broker.Error>)
      requires Valid()
      modifies this
      ensures Valid() && (View(), r) == Broker.Activate(cfg, old(View()), addr, token, now)
    {
      ActivateKeeps(cfg, View(), addr, token, now);
      var verified := cfg.open(token, now);
      if verified.Err? {
        return Err(Broker.BadToken(verified.error));
      }
      var claims := verified.value;
      if claims.endpointID != addr.endpoint || claims.domain != addr.domain || claims.group != addr.group
          || claims.roleFlags != addr.roleFlags {
        return Err(Broker.TokenMismatch);
      }
      var ep := GetEndpoint(addr);
      if ep.None? {
        return Err(Broker.EndpointNotFound);
      }
      if ep.value.state != Registered {
        return Err(Broker.WrongState(ep.value.state));
      }
      SetState(addr.ToSlot(), Active);
      return Ok(());
    }

    method RevokeEndpoint(addr: EndpointAddr) returns (r: Result<(), Broker.Error>)
      requires Valid()
      modifies this
      ensures Valid() && (View(), r) == Broker.Revoke(old(View()), addr)
    {
      RevokeKeeps(cfg, View(), addr);
      if GetEndpoint(addr).None? {
        return Err(Broker.EndpointNotFound);
      }
      SetState(addr.ToSlot(), Revoked);
      DropInfo(addr);
      return Ok(());
    }

    function GetOrCreateReachability(addr: EndpointAddr): (info: Broker.ReachabilityInfo)
      reads this
      ensures info == Broker.InfoFor(View(), addr)
    {
      var key := addr.AddrKey();
      if key in reachability then reachability[key] else Broker.ReachabilityInfo(addr, None, None)
    }

    method StoreInfo(addr: EndpointAddr, info: Broker.ReachabilityInfo)
      modifies this`reachability
      ensures View() == old(View()).(reachability := old(View()).reachability[addr.AddrKey() := info])
    {
      reachability := reachability[addr.AddrKey() := info];
    }

    method DropInfo(addr: EndpointAddr)
      modifies this`reachability
      ensures View() == old(View()).(reachability := old(View()).reachability - {addr.AddrKey()})
    {
      reachability := reachability - {addr.AddrKey()};
    }

    method ObserveEndpoint(addr: EndpointAddr, observedAddr: string, proto: string)
      returns (r: Result<(), Broker.Error>)
      requires Valid()
      modifies this
      ensures Valid() && (View(), r) == Broker.Observe(old(View()), addr, observedAddr, proto)
    {
      var ep := GetEndpoint(addr);
      if ep.None? {
        return Err(Broker.EndpointNotFound);
      }
      if ep.value.state != Active {
        return Err(Broker.WrongState(ep.value.state));
      }
      StoreInfo(addr, GetOrCreateReachability(addr).(direct := Some(Broker.DirectRoute(observedAddr, proto))));
      ObserveKeeps(cfg, old(View()), addr, observedAddr, proto);
      return Ok(());
    }

    method SetRelayRoute(addr: EndpointAddr, token: string, relayAddr: EndpointAddr, now: int)
      returns (r: Result<(), Broker.Error>)
      requires Valid()
      modifies this
      ensures Valid() && (View(), r) == Broker.SetRelayRoute(cfg, old(View()), addr, token, relayAddr, now)
    {
      var verified := cfg.open(token, now);
      if verified.Err? {
        return Err(Broker.BadToken(verified.error));
      }
      var claims := verified.value;
      if claims.endpointID != addr.endpoint || claims.domain != addr.domain || claims.group != addr.group {
        return Err(Broker.TokenMismatch);
      }
      var ep := GetEndpoint(addr);
      if ep.None? {
        return Err(Broker.EndpointNotFound);
      }
      if ep.value.state != Active {
        return Err(Broker.WrongState(ep.value.state));
      }
      StoreInfo(addr, GetOrCreateReachability(addr).(relay := Some(relayAddr)));
      SetRelayRouteKeeps(cfg, old(View()), addr, token, relayAddr, now);
      return Ok(());
    }

    method LookupReachability(target: EndpointAddr) returns (r: Option<Broker.ReachabilityInfo>)
      ensures r == Broker.LookupReachability(View(), target)
    {
      var key := target.AddrKey();
      if key !in reachability {
        return None;
      }
      var info := reachability[key];
      var ep := GetEndpoint(info.addr);
      if ep.None? || ep.value.state != Active {
        return None;
      }
      return Some(info);
    }

    method RequestPunch(client: EndpointAddr, agent: EndpointAddr, token: string, now: int)
      returns (r: Result<(Broker.PunchRequest, Broker.PunchRequest), Broker.Error>)
      ensures r == Broker.RequestPunch(cfg, View(), client, agent, token, now)
    {
      var verified := cfg.open(token, now);
      if verified.Err? {
        return Err(Broker.BadToken(verified.error));
      }
      var claims := verified.value;
      if claims.endpointID != client.endpoint || claims.domain != client.domain || claims.group != client.group {
        return Err(Broker.TokenMismatch);
      }
      if client.AddrKey() !in reachability || reachability[client.AddrKey()].direct.None? {
        return Err(Broker.ClientNotObserved);
      }
      if agent.AddrKey() !in reachability || reachability[agent.AddrKey()].direct.None? {
        return Err(Broker.AgentNotObserved);
      }
      var clientRoute, agentRoute := reachability[client.AddrKey()].direct.value,
          reachability[agent.AddrKey()].direct.value;
      var clientEp, agentEp := GetEndpoint(client), GetEndpoint(agent);
      if clientEp.None? || clientEp.value.state != Active {
        return Err(Broker.ClientNotActive);
      }
      if agentEp.None? || agentEp.value.state != Active {
        return Err(Broker.AgentNotActive);
      }
      var forClient := Broker.PunchRequest(agent, agentRoute.observedAddr, agentRoute.proto);
      var forAgent := Broker.PunchRequest(client, clientRoute.observedAddr, clientRoute.proto);
      return Ok((forClient, forAgent));
    }

    method ClearReachability(addr: EndpointAddr)
      requires Valid()
      modifies this
      ensures Valid() && View() == Broker.ClearReachability(old(View()), addr)
    {
      ClearKeeps(cfg, View(), addr);
      DropInfo(addr);
    }

    /** The addresses of the Active endpoints in the reserved relay group, each once. */
    method ListRelays() returns (out: seq<EndpointAddr>)
      requires Valid()
      ensures ListsRelays(out, View())
    {
      var group := GroupOf(endpoints, RELAY_DOMAIN, RELAY_GROUP);
      RelayGroupScan(cfg, endpoints, View());
      out := ActiveAddresses(group);
      ScanListsRelays(group, View(), out);
    }

    /** The bundle an endpoint fetches after activation. */
    method FullRegistrationInfo(addr: EndpointAddr) returns (r: Result<Broker.RegistrationInfo, Broker.Error>)
      requires Valid()
      ensures match Broker.InfoRefusal(View(), addr)
        case Some(e) => r == Err(e)
        case None => r.Ok? && InfoFits(r.value, addr)
    {
      var ep := GetEndpoint(addr);
      if ep.None? {
        return Err(Broker.EndpointNotFound);
      }
      if ep.value.state != Active {
        return Err(Broker.WrongState(ep.value.state));
      }
      assert EndpointOK(addr.ToSlot(), ep.value);
      var relays := ListRelays();
      return Ok(Broker.RegistrationInfo(ep.value.addr.endpoint, ep.value.token, registrarKey, relays));
    }

    /** The endpoint's own ID and token, the key tokens verify under, and each Active relay once. */
    ghost predicate InfoFits(info: Broker.RegistrationInfo, addr: EndpointAddr)
      reads this
    {
      && addr.ToSlot() in View().endpoints && info.id == addr.endpoint
           && info.token == View().endpoints[addr.ToSlot()].token
      && info.registrarKey == registrarKey && ListsRelays(info.relays, View())
    }

    // ---------- helpers ----------

    method FindByFingerprint(fp: string) returns (r: Option<Broker.RegisteredEndpoint>)
      requires LiveUnique(View().endpoints)
      ensures match Broker.FindByFingerprint(View().endpoints, fp)
        case None => r == None
        case Some(slot) => r == Some(View().endpoints[slot])
    {
      if fp == "" {
        return None;
      }
      ghost var flat := Flatten(endpoints);
      var domains := endpoints.Keys;
      while domains != {}
        invariant domains <= endpoints.Keys
        invariant forall s :: Broker.LiveWith(flat, fp, s) ==> s.domain in domains
        decreases domains
      {
        var d :| d in domains;
        var groups := endpoints[d].Keys;
        while groups != {}
          invariant groups <= endpoints[d].Keys
          invariant forall s :: Broker.LiveWith(flat, fp, s) && s.domain == d ==> s.group in groups
          decreases groups
        {
          var g :| g in groups;
          var ids := endpoints[d][g].Keys;
          while ids != {}
            invariant ids <= endpoints[d][g].Keys
            invariant forall s :: Broker.LiveWith(flat, fp, s) && s.domain == d && s.group == g ==> s.id in ids
            decreases ids
          {
            var id :| id in ids;
            var ep := endpoints[d][g][id];
            assert Holds(endpoints, Slot(d, g, id));
            if ep.fingerprint == fp && ep.state != Revoked {
              assert Broker.LiveWith(flat, fp, Slot(d, g, id));
              return Some(ep);
            }
            ids := ids - {id};
          }
          groups := groups - {g};
        }
        domains := domains - {d};
      }
      return None;
    }

    method AllocateID(d: DomainID, g: GroupID) returns (r: Option<EndpointID>)
      modifies this`nextID
      ensures r == Alloc.Scan(Broker.GroupIDs(old(View()).endpoints, d, g), Broker.HintFor(old(View()), d, g), 0)
      ensures View() == if r.Some? then HintMoved(old(View()), d, g, r.value) else old(View())
    {
      if d !in nextID {
        EmptyHintDomain(nextID, d);
        nextID := nextID[d := map[]];
      }
      var hint := Alloc.StartOf(if g in nextID[d] then nextID[d][g] else 0);
      GroupKeysAreIDs(endpoints, d, g);
      r := Alloc.Probe(GroupOf(endpoints, d, g), hint);
      if r.Some? {
        HintIsFlatUpdate(nextID, d, g, Alloc.NextHint(r.value));
        nextID := PutHint(nextID, d, g, Alloc.NextHint(r.value));
      }
    }

    /** Signs the token, stores the endpoint and completes the record; the hint has already moved on. */
    method Admit(rid: string, d: DomainID, g: GroupID, id: EndpointID, now: int)
      requires rid in pending
      modifies this`endpoints, this`pending, this`issued
      ensures View() == Broker.Admit(cfg, old(View()), rid, d, g, id, now).(nextID := old(View()).nextID)
    {
      var pe := pending[rid];
      var addr := EndpointAddr(d, g, id, pe.roleFlags);
      var claims := Broker.ClaimsFor(cfg, pe, d, g, id, now);
      var token := cfg.seal(claims);
      issued := issued + {claims};
      var ep := Broker.RegisteredEndpoint(addr, pe.publicKey, Registered, token, pe.fingerprint);
      PutIsFlatUpdate(endpoints, Slot(d, g, id), ep);
      endpoints := Put(endpoints, Slot(d, g, id), ep);
      pending := pending[rid := pe.(address := addr, token := token, state := Registered)];
      assert View().endpoints == old(View()).endpoints[Slot(d, g, id) := ep];
    }

    method RegisterApproved(rid: string, d: DomainID, g: GroupID, now: int) returns (r: Result<(), Broker.Error>)
      requires rid in pending && LiveUnique(View().endpoints)
      modifies this
      ensures match Broker.RegisterApproved(cfg, old(View()), rid, d, g, now)
        case Ok(s) => r == Ok(()) && View() == s
        case Err(e) => r == Err(e) && View() == old(View())
    {
      var pe := pending[rid];
      var existing := FindByFingerprint(pe.fingerprint);
      if existing.Some? {
        pending := pending[rid := pe.(address := existing.value.addr, token := existing.value.token,
            state := Registered)];
        return Ok(());
      }
      r := RegisterNew(rid, d, g, now);
    }

    /** The part of registration that follows when no live endpoint has the fingerprint. */
    method RegisterNew(rid: string, d: DomainID, g: GroupID, now: int) returns (r: Result<(), Broker.Error>)
      requires rid in pending
      modifies this`endpoints, this`pending, this`nextID, this`issued
      ensures match Broker.RegisterNew(cfg, old(View()), rid, d, g, now)
        case Ok(s) => r == Ok(()) && View() == s
        case Err(e) => r == Err(e) && View() == old(View())
    {
      var chosen := ChooseID(d, g);
      if chosen.Err? {
        return Err(chosen.error);
      }
      HintThenAdmit(cfg, old(View()), rid, d, g, chosen.value, now);
      Admit(rid, d, g, chosen.value, now);
      return Ok(());
    }

    /** Refuses a full group, or allocates an ID and moves the group's hint past it. */
    method ChooseID(d: DomainID, g: GroupID) returns (r: Result<EndpointID, Broker.Error>)
      modifies this`nextID
      ensures r == Broker.ChooseID(old(View()), d, g)
      ensures View() == if r.Ok? then HintMoved(old(View()), d, g, r.value) else old(View())
    {
      GroupKeysAreIDs(endpoints, d, g);
      if |GroupOf(endpoints, d, g)| >= Alloc.MAX_ENDPOINTS {
        return Err(Broker.CapacityReached);
      }
      var chosen := AllocateID(d, g);
      return if chosen.Some? then Ok(chosen.value) else Err(Broker.NoAvailableID);
    }
  }
}
