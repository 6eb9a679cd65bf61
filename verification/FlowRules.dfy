/** Flow policies and the controller's decision as a function (swarm/policy.go, swarm/controller.go). */
module FlowRules {
  import opened Common
  import opened SwarmTypes
  import opened Paseto
  import opened BrokerInvariant
  import opened BrokerTheorems
  import Broker

  datatype FlowRule = FlowRule(
    fromDomain: DomainID, fromGroup: GroupID, fromRole: bv8,
    toDomain: DomainID, toGroup: GroupID, toRole: bv8)

  /** The two policies the repository ships, and any other implementation of the interface. */
  datatype FlowPolicy =
    | AllowList(rules: seq<FlowRule>)
    | DenyEndpoint(blocked: seq<EndpointAddr>)
    | Custom(evaluate: (EndpointAddr, EndpointAddr) -> bool)

  datatype FlowError =
    | InvalidToken(cause: TokenError)
    | TokenMismatch
    | BadPayloadSignature
    | RelayOutsideReservedDomain
    | RelayNotFound
    | RelayNotActive(state: LifecycleState)
    | OnlyClientsInitiate
    | DestinationNotAgent
    | CrossDomain
    | CrossGroup
    | DestinationNotFound
    | DestinationNotActive(state: LifecycleState)
    | DeniedByPolicy(index: nat)

  predicate Matches(r: FlowRule, from: EndpointAddr, to: EndpointAddr) {
    && r.fromDomain == from.domain && r.fromGroup == from.group && r.fromRole == from.Role()
    && r.toDomain == to.domain && r.toGroup == to.group && r.toRole == to.Role()
  }

  predicate AnyRuleMatches(rules: seq<FlowRule>, from: EndpointAddr, to: EndpointAddr)
    ensures AnyRuleMatches(rules, from, to) <==> exists r :: r in rules && Matches(r, from, to)
  {
    rules != [] && (Matches(rules[0], from, to) || AnyRuleMatches(rules[1..], from, to))
  }

  /** A blocked address matches whatever role the sender claims. */
  predicate Blocks(b: EndpointAddr, from: EndpointAddr)
    ensures Blocks(b, from) <==> b.ToSlot() == from.ToSlot()
  {
    from.domain == b.domain && from.group == b.group && from.endpoint == b.endpoint
  }

  predicate AnyBlocked(blocked: seq<EndpointAddr>, from: EndpointAddr)
    ensures AnyBlocked(blocked, from) <==> exists b :: b in blocked && Blocks(b, from)
  {
    blocked != [] && (Blocks(blocked[0], from) || AnyBlocked(blocked[1..], from))
  }

  /** True when the policy's Evaluate returns nil. */
  predicate Allows(p: FlowPolicy, from: EndpointAddr, to: EndpointAddr) {
    match p
    case AllowList(rules) => AnyRuleMatches(rules, from, to)
    case DenyEndpoint(blocked) => !AnyBlocked(blocked, from)
    case Custom(evaluate) => evaluate(from, to)
  }

  /** The first policy from index i on that denies, if any. */
  function FirstDenial(policies: seq<FlowPolicy>, i: nat, from: EndpointAddr, to: EndpointAddr): (r: Option<nat>)
    requires i <= |policies|
    ensures r.None? <==> forall k :: i <= k < |policies| ==> Allows(policies[k], from, to)
    ensures r.Some? ==> i <= r.value < |policies| && !Allows(policies[r.value], from, to)
    ensures r.Some? ==> forall k :: i <= k < r.value ==> Allows(policies[k], from, to)
    decreases |policies| - i
  {
    if i == |policies| then None
    else if !Allows(policies[i], from, to) then Some(i)
    else FirstDenial(policies, i + 1, from, to)
  }

  function CheckFlowRules(s: Broker.State, policies: seq<FlowPolicy>, from: EndpointAddr, to: EndpointAddr)
    : Result<(), FlowError>
  {
    var slot := to.ToSlot();
    if to.Role() == ROLE_RELAY then
      if to.domain != RELAY_DOMAIN then Err(RelayOutsideReservedDomain)
      else if slot !in s.endpoints then Err(RelayNotFound)
      else if s.endpoints[slot].state != Active then Err(RelayNotActive(s.endpoints[slot].state))
      else Ok(())
    else if from.Role() != ROLE_CLIENT then Err(OnlyClientsInitiate)
    else if to.Role() != ROLE_AGENT then Err(DestinationNotAgent)
    else if from.domain != to.domain then Err(CrossDomain)
    else if from.group != to.group then Err(CrossGroup)
    else if slot !in s.endpoints then Err(DestinationNotFound)
    else if s.endpoints[slot].state != Active then Err(DestinationNotActive(s.endpoints[slot].state))
    else
      match FirstDenial(policies, 0, from, to)
      case Some(i) => Err(DeniedByPolicy(i))
      case None => Ok(())
  }

  predicate ClaimsMatch(c: TokenClaims, from: EndpointAddr) {
    EndpointAddr(c.domain, c.group, c.endpointID, c.roleFlags) == from
  }

  function ValidateFlow(cfg: Broker.Config, s: Broker.State, policies: seq<FlowPolicy>,
                        from: EndpointAddr, to: EndpointAddr, token: string, now: int): Result<(), FlowError> {
    match cfg.open(token, now)
    case Err(e) => Err(InvalidToken(e))
    case Ok(c) => if !ClaimsMatch(c, from) then Err(TokenMismatch) else CheckFlowRules(s, policies, from, to)
  }

  datatype SwarmMessage = SwarmMessage(from: EndpointAddr, to: EndpointAddr, token: string, payload: Bytes,
                                       signature: Bytes)

  function VerifyMessage(cfg: Broker.Config, s: Broker.State, policies: seq<FlowPolicy>, msg: SwarmMessage, now: int)
    : Result<(), FlowError>
  {
    match cfg.open(msg.token, now)
    case Err(e) => Err(InvalidToken(e))
    case Ok(c) =>
      if !ClaimsMatch(c, msg.from) then Err(TokenMismatch)
      else if !cfg.verify(c.publicKey, msg.payload, msg.signature) then Err(BadPayloadSignature)
      else CheckFlowRules(s, policies, msg.from, msg.to)
  }

  ghost predicate AllAllow(policies: seq<FlowPolicy>, from: EndpointAddr, to: EndpointAddr) {
    forall p :: p in policies ==> Allows(p, from, to)
  }

  /** What the built-in rules and the policies accept, independent of the order in which they are tried. */
  lemma FlowAcceptedIff(s: Broker.State, policies: seq<FlowPolicy>, from: EndpointAddr, to: EndpointAddr)
    ensures CheckFlowRules(s, policies, from, to).Ok? <==>
      && Broker.ActiveAt(s, to.ToSlot())
      && (|| (to.Role() == ROLE_RELAY && to.domain == RELAY_DOMAIN)
          || (&& from.Role() == ROLE_CLIENT && to.Role() == ROLE_AGENT
              && from.domain == to.domain && from.group == to.group && AllAllow(policies, from, to)))
  {
    assert AllAllow(policies, from, to) <==> forall k :: 0 <= k < |policies| ==> Allows(policies[k], from, to);
  }

  /**
   Group isolation. In any reachable broker state, a flow accepted under a token that is not forged comes
   from a registered sender. Towards a relay, the destination is an Active registered relay; otherwise the
   sender is registered as a client and the destination is an Active non-relay record of its own group.
   */
  lemma FlowIsolation(p: Primitives, ttl: int, ops: seq<Broker.Op>, policies: seq<FlowPolicy>,
                      from: EndpointAddr, to: EndpointAddr, token: string, now: int)
    requires p.Lawful() && Broker.FreshRun(Broker.PasetoConfig(p, ttl), Broker.INIT, ops)
    requires Unforged(p, Broker.Run(Broker.PasetoConfig(p, ttl), Broker.INIT, ops).issued, token)
    requires var cfg := Broker.PasetoConfig(p, ttl);
      ValidateFlow(cfg, Broker.Run(cfg, Broker.INIT, ops), policies, from, to, token, now).Ok?
    ensures var s := Broker.Run(Broker.PasetoConfig(p, ttl), Broker.INIT, ops);
      && from.ToSlot() in s.endpoints && s.endpoints[from.ToSlot()].addr == from
      && Isolated(s, from, to)
  {
    var cfg := Broker.PasetoConfig(p, ttl);
    var s := Broker.Run(cfg, Broker.INIT, ops);
    ReachableInv(cfg, ops);
    assert ops + [] == ops;
    TokenBindsOneEndpoint(p, ttl, ops, [], token, now);
    AcceptedIsIsolated(s, policies, from, to);
  }

  /** What the registry says of the two ends of a flow between these addresses. */
  predicate Isolated(s: Broker.State, from: EndpointAddr, to: EndpointAddr)
    requires from.ToSlot() in s.endpoints
  {
    && Broker.ActiveAt(s, to.ToSlot())
    && var registered := s.endpoints[to.ToSlot()].addr;
       if to.Role() == ROLE_RELAY then
         registered.Role() == ROLE_RELAY && registered.domain == RELAY_DOMAIN && registered.group == RELAY_GROUP
       else
         && s.endpoints[from.ToSlot()].addr.Role() == ROLE_CLIENT
         && registered.Role() != ROLE_RELAY
         && registered.domain == from.domain && registered.group == from.group
  }

  lemma AcceptedIsIsolated(s: Broker.State, policies: seq<FlowPolicy>, from: EndpointAddr, to: EndpointAddr)
    requires EndpointsOK(s) && CheckFlowRules(s, policies, from, to).Ok?
    requires from.ToSlot() in s.endpoints && s.endpoints[from.ToSlot()].addr == from
    ensures Isolated(s, from, to)
  {
    FlowAcceptedIff(s, policies, from, to);
    assert EndpointOK(to.ToSlot(), s.endpoints[to.ToSlot()]);
    assert EndpointOK(from.ToSlot(), s.endpoints[from.ToSlot()]);
  }

  /** A verified message is a valid flow whose payload was signed under the key its token carries. */
  lemma MessageImpliesFlow(cfg: Broker.Config, s: Broker.State, policies: seq<FlowPolicy>, msg: SwarmMessage, now: int)
    ensures VerifyMessage(cfg, s, policies, msg, now).Ok? <==>
      && ValidateFlow(cfg, s, policies, msg.from, msg.to, msg.token, now).Ok?
      && cfg.verify(cfg.open(msg.token, now).value.publicKey, msg.payload, msg.signature)
  {
  }

  /** Adding a policy never enlarges the accepted set, and narrows it exactly by that policy. */
  lemma AddingPolicyNarrows(s: Broker.State, policies: seq<FlowPolicy>, p: FlowPolicy, from: EndpointAddr,
                            to: EndpointAddr)
    ensures CheckFlowRules(s, policies + [p], from, to).Ok?
       <==> CheckFlowRules(s, policies, from, to).Ok? && (to.Role() == ROLE_RELAY || Allows(p, from, to))
  {
    FlowAcceptedIff(s, policies, from, to);
    FlowAcceptedIff(s, policies + [p], from, to);
    assert forall q :: q in policies + [p] <==> q in policies || q == p;
  }

  /** Acceptance depends only on which policies are installed, not on their order or repetition. */
  lemma PolicyOrderIrrelevant(s: Broker.State, ps: seq<FlowPolicy>, qs: seq<FlowPolicy>, from: EndpointAddr,
                              to: EndpointAddr)
    requires forall p :: p in ps <==> p in qs
    ensures CheckFlowRules(s, ps, from, to).Ok? <==> CheckFlowRules(s, qs, from, to).Ok?
  {
    FlowAcceptedIff(s, ps, from, to);
    FlowAcceptedIff(s, qs, from, to);
  }

  // ---------- exactly which flows are accepted ----------

  /** An allow list allows a flow when the rule with exactly these groups and roles is in it. */
  lemma AllowListExactly(rules: seq<FlowRule>, from: EndpointAddr, to: EndpointAddr)
    ensures Allows(AllowList(rules), from, to) <==>
      FlowRule(from.domain, from.group, from.roleFlags & 0x03, to.domain, to.group, to.roleFlags & 0x03) in rules
  {
    var rule := FlowRule(from.domain, from.group, from.roleFlags & 0x03, to.domain, to.group, to.roleFlags & 0x03);
    forall r: FlowRule ensures Matches(r, from, to) <==> r == rule {
    }
  }

  lemma DenyEndpointExactly(blocked: seq<EndpointAddr>, from: EndpointAddr, to: EndpointAddr)
    ensures Allows(DenyEndpoint(blocked), from, to) <==> forall b :: b in blocked ==> b.ToSlot() != from.ToSlot()
  {
  }

  /** The token opens to claims with the sender's domain, group, ID and role flags. */
  predicate TokenIsOf(cfg: Broker.Config, token: string, now: int, from: EndpointAddr) {
    && cfg.open(token, now).Ok?
    && var c := cfg.open(token, now).value;
       && c.domain == from.domain && c.group == from.group
       && c.endpointID == from.endpoint && c.roleFlags == from.roleFlags
  }

  /** What the rules permit: to an Active relay from anyone, to an Active agent from a client of its group. */
  ghost predicate Permitted(s: Broker.State, policies: seq<FlowPolicy>, from: EndpointAddr, to: EndpointAddr) {
    && to.ToSlot() in s.endpoints && s.endpoints[to.ToSlot()].state == Active
    && if to.roleFlags & 0x03 == 0x03 then to.domain == 0
       else
         && from.roleFlags & 0x03 == 0x01 && to.roleFlags & 0x03 == 0x02
         && from.domain == to.domain && from.group == to.group
         && forall p :: p in policies ==> Allows(p, from, to)
  }

  /** A flow is accepted exactly under the sender's own token and when the rules permit it. */
  lemma FlowAcceptedExactly(cfg: Broker.Config, s: Broker.State, policies: seq<FlowPolicy>,
                            from: EndpointAddr, to: EndpointAddr, token: string, now: int)
    ensures var r := ValidateFlow(cfg, s, policies, from, to, token, now);
      && (r.Ok? <==> TokenIsOf(cfg, token, now, from) && Permitted(s, policies, from, to))
      && (forall e :: r == Err(InvalidToken(e)) <==> cfg.open(token, now) == Err(e))
      && (r == Err(TokenMismatch) <==> cfg.open(token, now).Ok? && !TokenIsOf(cfg, token, now, from))
  {
    FlowAcceptedIff(s, policies, from, to);
  }

  /** A message is accepted exactly when, besides, its payload is signed under the key its token carries. */
  lemma MessageAcceptedExactly(cfg: Broker.Config, s: Broker.State, policies: seq<FlowPolicy>, msg: SwarmMessage,
                               now: int)
    ensures var r := VerifyMessage(cfg, s, policies, msg, now);
      var owned := TokenIsOf(cfg, msg.token, now, msg.from);
      var signed := owned && cfg.verify(cfg.open(msg.token, now).value.publicKey, msg.payload, msg.signature);
      && (r.Ok? <==> signed && Permitted(s, policies, msg.from, msg.to))
      && (forall e :: r == Err(InvalidToken(e)) <==> cfg.open(msg.token, now) == Err(e))
      && (r == Err(TokenMismatch) <==> cfg.open(msg.token, now).Ok? && !owned)
      && (r == Err(BadPayloadSignature) <==> owned && !signed)
  {
    FlowAcceptedIff(s, policies, msg.from, msg.to);
  }

  /**
   In any reachable broker state, the token stored with an endpoint opens every flow from that endpoint that
   the rules permit, from its issue until it expires.
   */
  lemma StoredTokenOpensFlows(cfg: Broker.Config, ops: seq<Broker.Op>, policies: seq<FlowPolicy>,
                              from: EndpointAddr, to: EndpointAddr) returns (claims: TokenClaims)
    requires TokensRoundTrip(cfg) && Broker.FreshRun(cfg, Broker.INIT, ops)
    requires var s := Broker.Run(cfg, Broker.INIT, ops);
      from.ToSlot() in s.endpoints && s.endpoints[from.ToSlot()].addr == from && Permitted(s, policies, from, to)
    ensures var s := Broker.Run(cfg, Broker.INIT, ops);
      && claims in s.issued && s.endpoints[from.ToSlot()].token == cfg.seal(claims)
      && forall now :: ValidateFlow(cfg, s, policies, from, to, cfg.seal(claims), now).Ok? <==> now <= claims.expiresAt
  {
    var s := Broker.Run(cfg, Broker.INIT, ops);
    ReachableInv(cfg, ops);
    claims :| claims in s.issued && Describes(cfg, s, claims, from.ToSlot());
    forall now
      ensures ValidateFlow(cfg, s, policies, from, to, cfg.seal(claims), now).Ok? <==> now <= claims.expiresAt
    {
      FlowAcceptedExactly(cfg, s, policies, from, to, cfg.seal(claims), now);
    }
  }
}
