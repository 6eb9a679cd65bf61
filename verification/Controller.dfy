/** The flow controller over a live registrar (swarm/controller.go). */
module Control {
  import opened Common
  import opened SwarmTypes
  import opened FlowRules
  import opened Registration

  class Controller {
    const registrar: Registrar
    var policies: seq<FlowPolicy>

    constructor (reg: Registrar)
      ensures registrar == reg && policies == []
    {
      registrar := reg;
      policies := [];
    }

    method AddPolicy(p: FlowPolicy)
      modifies this
      ensures policies == old(policies) + [p]
    {
      policies := policies + [p];
    }

    method ValidateFlow(from: EndpointAddr, to: EndpointAddr, token: string, now: int)
      returns (r: Result<(), FlowError>)
      ensures r == FlowRules.ValidateFlow(registrar.cfg, registrar.View(), policies, from, to, token, now)
    {
      var verified := registrar.cfg.open(token, now);
      if verified.Err? {
        return Err(InvalidToken(verified.error));
      }
      var claims := verified.value;
      if claims.endpointID != from.endpoint || claims.domain != from.domain || claims.group != from.group
          || claims.roleFlags != from.roleFlags {
        return Err(TokenMismatch);
      }
      r := CheckFlowRules(from, to);
    }

    method VerifyMessage(msg: SwarmMessage, now: int) returns (r: Result<(), FlowError>)
      ensures r == FlowRules.VerifyMessage(registrar.cfg, registrar.View(), policies, msg, now)
    {
      var verified := registrar.cfg.open(msg.token, now);
      if verified.Err? {
        return Err(InvalidToken(verified.error));
      }
      var claims := verified.value;
      if claims.endpointID != msg.from.endpoint || claims.domain != msg.from.domain || claims.group != msg.from.group
         || claims.roleFlags != msg.from.roleFlags {
        return Err(TokenMismatch);
      }
      if !registrar.cfg.verify(claims.publicKey, msg.payload, msg.signature) {
        return Err(BadPayloadSignature);
      }
      r := CheckFlowRules(msg.from, msg.to);
    }

    method CheckFlowRules(from: EndpointAddr, to: EndpointAddr) returns (r: Result<(), FlowError>)
      ensures r == FlowRules.CheckFlowRules(registrar.View(), policies, from, to)
    {
      var ep := registrar.GetEndpoint(to);
      if to.Role() == ROLE_RELAY {
        if to.domain != RELAY_DOMAIN {
          return Err(RelayOutsideReservedDomain);
        }
        if ep.None? {
          return Err(RelayNotFound);
        }
        return if ep.value.state != Active then Err(RelayNotActive(ep.value.state)) else Ok(());
      }
      if from.Role() != ROLE_CLIENT {
        return Err(OnlyClientsInitiate);
      }
      if to.Role() != ROLE_AGENT {
        return Err(DestinationNotAgent);
      }
      if from.domain != to.domain {
        return Err(CrossDomain);
      }
      if from.group != to.group {
        return Err(CrossGroup);
      }
      if ep.None? {
        return Err(DestinationNotFound);
      }
      if ep.value.state != Active {
        return Err(DestinationNotActive(ep.value.state));
      }
      var i := 0;
      while i < |policies|
        invariant 0 <= i <= |policies|
        invariant FirstDenial(policies, i, from, to) == FirstDenial(policies, 0, from, to)
      {
        if !Allows(policies[i], from, to) {
          return Err(DeniedByPolicy(i));
        }
        i := i + 1;
      }
      return Ok(());
    }
  }
}
