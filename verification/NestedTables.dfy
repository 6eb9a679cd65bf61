/** The registrar's nested maps (domain -> group -> ID) seen as flat tables. */
module NestedTables {
  import opened SwarmTypes
  import opened Broker

  type EndpointTable = map<DomainID, map<GroupID, map<EndpointID, RegisteredEndpoint>>>
  type HintTable = map<DomainID, map<GroupID, EndpointID>>

  predicate Holds(eps: EndpointTable, slot: Slot) {
    slot.domain in eps && slot.group in eps[slot.domain] && slot.id in eps[slot.domain][slot.group]
  }

  function At(eps: EndpointTable, slot: Slot): RegisteredEndpoint
    requires Holds(eps, slot)
  {
    eps[slot.domain][slot.group][slot.id]
  }

  /** One group's endpoints; a group that was never created has none. */
  function GroupOf(eps: EndpointTable, d: DomainID, g: GroupID): map<EndpointID, RegisteredEndpoint> {
    if d in eps && g in eps[d] then eps[d][g] else map[]
  }

  ghost function Flatten(eps: EndpointTable): (flat: map<Slot, RegisteredEndpoint>)
    ensures forall slot :: slot in flat <==> Holds(eps, slot)
    ensures forall slot :: slot in flat ==> flat[slot] == At(eps, slot)
  {
    var slots := set d, g, id | d in eps && g in eps[d] && id in eps[d][g] :: Slot(d, g, id);
    assert forall slot :: Holds(eps, slot) ==> Slot(slot.domain, slot.group, slot.id) in slots;
    map slot | slot in slots :: At(eps, slot)
  }

  ghost function FlattenHints(hints: HintTable): (flat: map<GroupKey, EndpointID>)
    ensures forall k :: k in flat <==> k.domain in hints && k.group in hints[k.domain]
    ensures forall k :: k in flat ==> flat[k] == hints[k.domain][k.group]
  {
    var keys := set d, g | d in hints && g in hints[d] :: GroupKey(d, g);
    assert forall k: GroupKey :: k.domain in hints && k.group in hints[k.domain] ==>
        GroupKey(k.domain, k.group) in keys;
    map k | k in keys :: hints[k.domain][k.group]
  }

  /** Nested update, creating the domain and group maps when absent. */
  function Put(eps: EndpointTable, slot: Slot, ep: RegisteredEndpoint): EndpointTable {
    var groups: map<GroupID, map<EndpointID, RegisteredEndpoint>> :=
      if slot.domain in eps then eps[slot.domain] else map[];
    var group: map<EndpointID, RegisteredEndpoint> := GroupOf(eps, slot.domain, slot.group)[slot.id := ep];
    var groups': map<GroupID, map<EndpointID, RegisteredEndpoint>> := groups[slot.group := group];
    eps[slot.domain := groups']
  }

  lemma PutIsFlatUpdate(eps: EndpointTable, slot: Slot, ep: RegisteredEndpoint)
    ensures Flatten(Put(eps, slot, ep)) == Flatten(eps)[slot := ep]
  {
    var eps', flat := Put(eps, slot, ep), Flatten(eps)[slot := ep];
    forall s ensures Holds(eps', s) <==> s in flat {
      assert Slot(s.domain, s.group, s.id) == s;
    }
    forall s | s in flat ensures At(eps', s) == flat[s] {
    }
  }

  function PutHint(hints: HintTable, d: DomainID, g: GroupID, next: EndpointID): HintTable
    requires d in hints
  {
    var group: map<GroupID, EndpointID> := hints[d][g := next];
    hints[d := group]
  }

  lemma HintIsFlatUpdate(hints: HintTable, d: DomainID, g: GroupID, next: EndpointID)
    requires d in hints
    ensures FlattenHints(PutHint(hints, d, g, next)) == FlattenHints(hints)[GroupKey(d, g) := next]
  {
  }

  lemma EmptyHintDomain(hints: HintTable, d: DomainID)
    requires d !in hints
    ensures FlattenHints(hints[d := map[]]) == FlattenHints(hints)
  {
  }

  lemma GroupKeysAreIDs(eps: EndpointTable, d: DomainID, g: GroupID)
    ensures GroupOf(eps, d, g).Keys == GroupIDs(Flatten(eps), d, g)
  {
  }
}
