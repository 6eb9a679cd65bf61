# Verification of the swarm broker, relay and tunnel cores

This project models the `swarm` package as one system - enrollment broker, flow controller, relay server,
endpoints, transport selection, tokens - together with two protocol cores of the tunnel: the XOR
connections and the UDP hole punch. `dafny verify dfyconfig.toml` checks it.

How it is laid out:

- **Broker.** `Broker` gives every registrar operation as a function from a state (six tables, and the
  history of signed claims) to the next state and the reply. `BrokerInvariant` proves what every operation
  keeps; `BrokerTheorems` states the consequences for all runs; `BrokerAnswers` says when each operation
  succeeds, why it refuses and what it changes. `Registrar.dfy` is the mutable class with the nested maps, loops
  and branches of the code; each method is proved equal to its function on the flat view of those maps
  (`NestedTables`). `IDAllocator` holds the `uint16` probe arithmetic.
- **Controller.** `FlowRules` is the decision as a function and its isolation theorem over reachable broker
  states; `Controller.dfy` is the class on top of a live registrar.
- **Relay.** `RelayCodec` is the frame codec, `RelayServer` the handlers as interleaved steps (header and
  payload are separate writes that can fail part-way), `RelaySafety` the invariant, `RelayTheorems` what
  receivers and the session table can rely on, `RelayAnswers` what becomes of every frame read.
- **Tokens.** `Paseto` and `LittleEndian`: pre-authentication encoding as in section 2.2.1 of
  draft-paragon-paseto-rfc, framing, and the split at the last 64 bytes.
- **Endpoints.** `Enrollment` puts any number of endpoint objects beside one broker; `Backoff` is the poll
  timer in 64-bit arithmetic; `Discovery` covers ranking, selection and the monitor.
- **Tunnel.** `XorConn` refines the chunked in-place loops to a position-wise XOR; `HolePunch` is the
  two-peer handshake over a network that loses, duplicates and reorders.

## Assumptions

- Request IDs are fresh: a drawn ID names no current record. Random values and the clock are parameters.
- `SignToken` does not fail on the registrar's own claims. A failure would advance `nextID` without storing
  an endpoint, and the density of IDs would be lost.
- `Primitives.Lawful`: signing yields 64 bytes that verify, unmarshalling undoes marshalling, decoding undoes
  encoding (base64url, section 5 of RFC 4648). Nothing else about Ed25519, JSON or base64 is used.
- `Unforged`, per presented token: a signature that verifies under the registrar's key was produced for some
  signed claims. Only the theorems that name it use it.
- Latencies are non-negative and `bestLat + threshold` does not overflow (`Discovery`, where durations are
  integers). `Backoff` does model the 64-bit wrap-around.
- A failed write leaves a connection dead: nothing more is accepted on it.
- Enrollment records, endpoint records and reachability records are values held in maps: no pointer to them
  leaves the registrar. `CreatedAt` and `UpdatedAt` carry no decision and are omitted.
- Each exported registrar method is atomic, as its lock makes it; so are the relay's session-table methods.

## Where the code and its own words differ

- `ConfirmEnrollment`'s comment (swarm/registrar.go:175-177) promises automatic approval for a fingerprint
  registered before. That branch (563-568) is dead in every reachable state: see `BrokerInvariant.NoLiveTwin`.
- `Enroll`'s comment says relays must pass an empty fingerprint; the code accepts any and indexes it
  (`BrokerTheorems.EnrollAcceptedIff`, with the example `RelayFingerprintCounts`).
- `allocateID` looks like a full scan of 1..65534. From a hint of 3 it never tries ID 2, from a hint h of at
  least 4 never h-2 and h-1. It is complete only because reachable groups are dense.
- `AutoEnroll`'s wait is min(p*2^k, 60s) only for p below 2^62 ns: above, the doubling wraps to a negative
  wait (`Backoff.BackoffFormulaIff` is the exact condition).
- `PunchUDP` means to return "timeout punching holes", but the sender has closed `recv_done` (holepunch.go:151)
  when the caller closes it again (229), and it means to report a failed read (184-189), but first asks the
  address that came with it for its text (180), and a failed UDP read comes with none. A call panics exactly
  when its sender gives up or a read fails so while `recv_done` is open (`HolePunch.FinishedCallPanicsIff`), and
  both happen: `TimeoutPanics` after sixty unanswered HELOs, `SilenceAfterOkayPanics` when an OKAY stops the
  sender and no further packet arrives.
- A packet longer than the key leaves exactly its tail unencrypted (`PacketBytes`); the tail still arrives intact.
- The order of the relay list shows in `SelectTransport` in two ways. UseRelay and the latencies depend on it
  exactly in pinned mode when two entries share the pinned key and differ in latency (`SelectionIgnoresOrder`,
  `AmbiguousPinShowsOrder`). RelayAddr depends on it exactly when two entries that may be named have different
  addresses: relays that no other beats, such as two unprobed ones, or entries under the pinned key
  (`AddressDeterminedIff`).
- `PrioritizeRelay` moves one entry to the front exactly when one has the target's key. With several it loses
  all but the last of them (`PrioritizeMovesOrInserts`).

## Model

| member | source | states |
|---|---|---|
| `SwarmTypes.AddrKeyIdentifiesSlot` | swarm/types.go:72-74 | two addresses have the same decimal key if and only if domain, group and endpoint are equal |
| `SwarmTypes.AddrKeyExamples` | swarm/types.go:72-74 | the key is the dotted decimal form without padding, on two examples |
| `SwarmTypes.RoleFlagsUnpack` | swarm/types.go:41-49 | packing a role and flags into one byte loses neither, and repacking a byte is the identity |
| `LittleEndian.DecodeEncode` | swarm/paseto.go:40-44 | reading k little-endian bytes gives back any number that fits in k bytes |
| `LittleEndian.EncodeDecode` | swarm/relay.go:205-211 | writing the number read from any k bytes gives those bytes back |
| `LittleEndian.TwoBytes` | swarm/relay.go:187 | the two bytes of a uint16, low byte first |
| `LittleEndian.FourBytes` | swarm/relay.go:188 | the four bytes of a uint32, lowest first |
| `IDAllocator.Probe` | swarm/registrar.go:646-669 | the `uint16` probing loop, with its wrap and folding, returns the first candidate not taken |
| `IDAllocator.ReachedIffNotSkipped` | swarm/registrar.go:651-658 | for every hint, the probes reach exactly 1..65534 without the one or two IDs just below the hint |
| `IDAllocator.ScanCompleteness` | swarm/registrar.go:651-669 | allocation fails if and only if every ID that is not skipped is taken; success gives a free ID in range |
| `IDAllocator.FreeIDMissed` | swarm/registrar.go:651-669 | a concrete group with ID 2 free and room left where hint 3 makes allocation fail |
| `IDAllocator.DenseScan` | swarm/registrar.go:646-667 | with exactly 1..n taken and the hint just above, the allocation is n+1 |
| `Paseto.BuildPae` | swarm/paseto.go:47-54 | the append loop builds the count followed by each length-prefixed piece |
| `Paseto.PaeExamples` | swarm/paseto.go:47-54 | the encodings that section 2.2.1 of draft-paragon-paseto-rfc gives for no piece, one empty piece, and "test" |
| `Paseto.PaeInjective` | swarm/paseto.go:47-54 | two piece lists (lengths below 2^63) have equal encodings if and only if they are equal |
| `Paseto.SignedMessageInjective` | swarm/paseto.go:63-64 | the signed bytes determine the claims message, for every message |
| `Paseto.TokenLayout` | swarm/paseto.go:57-71 | a token is the literal header, then the encoded claims and 64 signature bytes over header, claims and two empty pieces |
| `Paseto.VerifyUndoesSign` | swarm/paseto.go:57-107 | verifying a signed token gives its claims until the expiry instant has passed, and `Expired` from then on |
| `Paseto.SignTokenInjective` | swarm/paseto.go:57-71 | two tokens are equal if and only if their claims are |
| `Paseto.VerifiedClaimsWereIssued` | swarm/paseto.go:74-107 | a token that verifies and is not forged carries claims the registrar signed |
| `BrokerInvariant.NoLiveTwin` | swarm/registrar.go:563-568 | no live endpoint shares the fingerprint of a record that is not Registered, so the reuse branch is never taken |
| `BrokerInvariant.AllocationInDenseGroup` | swarm/registrar.go:570-608 | in any state satisfying the invariant, registration fails exactly at capacity and otherwise takes the group's count plus one |
| `BrokerInvariant.RegisterKeeps` | swarm/registrar.go:561-609 | registering a record keeps all six tables consistent |
| `BrokerInvariant.EnrollKeeps` | swarm/registrar.go:117-171 | starting an enrollment keeps the invariant |
| `BrokerInvariant.ConfirmKeeps` | swarm/registrar.go:178-219 | answering a challenge, well or badly, keeps the invariant |
| `BrokerInvariant.RevokeKeeps` | swarm/registrar.go:346-357 | revocation keeps the invariant, in particular that every reachable key belongs to an Active endpoint |
| `BrokerInvariant.NextKeeps` | swarm/registrar.go:117-477 | every operation, with any arguments, keeps the invariant |
| `BrokerInvariant.ReachableInv` | swarm/registrar.go:89-477 | the invariant holds after every run of operations from the empty registrar |
| `BrokerTheorems.RecordsMatchEndpoints` | swarm/registrar.go:561-609 | in every run, Registered records and stored endpoints are in one-to-one correspondence, agreeing on address, token, key, fingerprint and role flags |
| `BrokerTheorems.IDsAreDense` | swarm/registrar.go:570-577 | in every run, a group holds exactly IDs 1..n with n at most 65534, the hint is n+1 (absent at 0, 1 when full), and registration fails only at capacity |
| `BrokerTheorems.RelayScanIsComplete` | swarm/registrar.go:511-526 | relays are exactly the endpoints of domain 0, all in group 0, so the scan of that group finds every Active relay and nothing else |
| `BrokerTheorems.FingerprintsAreUnique` | swarm/registrar.go:133-168 | the fingerprint index is a bijection with the records that carry one; at most one endpoint per fingerprint |
| `BrokerTheorems.LookupAgreesWithIndex` | swarm/registrar.go:410-424 | a lookup answers if and only if the key is present, with an Active endpoint at the asked slot and at least one route |
| `BrokerTheorems.PunchCrossesAddresses` | swarm/registrar.go:427-470 | a punch is granted exactly to a matching token with both sides observed; both are Active and each is told the other's observed address |
| `BrokerTheorems.StepFollowsLifecycle` | swarm/registrar.go:178-357 | one operation moves records and endpoints only forward along the lifecycle; only a failed challenge drops a record; no endpoint is removed or overwritten |
| `BrokerTheorems.RunFollowsLifecycle` | swarm/registrar.go:178-357 | the same across any run: endpoints persist but for their state, Registered records are frozen |
| `BrokerTheorems.EnrollAcceptedIff` | swarm/registrar.go:121-131 | exactly which enrollment requests are accepted; a relay may carry a fingerprint or none |
| `BrokerTheorems.RelayFingerprintCounts` | swarm/registrar.go:129-143 | a concrete relay with a fingerprint is enrolled, and a second request under it gets the first one's challenge |
| `BrokerTheorems.EnrollIsIdempotent` | swarm/registrar.go:133-143 | enrolling a known fingerprint returns its record's request and challenge and changes nothing |
| `BrokerTheorems.EnrollStable` | swarm/registrar.go:133-143 | that answer stays the same after any run in which no failed challenge dropped the record |
| `BrokerTheorems.AddressNeverReissued` | swarm/registrar.go:586-608 | two claim sets ever signed for one address are the same claims |
| `BrokerTheorems.TokenBindsOneEndpoint` | swarm/registrar.go:586-608 | a token that verifies and is not forged matches the address, role flags, key and fingerprint of exactly one endpoint, now and, again exactly one, after any further operations |
| `BrokerTheorems.ObserveThenLookup` | swarm/registrar.go:362-378 | an observed address is what a lookup then reports, beside the relay route already there |
| `BrokerTheorems.RelayRouteThenLookup` | swarm/registrar.go:381-407 | a relay route is what a lookup then reports, beside the observed address already there |
| `BrokerTheorems.RoutesAreIndependent` | swarm/registrar.go:346-424 | observing, routing, clearing or revoking one endpoint changes no other endpoint's lookup |
| `BrokerTheorems.ClearThenLookup` | swarm/registrar.go:473-477 | after clearing, the endpoint has neither a lookup result nor a punchable address |
| `BrokerTheorems.PollIsStable` | swarm/registrar.go:226-241 | once Registered, the owner's polls return the same address and token after any run |
| `BrokerTheorems.DenialIsFinal` | swarm/registrar.go:279-292 | after a denial every later poll reports Denied, and neither an approval nor a challenge answer changes anything |
| `BrokerTheorems.ApprovalAdmits` | swarm/registrar.go:261-276 | approval of a pending record succeeds exactly below capacity, stores one endpoint at the next ID, and the owner's poll returns its address and token |
| `BrokerTheorems.RevocationIsFinal` | swarm/registrar.go:346-357 | after revocation, through any later run, the endpoint stays Revoked, has no route and cannot be activated by any token |
| `BrokerTheorems.InfoRefusedIffRevoked` | swarm/registrar.go:529-547 | after an activation and any operations since, the registration info is refused if and only if the endpoint has been revoked meanwhile |
| `BrokerTheorems.PasetoRoundTrips` | swarm/paseto.go:57-107 | the tokens the broker is built on satisfy the round-trip law the enrollment theorem needs |
| `BrokerTheorems.ConfirmAdmits` | swarm/registrar.go:191-215 | a good answer from a new relay or pre-approved endpoint stores one Registered endpoint at the next ID and returns its token |
| `BrokerTheorems.ZeroTouchEnrollment` | swarm/registrar.go:117-343 | enroll, confirm, activate end to end: the token received activates exactly the endpoint just stored, if and only if it has not expired |
| `BrokerAnswers.EnrollExactly` | swarm/registrar.go:117-171 | a valid request under an unused fingerprint adds one ChallengeIssued record with the request's key, fingerprint and flags, and nothing else but its index entry |
| `BrokerAnswers.EnrollRefusal` | swarm/registrar.go:121-131 | each refusal by its exact condition on role bits, key length and fingerprint; a refusal changes nothing |
| `BrokerAnswers.ConfirmWaits` | swarm/registrar.go:209-218 | a good answer from anyone neither a relay nor pre-approved replies Pending and changes that one record to Pending |
| `BrokerAnswers.ConfirmRepeats` | swarm/registrar.go:186-189 | confirming a record past its challenge repeats its status and changes nothing |
| `BrokerAnswers.ConfirmDrops` | swarm/registrar.go:191-197 | a bad answer fails, removes that record and frees its fingerprint, and changes nothing else |
| `BrokerAnswers.ConfirmExactly` | swarm/registrar.go:178-219 | each refusal by its exact condition, capacity included; an automatic admission replies Registered |
| `BrokerAnswers.PollExactly` | swarm/registrar.go:226-241 | a poll is answered if and only if it is signed with the record's key over the ID and its suffix, with that record's status |
| `BrokerAnswers.PreApproveExactly` | swarm/registrar.go:247-258 | stores exactly the mapping given, if and only if the fingerprint is not empty and the domain not reserved |
| `BrokerAnswers.ApproveExactly` | swarm/registrar.go:261-276 | approval succeeds if and only if the record is Pending, the domain not reserved and the group below capacity; a refusal changes nothing |
| `BrokerAnswers.DenyExactly` | swarm/registrar.go:279-292 | denial succeeds if and only if the record is Pending or ChallengeIssued, and changes only that record's state |
| `BrokerAnswers.ActivateExactly` | swarm/registrar.go:318-343 | activation succeeds if and only if the token names this domain, group, ID and role flags and the endpoint is Registered; only its state changes |
| `BrokerAnswers.ActivationIsBound` | swarm/registrar.go:318-343 | over reachable brokers, a token not forged activates only the endpoint it binds by address, flags and key |
| `BrokerAnswers.RevokeExactly` | swarm/registrar.go:346-357 | revocation succeeds if and only if the endpoint is stored, and changes its state and its routes only |
| `BrokerAnswers.InfoExactly` | swarm/registrar.go:529-540 | the registration info is given if and only if the endpoint is Active |
| `BrokerAnswers.ObserveExactly` | swarm/registrar.go:362-378 | observation succeeds if and only if the endpoint is Active, and stores exactly the address and protocol given |
| `BrokerAnswers.SetRelayRouteExactly` | swarm/registrar.go:381-407 | a relay route is stored if and only if the token names the endpoint and it is Active; another endpoint's token is a mismatch |
| `BrokerAnswers.ClearExactly` | swarm/registrar.go:473-477 | only this address's routes go |
| `BrokerAnswers.LookupExactly` | swarm/registrar.go:410-424 | under the invariant a lookup returns exactly what is stored under the key |
| `BrokerAnswers.PunchExactly` | swarm/registrar.go:427-470 | a punch is granted, and each refusal given, by its exact condition on token and observed routes |
| `BrokerAnswers.ObserveThenPunch` | swarm/registrar.go:362-470 | after both sides were observed, the client's token buys each the other's observed address and protocol |
| `BrokerAnswers.TablesTouched` | swarm/registrar.go:117-477 | each table is changed by its own operations only |
| `BrokerAnswers.AdminEnrollment` | swarm/registrar.go:117-343 | enroll, confirm, wait, approve, poll, activate end to end: Pending until approved, then the next ID and a token that activates exactly that endpoint until it expires |
| `NestedTables.PutIsFlatUpdate` | swarm/registrar.go:691-705 | storing into the nested maps changes one slot of the flat table and nothing else |
| `NestedTables.GroupKeysAreIDs` | swarm/registrar.go:672-689 | the innermost map's keys are exactly the IDs of that group |
| `Registration.Registrar.constructor` | swarm/registrar.go:89-106 | a new registrar is the empty state and satisfies the invariant |
| `Registration.Registrar.Enroll` | swarm/registrar.go:117-171 | new tables and reply equal `Broker.Enroll`; the invariant is kept |
| `Registration.Registrar.ConfirmEnrollment` | swarm/registrar.go:178-219 | new tables and reply equal `Broker.Confirm`; the invariant is kept |
| `Registration.Registrar.PollEnrollment` | swarm/registrar.go:226-241 | the reply equals `Broker.Poll`, nothing changes |
| `Registration.Registrar.PreApprove` | swarm/registrar.go:247-258 | new tables and reply equal `Broker.PreApprove`; the invariant is kept |
| `Registration.Registrar.ApproveEnrollment` | swarm/registrar.go:261-276 | new tables and reply equal `Broker.Approve`; the invariant is kept |
| `Registration.Registrar.DenyEnrollment` | swarm/registrar.go:279-292 | new tables and reply equal `Broker.Deny`; the invariant is kept |
| `Registration.Registrar.ActivateEndpoint` | swarm/registrar.go:318-343 | new tables and reply equal `Broker.Activate`; the invariant is kept |
| `Registration.Registrar.RevokeEndpoint` | swarm/registrar.go:346-357 | new tables and reply equal `Broker.Revoke`; the invariant is kept |
| `Registration.Registrar.ObserveEndpoint` | swarm/registrar.go:362-378 | new tables and reply equal `Broker.Observe`; the invariant is kept |
| `Registration.Registrar.SetRelayRoute` | swarm/registrar.go:381-407 | new tables and reply equal `Broker.SetRelayRoute`; the invariant is kept |
| `Registration.Registrar.LookupReachability` | swarm/registrar.go:410-424 | the reply equals `Broker.LookupReachability`, nothing changes |
| `Registration.Registrar.RequestPunch` | swarm/registrar.go:427-470 | the reply equals `Broker.RequestPunch`, each error in the code's order |
| `Registration.Registrar.ClearReachability` | swarm/registrar.go:473-477 | the key is gone, every other table is unchanged, the invariant is kept |
| `Registration.Registrar.ListRelays` | swarm/registrar.go:511-526 | the list holds the address of each Active endpoint of the relay group exactly once |
| `Registration.RelaysListedExactly` | swarm/registrar.go:511-526 | such a list holds exactly the full addresses of Active endpoints in domain 0, group 0, none twice |
| `Registration.Registrar.FullRegistrationInfo` | swarm/registrar.go:529-547 | an Active endpoint gets its own ID and token, the registrar's key and each Active relay once; any other is refused with its reason |
| `Registration.Registrar.FindByFingerprint` | swarm/registrar.go:611-625 | the triple loop finds the live endpoint with a fingerprint, or none exists |
| `Registration.Registrar.GetEndpoint` | swarm/registrar.go:707-714 | the nested lookup is the flat lookup of the slot, present or not |
| `Registration.Registrar.AllocateID` | swarm/registrar.go:641-670 | returns what the scan of the group's IDs returns and moves only that group's hint, only on success |
| `Registration.Registrar.RegisterApproved` | swarm/registrar.go:561-609 | new tables and reply equal `Broker.RegisterApproved`, errors leaving every table as it was |
| `FlowRules.AnyRuleMatches` | swarm/policy.go:29-41 | the allow list allows a flow if and only if some rule matches it |
| `FlowRules.AnyBlocked` | swarm/policy.go:48-57 | a sender is blocked if and only if some listed address names its slot, whatever roles are claimed |
| `FlowRules.FlowAcceptedIff` | swarm/controller.go:89-141 | exactly which flows the rules and policies accept, with no reference to the order of checks |
| `FlowRules.FlowIsolation` | swarm/controller.go:44-141 | over reachable broker states: an accepted flow has a registered sender; towards a relay it hits an Active registered relay; otherwise the sender is registered as a client and the destination is an Active non-relay record of its own domain and group |
| `FlowRules.MessageImpliesFlow` | swarm/controller.go:67-86 | a message is accepted if and only if its flow is and its payload was signed under the token's key |
| `FlowRules.AddingPolicyNarrows` | swarm/controller.go:35-39 | adding a policy removes exactly the non-relay flows it denies |
| `FlowRules.PolicyOrderIrrelevant` | swarm/controller.go:134-138 | acceptance depends only on the set of policies |
| `FlowRules.AllowListExactly` | swarm/policy.go:29-41 | an allow list allows a flow if and only if some rule's four optional conditions all hold |
| `FlowRules.DenyEndpointExactly` | swarm/policy.go:48-57 | a deny list refuses a flow if and only if it names the sender's slot |
| `FlowRules.FlowAcceptedExactly` | swarm/controller.go:44-141 | a flow is accepted if and only if the token opens to the sender's four fields, the destination is Active, and the relay rule or the client, agent, same-group and policy rules hold |
| `FlowRules.MessageAcceptedExactly` | swarm/controller.go:67-86 | the same for a message, together with a good payload signature under the token's key |
| `FlowRules.StoredTokenOpensFlows` | swarm/controller.go:44-141 | over reachable brokers, the token sealed for a stored client opens flows to an Active agent of its group exactly until it expires |
| `Control.Controller.ValidateFlow` | swarm/controller.go:44-60 | equals `FlowRules.ValidateFlow` on the registrar's current state |
| `Control.Controller.VerifyMessage` | swarm/controller.go:67-86 | equals `FlowRules.VerifyMessage` on the registrar's current state |
| `Control.Controller.CheckFlowRules` | swarm/controller.go:89-141 | equals `FlowRules.CheckFlowRules`, reporting the first policy that denies |
| `RelayCodec.FrameRoundTripIff` | swarm/relay.go:182-225 | a written frame followed by any bytes reads back as itself if and only if its payload is at most 2^20 bytes |
| `RelayCodec.HeaderLayout` | swarm/relay.go:183-188 | the nine header bytes: type, domain, group, endpoint and payload length, low byte first |
| `RelayCodec.OversizedRefused` | swarm/relay.go:213-215 | a length above 2^20 is refused as such, whatever follows the header |
| `RelayCodec.DecodeInvertsEncode` | swarm/relay.go:199-225 | whatever reads successfully re-encodes to exactly the bytes consumed |
| `RelayCodec.PartialFrameUnreadable` | swarm/relay.go:199-225 | a frame cut short at any byte is not read |
| `RelayCodec.StreamRoundTrip` | swarm/relay.go:182-225 | any list of readable frames, concatenated and followed by any tail, decodes to that list and then to what the tail decodes to |
| `RelayCodec.ReadBytesReEncode` | swarm/relay.go:199-225 | any byte stream is the encodings of the frames read from it followed by an unreadable rest |
| `RelayCodec.WriteFrame` | swarm/relay.go:182-197 | the buffer-filling writer sends the header bytes and then the payload |
| `RelayCodec.ReadFrame` | swarm/relay.go:199-225 | the reader returns what `Decode` returns and on success consumes exactly one frame |
| `RelayCodec.WriteDataFrame` | swarm/relay.go:236-244 | sends the encoding of a data frame naming the destination |
| `RelayServer.SessionTable.Remove` | swarm/relay.go:153-159 | removes the entry if and only if it is this very session |
| `RelayServer.SessionTable.Perform` | swarm/relay.go:71-72 | adding a session, dropping a failed target and the deferred removal change the map as the corresponding steps change the table |
| `RelayServer.SessionTable.Route` | swarm/relay.go:264-277 | the lookup decides between NoRoute and forwarding as the step does, with the sender's token address in the header |
| `RelaySafety.StepKeepsInv` | swarm/relay.go:61-112 | every step of every handler keeps the relay's invariant |
| `RelaySafety.ReachableInv` | swarm/relay.go:61-112 | the invariant holds in every interleaving |
| `RelayTheorems.ReceiverRecoversLog` | swarm/relay.go:65-112 | on a connection with no NoRoute reply, the receiver's reader recovers exactly the frames finished, in mutex order: one AuthOK and then answers, or a lone AuthFail; the rest is at most one unfinished frame whose writer holds the mutex while the connection lives |
| `RelayTheorems.SentFramesAnswerInputs` | swarm/relay.go:264-286 | every later frame answers one frame read by an authenticated handler: pings echo to their own connection, data reaches the session under the destination's key with the sender's token address in the header |
| `RelayTheorems.DeliveredOnceInOrder` | swarm/relay.go:80-107 | no input is answered twice on any connection, and one sender's frames arrive in the order read |
| `RelayTheorems.DeliveredIffLogged` | swarm/relay.go:264-286 | an input counts as delivered on a connection if and only if that connection's log of whole frames holds its answer |
| `RelayTheorems.TableHoldsLatestSession` | swarm/relay.go:147-165 | a key is present if and only if the latest session added for it has neither run its deferred removal nor been removed after a failed delivery, and the entry is that session under its own token's key |
| `RelayTheorems.MutexExcludes` | swarm/relay.go:278-280 | two handlers are never inside one session's critical section |
| `RelayTheorems.NoDeadlock` | swarm/relay.go:61-112 | in every interleaving, a handler that is not closed can take a step of its own, or waits for a mutex whose holder can |
| `RelayTheorems.HolderReleases` | swarm/relay.go:278-280 | every step of a mutex holder, failed writes included, brings it closer to the release, at most three steps away |
| `RelayTheorems.ForwardedFrameNamesRegisteredSender` | swarm/relay.go:123-145 | with tokens not forged, the header of a forwarded data frame names an endpoint record of the broker |
| `RelayAnswers.EveryFrameHasOneFate` | swarm/relay.go:75-111 | in every interleaving each frame read has exactly one fate: answered whole, of an ignored kind, refused because no session was connected under its destination when looked up, its write failed, or still in hand |
| `RelayAnswers.AuthExactly` | swarm/relay.go:123-145 | a connection is accepted if and only if its first frame is an auth frame whose payload is a valid token |
| `RelayAnswers.ReadExactly` | swarm/relay.go:75-111 | a failed read ends the loop, a ping is echoed on its own connection, data is routed to its destination, the rest is ignored |
| `RelayAnswers.LookupExactly` | swarm/relay.go:264-285 | in every reachable state a data frame goes to the session in the table under its destination's key, naming the sender as its token does, or is refused if there is none |
| `RelayAnswers.UnlockExactly` | swarm/relay.go:87-107 | after a whole frame the handler reads on; a failed echo ends its loop, a failed forward drops the target |
| `RelayAnswers.JoinAndLeave` | swarm/relay.go:61-78 | a session enters the table under its own address; the loop is left only by a failed read or a failed echo |
| `RelayAnswers.RefusalNamesDestination` | swarm/relay.go:171-178 | in every reachable state the reply to a refused data frame is the nine bytes that repeat that frame's destination |
| `RelayAnswers.PingIsEchoed` | swarm/relay.go:81-92 | from any reachable state a ping on a live free connection can be answered in full, leaving all else as it was |
| `RelayAnswers.DataIsForwarded` | swarm/relay.go:94-107 | from any reachable state a data frame to a connected endpoint can be written in full to it under the sender's address, leaving all else as it was |
| `RelayAnswers.ValidTokenConnects` | swarm/relay.go:61-72 | whoever presents a valid token can be connected: nine bytes say so and the table holds the new session |
| `RelayAnswers.TwoEndpointsTalk` | swarm/relay.go:61-112 | from any reachable state two endpoints connect and one reaches the other: the exact bytes received |
| `XorConn.XorCancels` | crypt.go:25-55 | mixing in a second key byte undoes a first one if and only if they are equal |
| `XorConn.XorIsBitwise` | crypt.go:31 | the mixing is the machine's XOR of the two bytes |
| `XorConn.BitsDetermineByte` | crypt.go:31 | the model's bit form of a byte and the byte determine each other |
| `XorConn.StreamByte` | crypt.go:25-55 | byte i of a chunk at position p is mixed with key byte (p + i) mod L |
| `XorConn.NoKeyNoChange` | crypt.go:25-55 | with an empty key the data passes unchanged |
| `XorConn.IndexIsMod` | crypt.go:34-35 | the key index used at stream position p is p modulo the key length |
| `XorConn.IndexAdvances` | crypt.go:34-35 | within one pass over the key the index follows the position, and returns to 0 at its end |
| `XorConn.XorStream` | crypt.go:25-55 | the chunked loop XORs the byte at position p with key[p mod L], leaves the rest, ends at the index of the next position, and terminates |
| `XorConn.XorAtInvolutive` | crypt.go:25-55 | decrypting at the position of encryption restores the data |
| `XorConn.PositionsMustAgree` | crypt.go:25-55 | decrypting at another position restores the data if and only if the two key streams agree over its length |
| `XorConn.SplitIrrelevant` | crypt.go:25-55 | successive calls on any chunks produce what one call on their concatenation would |
| `XorConn.PeerRecoversPlaintext` | crypt.go:25-55 | whatever the splits into full writes and into reads, decrypting chunk by chunk gives the exact prefix of the plaintext |
| `XorConn.Converse` | crypt.go:25-55 | two connection objects with one key, their full writes, the network and short reads interleaved in any way: what was read is always a prefix of what was written, and all of it once everything has arrived and been read |
| `XorConn.EConnXor.Read` | crypt.go:25-40 | the delivered bytes decrypted at the read position, the rest of the buffer untouched, the position moved by the count |
| `XorConn.EConnXor.Write` | crypt.go:41-55 | the whole buffer encrypted in place at the write position, the accepted prefix sent, the position moved past every byte |
| `XorConn.PacketRoundTrip` | crypt.go:103-111 | a packet of any length is recovered; bytes beyond the key's length travel unchanged |
| `XorConn.PacketBytes` | crypt.go:103-111 | byte i of a packet is mixed with key[i] if and only if the key is that long; all other bytes travel unchanged |
| `XorConn.EPacketConnXor.ReadFrom` | crypt.go:103-107 | the received part is decrypted from the key's start, the rest of the buffer untouched |
| `XorConn.EPacketConnXor.WriteTo` | crypt.go:108-111 | the packet is encrypted from the key's start and sent whole |
| `HolePunch.StepKeepsInv` | holepunch.go:132-238 | every action of either peer, a failed read with or without an address included, under any network behaviour, keeps the invariant |
| `HolePunch.SuccessMeansBothHeard` | holepunch.go:160-239 | if a peer's call succeeded, each peer received a HELO that the other sent |
| `HolePunch.WaitGroupCountsOwedDones` | holepunch.go:132-228 | the WaitGroup counter is exactly the number of Done calls still to come, never negative, and 0 once Wait has returned |
| `HolePunch.OkayAnswersHelo` | holepunch.go:211-218 | an OKAY on the wire means its sender received a HELO that was sent |
| `HolePunch.FinishedCallPanicsIff` | holepunch.go:148-238 | a finished call has panicked if and only if its sender ran out of tries or a read failed without an address while `recv_done` was open |
| `HolePunch.FailedReadIsFatal` | holepunch.go:174-180 | after such a read the panic is the only step the receiver has left, whatever else the peer does first |
| `HolePunch.TimeoutPanics` | holepunch.go:140-229 | a reachable run of sixty unanswered HELOs that ends in the panic |
| `HolePunch.SilenceAfterOkayPanics` | holepunch.go:174-182 | a reachable run in which an OKAY stops the sender, nothing else arrives, and the failed read panics although the sender did not give up |
| `HolePunch.StoppedReceiverFreesSender` | holepunch.go:137-199 | in every reachable state, once the receiver has stopped, a waiting sender is cancelled and can return at once |
| `HolePunch.BothCanSucceed` | holepunch.go:132-239 | a reachable run of two HELOs and two OKAYs in which both calls return success |
| `Discovery.BeforeIsStrictWeakOrder` | swarm/discovery.go:133-142 | the comparator is a strict weak order with 0 as infinity, ties being exactly equal latencies |
| `Discovery.RankRelays` | swarm/discovery.go:130-144 | the result is a permutation of the relays in comparator order |
| `Discovery.BeforeExactly` | swarm/discovery.go:133-142 | a relay goes first if and only if it is probed and the other is not, or slower |
| `Discovery.RankedExactly` | swarm/discovery.go:130-144 | in a ranking probed relays come first, by latency, and unprobed ones last |
| `Discovery.FirstProbedIsLeast` | swarm/discovery.go:161-172 | on any ranking, the first probed entry has the least positive latency |
| `Discovery.BestIsLeastPositive` | swarm/discovery.go:161-172 | there is a best relay if and only if there is a relay, and it has the least positive latency when any is positive |
| `Discovery.BestIffLeast` | swarm/discovery.go:161-172 | the relays bestRelay may return, over all orders and tie-breaks, are exactly those with the least positive latency, or those no other beats when none is positive |
| `Discovery.BestRelay` | swarm/discovery.go:161-172 | the loop returns a best relay of some ranking |
| `Discovery.SelectTransport` | swarm/discovery.go:29-104 | the decision is one the selection rules give for some best relay |
| `Discovery.RelayModeDecides` | swarm/discovery.go:67-74 | relay mode, and pinned mode without a pin, always relays: a least entry with its own latency, or no address and 0 |
| `Discovery.PinnedModeDecides` | swarm/discovery.go:44-64 | a pin is relayed through a listed entry of its key with its latency, or as given with latency 0 |
| `Discovery.PeerModeDecides` | swarm/discovery.go:29-41 | peer mode, and any other, never relays and reports the given latency |
| `Discovery.DynamicModeDecides` | swarm/discovery.go:77-104 | dynamic mode weighs a least entry against peer-to-peer: which is used, and both latencies reported |
| `Discovery.SelectionIgnoresOrder` | swarm/discovery.go:29-104 | permuting the relays, or breaking ties differently, changes neither UseRelay nor the two latencies, unless the pin is ambiguous |
| `Discovery.AmbiguousPinShowsOrder` | swarm/discovery.go:44-64 | with an ambiguous pin two orders of the same relays report different latencies |
| `Discovery.AddressDeterminedIff` | swarm/discovery.go:29-104 | in every mode, RelayAddr is the same for all orders and tie-breaks if and only if all entries that may be named share one address |
| `Discovery.DynamicUsesRelayIff` | swarm/discovery.go:77-104 | dynamic mode relays if and only if a relay exists and peer-to-peer is unmeasured or slower by more than the threshold, and then names a listed relay with its latency |
| `Discovery.PrioritizeRelay` | swarm/discovery.go:108-126 | the loop returns the last entry under the target's key, or a new unprobed one, followed by all other entries in order |
| `Discovery.PrioritizeMovesOrInserts` | swarm/discovery.go:108-126 | the result is one order-keeping move to the front if and only if exactly one entry has the key, one insertion if and only if none has, and shorter than the input if and only if several have |
| `Discovery.LastMatchLeads` | swarm/discovery.go:108-126 | the last entry under the target's key leads the result |
| `Discovery.RestKeepsOrder` | swarm/discovery.go:108-126 | behind it come exactly the entries under other keys, in their old order |
| `Discovery.ProbeRelays` | swarm/discovery.go:148-159 | the result ranks the relays with fresh latencies, 0 for failed probes |
| `Discovery.ProbedExactly` | swarm/discovery.go:150-157 | a failed probe gives latency 0, a successful one the measured latency, at the same address |
| `Discovery.ReportsAlternate` | swarm/discovery.go:263-281 | the UseRelay values reported strictly alternate, and their count says what the latest decision is |
| `Discovery.TransportMonitor.Evaluate` | swarm/discovery.go:263-281 | one round re-ranks, decides, stores both, reports exactly a change of UseRelay when there is a callback, and keeps the alternation starting with true |
| `Enrollment.AgreementStable` | swarm/endpoint.go:91-124 | no broker operation upsets a client that holds its record's address and token |
| `Enrollment.ReachableSystemInv` | swarm/endpoint.go:69-235 | agreement holds for every client in every interleaving of clients, admins and other callers |
| `Enrollment.ClientsAgreeWithBroker` | swarm/endpoint.go:69-235 | a client in Registered or Active holds exactly its request record's address and token, stored at that endpoint; an Active client's endpoint has been activated |
| `Enrollment.ClientEnrollsUnattended` | swarm/endpoint.go:69-209 | a relay or pre-approved endpoint is Registered at the next address when it answers, and Active when it activates before expiry |
| `Enrollment.ClientEnrollsByApproval` | swarm/endpoint.go:69-209 | any other becomes Pending, stays so under polls, and after an approval its poll registers it and it can activate |
| `Enrollment.RefusalsSendBack` | swarm/endpoint.go:69-209 | calls in a wrong state change nothing; a refused enrollment or challenge sends the client back to Unregistered; a refused poll or activation leaves it |
| `Enrollment.PollReportsDecision` | swarm/endpoint.go:111-124 | the client that polls takes over its record's denial, waiting or address and token, and nothing before a decision |
| `Enrollment.Endpoint.Enroll` | swarm/endpoint.go:69-88 | endpoint fields, broker state and reply equal the pure step |
| `Enrollment.Endpoint.ConfirmEnrollment` | swarm/endpoint.go:91-108 | endpoint fields, broker state and reply equal the pure step |
| `Enrollment.Endpoint.Poll` | swarm/endpoint.go:111-124 | endpoint fields and reply equal the pure step, the broker unchanged |
| `Enrollment.Endpoint.Activate` | swarm/endpoint.go:199-209 | endpoint fields, broker state and reply equal the pure step up to the broker's answer |
| `Enrollment.Endpoint.FetchInfo` | swarm/endpoint.go:211-217 | the registrar's key and each Active relay once are stored, or the refusal is returned and nothing changes |
| `Enrollment.Endpoint.Apply` | swarm/endpoint.go:221-235 | the fields a status changes, for each status |
| `Backoff.DoublingUntilCapped` | swarm/endpoint.go:185-191 | after k pending polls from an interval p below 2^62 ns the wait is min(p*2^k, 60s) |
| `Backoff.BackoffFormulaIff` | swarm/endpoint.go:160-191 | that formula holds for all k if and only if p is below 2^62 ns |
| `Backoff.PollLoop` | swarm/endpoint.go:159-195 | the first wait is the given interval, or 5s if it is not positive; every wait is the interval after the pending answers so far; the loop ends at the first error, Registered or Denied with that outcome |

## Left out

- Sockets, KCP, smux, dialers, TTL and deadline calls, tickers and sleeps: I/O and library plumbing.
- Command line, configuration loading, DNS and machine-ID derivation: flag, file and operating-system glue.
- SOCKS5 (`s5/`): mostly library formatting.
- Key derivation in `NewEConn` and `NewEPacketConn`: the key is any byte string, the empty one included.
- `EPacketConnXor.Read` and `EPacketConnXor.Write` of the source: the same XOR as `ReadFrom` and `WriteTo` behind a type assertion.
- `ListPending`, `ListEndpoints`, `GetEndpointInfo`, `SessionCount`: single scans or copies of modelled tables.
- Enrollment.Endpoint.Activate: does not include the fetch of the registration info that ends the source's method. `FetchInfo` is that part, since the broker's lock is free between the two; `BrokerTheorems.InfoRefusedIffRevoked` says when it fails.
- `Discover` and `StopMonitor`: compositions of modelled functions; the endpoint's cached decision may differ from its monitor's, so nothing is claimed of it.
- `MeshRouter`: a stub that delivers locally.
- RelayTheorems.ReceiverRecoversLog: says nothing of connections that got a NoRoute reply, because `writeNoRoute` does not take the session mutex and can land inside another handler's frame.
- HandleConn: modelled as steps over values, one per lock operation, read or write, since its goroutines interleave; the in-place session map is `RelayServer.SessionTable`.
- HolePunch: `PunchUDP` is modelled as steps over values for the same reason. Packets from other addresses and short ones are no step, read deadlines are not timed (a read may fail whenever the receiver waits), and a failed read may come with or without an address.
- Liveness beyond the relay's freedom from deadlock: a delivery, an enrollment and a hole punch that succeeds on both sides are shown possible, not inevitable.
- Discovery.RankRelays: insertion stands in for the library's sort; every theorem about rankings holds for any sorted permutation.
- Discovery.TransportMonitor.Evaluate: does not model the ticker or a concurrent reader of the current decision.
- FlowRules.FlowIsolation: does not say that the destination is registered as an agent, since the controller reads that role from the address it is given.
- BrokerTheorems.TokenBindsOneEndpoint: does not say that the key is the presenting client's own, since a second endpoint with the same fingerprint receives the existing record.
- Errors carry a kind, not the message text.
