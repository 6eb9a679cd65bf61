/** Addresses, roles and lifecycle states of the swarm (swarm/types.go). */
module SwarmTypes {
  import opened Common

  type DomainID = x: int | 0 <= x < 256
  type GroupID = x: int | 0 <= x < 256
  type EndpointID = x: int | 0 <= x < 65536

  const RELAY_DOMAIN: DomainID := 0
  const RELAY_GROUP: GroupID := 0

  const ROLE_CLIENT: bv8 := 0x01
  const ROLE_AGENT: bv8 := 0x02
  const ROLE_RELAY: bv8 := 0x03
  const ROLE_MASK: bv8 := 0x03

  datatype LifecycleState =
    | Unregistered
    | Requesting
    | ChallengeIssued
    | ChallengeResponse
    | Registered
    | Active
    | Pending
    | Denied
    | Revoked

  function RoleOf(flags: bv8): bv8 {
    flags & ROLE_MASK
  }

  function MakeRoleFlags(role: bv8, flags: bv8): bv8 {
    (role & ROLE_MASK) | (flags & !ROLE_MASK)
  }

  predicate ValidRole(role: bv8) {
    role == ROLE_CLIENT || role == ROLE_AGENT || role == ROLE_RELAY
  }

  /** The position of an endpoint in the address space; roles are not part of it. */
  datatype Slot = Slot(domain: DomainID, group: GroupID, id: EndpointID)

  datatype EndpointAddr = EndpointAddr(domain: DomainID, group: GroupID, endpoint: EndpointID, roleFlags: bv8) {
    function Role(): bv8 {
      RoleOf(roleFlags)
    }

    function ToSlot(): Slot {
      Slot(domain, group, endpoint)
    }

    function AddrKey(): string {
      Decimal(domain) + "." + Decimal(group) + "." + Decimal(endpoint)
    }
  }

  /** `%d` for a non-negative number. */
  function Decimal(n: nat): string {
    if n < 10 then [Digit(n)] else Decimal(n / 10) + [Digit(n % 10)]
  }

  function Digit(d: nat): char
    requires d < 10
  {
    "0123456789"[d]
  }

  ghost predicate DotFree(s: string) {
    '.' !in s
  }

  lemma {:induction false} DecimalDotFree(n: nat)
    ensures DotFree(Decimal(n)) && |Decimal(n)| > 0
  {
    if n >= 10 {
      DecimalDotFree(n / 10);
    }
  }

  lemma {:induction false} DecimalInjective(m: nat, n: nat)
    requires Decimal(m) == Decimal(n)
    ensures m == n
  {
    DecimalParts(m);
    DecimalParts(n);
    DigitInjective(m % 10, n % 10);
    if m >= 10 && n >= 10 {
      DecimalInjective(m / 10, n / 10);
    }
  }

  lemma DecimalParts(n: nat)
    ensures var s := Decimal(n);
      |s| > 0 && s[|s| - 1] == Digit(n % 10)
      && (n < 10 ==> s[..|s| - 1] == "") && (n >= 10 ==> s[..|s| - 1] == Decimal(n / 10) && |s| > 1)
  {
    DecimalDotFree(n / 10);
  }

  lemma DigitInjective(a: nat, b: nat)
    requires a < 10 && b < 10 && Digit(a) == Digit(b)
    ensures a == b
  {
  }

  function FirstDot(s: string): nat {
    if s == "" || s[0] == '.' then 0 else 1 + FirstDot(s[1..])
  }

  lemma {:induction false} FirstDotAfter(a: string, s: string)
    requires DotFree(a)
    ensures FirstDot(a + "." + s) == |a|
  {
    if a != "" {
      assert (a + "." + s)[1..] == a[1..] + "." + s;
      FirstDotAfter(a[1..], s);
    }
  }

  lemma SplitAtDot(a: string, b: string, s: string, t: string)
    requires DotFree(a) && DotFree(b)
    requires a + "." + s == b + "." + t
    ensures a == b && s == t
  {
    var u, v := a + "." + s, b + "." + t;
    FirstDotAfter(a, s);
    FirstDotAfter(b, t);
    assert a == u[..|a|] && b == v[..|b|] && s == u[|a| + 1..] && t == v[|b| + 1..];
  }

  /** Two addresses share a reachability or session key exactly when they name the same slot. */
  lemma AddrKeyIdentifiesSlot(a: EndpointAddr, b: EndpointAddr)
    ensures a.AddrKey() == b.AddrKey() <==> a.ToSlot() == b.ToSlot()
  {
    if a.AddrKey() == b.AddrKey() {
      DecimalDotFree(a.domain);
      DecimalDotFree(b.domain);
      DecimalDotFree(a.group);
      DecimalDotFree(b.group);
      var s, t := Decimal(a.group) + "." + Decimal(a.endpoint), Decimal(b.group) + "." + Decimal(b.endpoint);
      assert a.AddrKey() == Decimal(a.domain) + "." + s && b.AddrKey() == Decimal(b.domain) + "." + t;
      SplitAtDot(Decimal(a.domain), Decimal(b.domain), s, t);
      SplitAtDot(Decimal(a.group), Decimal(b.group), Decimal(a.endpoint), Decimal(b.endpoint));
      DecimalInjective(a.domain, b.domain);
      DecimalInjective(a.group, b.group);
      DecimalInjective(a.endpoint, b.endpoint);
    }
  }

  /** The key is the dotted decimal form, without padding. */
  lemma AddrKeyExamples(flags: bv8)
    ensures EndpointAddr(10, 0, 65534, flags).AddrKey() == "10.0.65534"
    ensures EndpointAddr(0, 0, 1, flags).AddrKey() == "0.0.1"
  {
    assert Decimal(10) == "10" && Decimal(0) == "0" && Decimal(1) == "1";
    assert Decimal(65) == "65" && Decimal(655) == "655" && Decimal(6553) == "6553" && Decimal(65534) == "65534";
  }

  /** Role and flags do not disturb each other when packed into one byte. */
  lemma RoleFlagsUnpack(role: bv8, flags: bv8)
    ensures RoleOf(MakeRoleFlags(role, flags)) == role & ROLE_MASK
    ensures MakeRoleFlags(role, flags) & !ROLE_MASK == flags & !ROLE_MASK
    ensures MakeRoleFlags(RoleOf(role), role) == role
  {
  }
}
