/**
 PASETO v4.public tokens (swarm/paseto.go): pre-authentication encoding, signing, verification.

 Ed25519, JSON and base64url are abstract: Primitives holds one function for each, and Lawful says
 which laws they obey.
 */
module Paseto {
  import opened Common
  import opened SwarmTypes
  import opened LittleEndian

  const HEADER := "v4.public."
  const SIGNATURE_SIZE := 64

  datatype TokenClaims = TokenClaims(
    endpointID: EndpointID,
    domain: DomainID,
    group: GroupID,
    roleFlags: bv8,
    publicKey: Bytes,
    fingerprint: string,
    issuedAt: int,
    expiresAt: int,
    issuer: string)
  {
    function ToSlot(): Slot {
      Slot(domain, group, endpointID)
    }
  }

  /** `sign` signs with the registrar's private key; `registrarKey` is the matching public key. */
  datatype Primitives = Primitives(
    registrarKey: Bytes,
    sign: Bytes -> Bytes,
    verify: (Bytes, Bytes, Bytes) -> bool,
    marshal: TokenClaims -> Bytes,
    unmarshal: Bytes -> Option<TokenClaims>,
    encode: Bytes -> string,
    decode: string -> Option<Bytes>)
  {
    ghost predicate Lawful() {
      && (forall m :: |sign(m)| == SIGNATURE_SIZE && verify(registrarKey, m, sign(m)))
      && (forall c :: unmarshal(marshal(c)) == Some(c))
      && (forall b :: decode(encode(b)) == Some(b))
    }
  }

  datatype TokenError = WrongHeader | BadEncoding | TooShort | BadSignature | BadClaims | Expired

  function LE64(n: nat): (s: Bytes)
    ensures |s| == 8
  {
    LE(n, 8)
  }

  /** The length-prefixed pieces that follow the piece count. */
  function PaeBody(pieces: seq<Bytes>): Bytes {
    if pieces == [] then [] else LE64(|pieces[0]|) + pieces[0] + PaeBody(pieces[1..])
  }

  function Pae(pieces: seq<Bytes>): Bytes {
    LE64(|pieces|) + PaeBody(pieces)
  }

  lemma {:induction false} PaeBodySnoc(pieces: seq<Bytes>, p: Bytes)
    ensures PaeBody(pieces + [p]) == PaeBody(pieces) + LE64(|p|) + p
  {
    if pieces == [] {
      assert (pieces + [p])[1..] == [];
    } else {
      PaeBodySnoc(pieces[1..], p);
      assert (pieces + [p])[1..] == pieces[1..] + [p];
    }
  }

  /** The append loop of `pae`. */
  method BuildPae(pieces: seq<Bytes>) returns (output: Bytes)
    ensures output == Pae(pieces)
  {
    output := LE64(|pieces|);
    for i := 0 to |pieces|
      invariant output == LE64(|pieces|) + PaeBody(pieces[..i])
    {
      PaeBodySnoc(pieces[..i], pieces[i]);
      assert pieces[..i + 1] == pieces[..i] + [pieces[i]];
      output := output + LE64(|pieces[i]|);
      output := output + pieces[i];
    }
    assert pieces[..|pieces|] == pieces;
  }

  /** The examples of section 2.2.1 of draft-paragon-paseto-rfc. */
  lemma PaeExamples()
    ensures Pae([]) == [0, 0, 0, 0, 0, 0, 0, 0]
    ensures Pae([[]]) == [1, 0, 0, 0, 0, 0, 0, 0, 0, 0, 0, 0, 0, 0, 0, 0]
    ensures Pae([ToBytes("test")]) ==
      [1, 0, 0, 0, 0, 0, 0, 0, 4, 0, 0, 0, 0, 0, 0, 0] + [0x74, 0x65, 0x73, 0x74]
  {
    assert LE64(0) == [0, 0, 0, 0, 0, 0, 0, 0];
    SmallLE64(1);
    SmallLE64(4);
    var empty: Bytes := [];
    assert PaeBody([empty]) == LE64(0) + empty + PaeBody([]);
    var test := ToBytes("test");
    assert test == [0x74, 0x65, 0x73, 0x74];
    assert PaeBody([test]) == LE64(4) + test + PaeBody([]);
  }

  lemma SmallLE64(n: Byte)
    ensures LE64(n) == [n, 0, 0, 0, 0, 0, 0, 0]
  {
    assert LE64(n) == [n] + LE(0, 7) && LE(0, 7) == [0] + LE(0, 6) && LE(0, 6) == [0] + LE(0, 5);
    assert LE(0, 5) == [0] + LE(0, 4) && LE(0, 4) == [0, 0, 0, 0];
  }

  const MAX_LEN := 0x8000_0000_0000_0000

  ghost predicate GoSized(pieces: seq<Bytes>) {
    |pieces| < MAX_LEN && forall p :: p in pieces ==> |p| < MAX_LEN
  }

  lemma {:induction false} PaeBodyInjective(a: seq<Bytes>, b: seq<Bytes>)
    requires |a| == |b| && GoSized(a) && GoSized(b)
    requires PaeBody(a) == PaeBody(b)
    ensures a == b
  {
    if a != [] {
      var u, v := PaeBody(a), PaeBody(b);
      assert u[..8] == LE64(|a[0]|) && v[..8] == LE64(|b[0]|);
      Widths();
      Injective(|a[0]|, |b[0]|, 8);
      var n := 8 + |a[0]|;
      assert a[0] == u[8..n] && b[0] == v[8..n];
      assert PaeBody(a[1..]) == u[n..] && PaeBody(b[1..]) == v[n..];
      PaeBodyInjective(a[1..], b[1..]);
      assert a == [a[0]] + a[1..] && b == [b[0]] + b[1..];
    }
  }

  /** Different piece lists never share an encoding, so a signature fixes every piece. */
  lemma PaeInjective(a: seq<Bytes>, b: seq<Bytes>)
    requires GoSized(a) && GoSized(b)
    ensures Pae(a) == Pae(b) <==> a == b
  {
    if Pae(a) == Pae(b) {
      assert Pae(a)[..8] == LE64(|a|) && Pae(b)[..8] == LE64(|b|);
      Widths();
      Injective(|a|, |b|, 8);
      assert Pae(a)[8..] == PaeBody(a) && Pae(b)[8..] == PaeBody(b);
      PaeBodyInjective(a, b);
    }
  }

  /** What a token signature covers. */
  function SignedMessage(message: Bytes): Bytes {
    Pae([ToBytes(HEADER), message, [], []])
  }

  lemma PaeOfFour(a: Bytes, b: Bytes, c: Bytes, d: Bytes)
    ensures Pae([a, b, c, d])
         == (LE64(4) + LE64(|a|) + a + LE64(|b|)) + b + (LE64(|c|) + c + LE64(|d|) + d)
  {
    var empty: seq<Bytes> := [];
    assert PaeBody(empty) == [];
    PaeBodySnoc(empty, a);
    PaeBodySnoc([a], b);
    PaeBodySnoc([a, b], c);
    PaeBodySnoc([a, b, c], d);
    assert empty + [a] == [a] && [a] + [b] == [a, b] && [a, b] + [c] == [a, b, c] && [a, b, c] + [d] == [a, b, c, d];
  }

  lemma SignedMessageInjective(m: Bytes, n: Bytes)
    ensures SignedMessage(m) == SignedMessage(n) <==> m == n
  {
    if SignedMessage(m) == SignedMessage(n) {
      var h, none: Bytes := ToBytes(HEADER), [];
      PaeOfFour(h, m, none, none);
      PaeOfFour(h, n, none, none);
      var u, v := SignedMessage(m), SignedMessage(n);
      assert |u| == 40 + |h| + |m| && |v| == 40 + |h| + |n|;
      var k := 24 + |h|;
      assert m == u[k..k + |m|] && n == v[k..k + |n|];
    }
  }

  function SignToken(p: Primitives, claims: TokenClaims): string {
    var message := p.marshal(claims);
    HEADER + p.encode(message + p.sign(SignedMessage(message)))
  }

  function VerifyToken(p: Primitives, token: string, now: int): Result<TokenClaims, TokenError> {
    if !(HEADER <= token) then Err(WrongHeader)
    else
      match p.decode(token[|HEADER|..])
      case None => Err(BadEncoding)
      case Some(payload) =>
        if |payload| < SIGNATURE_SIZE then Err(TooShort)
        else
          var cut := |payload| - SIGNATURE_SIZE;
          var message, signature := payload[..cut], payload[cut..];
          if !p.verify(p.registrarKey, SignedMessage(message), signature) then Err(BadSignature)
          else
            match p.unmarshal(message)
            case None => Err(BadClaims)
            case Some(claims) => if now > claims.expiresAt then Err(Expired) else Ok(claims)
  }

  /** Verification undoes signing, exactly until the expiry instant has passed. */
  lemma VerifyUndoesSign(p: Primitives, claims: TokenClaims, now: int)
    requires p.Lawful()
    ensures VerifyToken(p, SignToken(p, claims), now)
         == if now > claims.expiresAt then Err(Expired) else Ok(claims)
  {
    var token := SignToken(p, claims);
    var message := p.marshal(claims);
    var payload := message + p.sign(SignedMessage(message));
    assert token[|HEADER|..] == p.encode(payload);
    var cut := |payload| - SIGNATURE_SIZE;
    assert payload[..cut] == message && payload[cut..] == p.sign(SignedMessage(message));
  }

  /**
   A token is the header and then, encoded, the marshalled claims and the signature over four pieces: header,
   claims, no footer, no implicit assertion.
   */
  lemma TokenLayout(p: Primitives, claims: TokenClaims)
    requires p.Lawful()
    ensures var token := SignToken(p, claims);
      && token[..|HEADER|] == "v4.public." && p.decode(token[10..]).Some?
      && var payload := p.decode(token[10..]).value;
         && |payload| >= 64 && payload[..|payload| - 64] == p.marshal(claims)
         && var cut := |payload| - 64;
            payload[cut..] == p.sign(Pae([ToBytes("v4.public."), p.marshal(claims), [], []]))
  {
    var token := SignToken(p, claims);
    var message := p.marshal(claims);
    var payload := message + p.sign(SignedMessage(message));
    assert token[10..] == p.encode(payload);
    var cut := |payload| - 64;
    assert payload[..cut] == message && payload[cut..] == p.sign(SignedMessage(message));
  }

  lemma SignTokenInjective(p: Primitives, c: TokenClaims, d: TokenClaims)
    requires p.Lawful()
    ensures SignToken(p, c) == SignToken(p, d) <==> c == d
  {
    if SignToken(p, c) == SignToken(p, d) {
      var now := if c.expiresAt < d.expiresAt then c.expiresAt else d.expiresAt;
      VerifyUndoesSign(p, c, now);
      VerifyUndoesSign(p, d, now);
    }
  }

  /**
   Unforgeability for one presented token: if its signature verifies under the registrar's key, the
   signed message belongs to some claims the registrar has signed.
   */
  ghost predicate Unforged(p: Primitives, issued: set<TokenClaims>, token: string) {
    forall message, signature ::
      |signature| == SIGNATURE_SIZE
      && HEADER <= token
      && p.decode(token[|HEADER|..]) == Some(message + signature)
      && p.verify(p.registrarKey, SignedMessage(message), signature)
      ==> exists c :: c in issued && SignedMessage(p.marshal(c)) == SignedMessage(message)
  }

  /** A verified token that is not a forgery carries exactly some claims the registrar has signed. */
  lemma VerifiedClaimsWereIssued(p: Primitives, issued: set<TokenClaims>, token: string, now: int)
    requires p.Lawful() && Unforged(p, issued, token)
    requires VerifyToken(p, token, now).Ok?
    ensures VerifyToken(p, token, now).value in issued
  {
    var payload := p.decode(token[|HEADER|..]).value;
    var cut := |payload| - SIGNATURE_SIZE;
    var message, signature := payload[..cut], payload[cut..];
    assert payload == message + signature;
    var c :| c in issued && SignedMessage(p.marshal(c)) == SignedMessage(message);
    SignedMessageInjective(p.marshal(c), message);
  }
}
