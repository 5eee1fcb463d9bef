/** Signed tokens (golang-jwt v5 with ES256), modelled abstractly. A key pair is named by a
    key id: a token verifies under a public key exactly when it was signed by the private key
    with the same id. Signatures are not modelled as cryptography: the token text is the key id
    and the claims, joined with '.'. The claims are what the JSON payload holds:
    the subject id, the role when the payload has one, and the issue and expiry times in whole
    seconds. */
module Tokens {
  import opened Wrappers
  import opened Text

  datatype Key = Key(kid: nat)

  datatype Payload = Payload(id: int, role: Option<int>, issuedAt: int, expiresAt: int)

  const Alg: string := "ES256"

  const ErrMalformed: string := "token is malformed: could not JSON decode claim"
  const ErrSignature: string := "token signature is invalid: crypto/ecdsa: verification error"
  const ErrExpired: string := "token has invalid claims: token is expired"
  const ErrPrivateKey: string := "signing private key is not correct"
  const ErrPublicKey: string := "token is unverifiable: error while executing keyfunc: signing public key is not correct"

  function RoleText(role: Option<int>): string {
    match role
    case None => ""
    case Some(r) => IntToString(r)
  }

  function ParseRole(s: string): Option<Option<int>> {
    if s == "" then Some(None)
    else match ParseDecimal(s)
      case None => None
      case Some(r) => Some(Some(r))
  }

  function Fields(kid: nat, p: Payload): seq<string> {
    [Alg, NatToString(kid), IntToString(p.id), RoleText(p.role), IntToString(p.issuedAt), IntToString(p.expiresAt)]
  }

  /** token.SignedString(key): the signed text of a payload. */
  function Encode(kid: nat, p: Payload): (token: string)
    ensures |token| > 0
  {
    Join(Fields(kid, p), '.')
  }

  /** The structural part of jwt.Parse: the signing key id and the payload, or None when the
      text is not a token. */
  function Decode(token: string): (r: Option<(nat, Payload)>)
  {
    var parts := Split(token, '.');
    if |parts| != 6 || parts[0] != Alg then None
    else
      match (ParseDecimal(parts[1]), ParseDecimal(parts[2]), ParseRole(parts[3]),
             ParseDecimal(parts[4]), ParseDecimal(parts[5]))
      case (Some(kid), Some(id), Some(role), Some(iat), Some(exp)) =>
        if kid < 0 then None else Some((kid, Payload(id, role, iat, exp)))
      case _ => None
  }

  lemma NoDotInNumber(n: nat)
    ensures '.' !in NatToString(n)
  {
  }

  lemma NoDotInInt(i: int)
    ensures '.' !in IntToString(i)
  {
    if i < 0 {
      NoDotInNumber(-i);
      assert IntToString(i) == "-" + NatToString(-i);
    } else {
      NoDotInNumber(i);
    }
  }

  lemma ParseRoleText(role: Option<int>)
    ensures ParseRole(RoleText(role)) == Some(role)
  {
    if role.Some? {
      ParseDecimalIntToString(role.value);
    }
  }

  /** Decoding a signed token gives back the key id and the payload it was signed with. */
  lemma DecodeEncode(kid: nat, p: Payload)
    ensures Decode(Encode(kid, p)) == Some((kid, p))
  {
    var fs := Fields(kid, p);
    NoDotInNumber(kid);
    NoDotInInt(p.id);
    NoDotInInt(p.issuedAt);
    NoDotInInt(p.expiresAt);
    if p.role.Some? {
      NoDotInInt(p.role.value);
    }
    assert forall i | 0 <= i < |fs| :: '.' !in fs[i];
    SplitJoin(fs, '.');
    ParseDecimalIntToString(kid);
    ParseDecimalIntToString(p.id);
    ParseDecimalIntToString(p.issuedAt);
    ParseDecimalIntToString(p.expiresAt);
    ParseRoleText(p.role);
  }

  /** Signing with the configured private key; a missing or unreadable key is an error. */
  function Sign(p: Payload, privateKey: Option<Key>): Result<string>
  {
    match privateKey
    case None => Err(ErrPrivateKey)
    case Some(k) => Ok(Encode(k.kid, p))
  }

  /** jwt.ParseWithClaims with the configured public key: structure, then the key, then the
      signature, then the claims, where a payload is valid while `now` is before its expiry
      (the issue time is not checked). */
  function Verify(token: string, publicKey: Option<Key>, now: int): (r: Result<Payload>)
    ensures r.Ok? ==> now < r.value.expiresAt
    ensures r.Ok? ==> publicKey.Some? && Decode(token) == Some((publicKey.value.kid, r.value))
  {
    match Decode(token)
    case None => Err(ErrMalformed)
    case Some((kid, p)) =>
      if publicKey.None? then Err(ErrPublicKey)
      else if kid != publicKey.value.kid then Err(ErrSignature)
      else if !(now < p.expiresAt) then Err(ErrExpired)
      else Ok(p)
  }

  /** A token signed with the matching private key verifies exactly until its expiry. */
  lemma VerifySigned(p: Payload, key: Key, now: int)
    ensures Verify(Encode(key.kid, p), Some(key), now) ==
            if now < p.expiresAt then Ok(p) else Err(ErrExpired)
  {
    DecodeEncode(key.kid, p);
  }

  /** A token signed with another key is refused, whatever its claims and the time. */
  lemma VerifyOtherKey(p: Payload, signer: Key, key: Key, now: int)
    requires signer != key
    ensures Verify(Encode(signer.kid, p), Some(key), now) == Err(ErrSignature)
  {
    DecodeEncode(signer.kid, p);
  }
}
