/** Decision tokens: claims sealed by the PDP, opened again by any PEP that shares the secret. */
module Token {
  import opened Values
  import opened Base64Url
  import opened Sealed

  datatype Claims = Claims(
    subject: string,
    action: string,
    resource: string,
    aal: string,
    resDigest: string,
    correlationId: string,
    issuedAt: int,
    expiresAt: int)

  /** The library functions the codec rests on, left uninterpreted. */
  datatype Primitives = Primitives(
    mac: Hmac,
    sha256: Bytes -> Bytes,
    encodeClaims: Claims -> Bytes,
    decodeClaims: Bytes -> Option<Claims>,
    encodeProps: GoMap -> Bytes)
  {
    /** JSON decodes what it encodes, and no two property maps share a digest. A nil map (`null`) and an empty one
        (`{}`) have different encodings. */
    ghost predicate Sound() {
      && (forall c :: decodeClaims(encodeClaims(c)) == Some(c))
      && (forall a, b :: sha256(encodeProps(a)) == sha256(encodeProps(b)) ==> a == b)
    }
  }

  datatype TokenError = Unsealed(e: SealError) | BadClaims | Expired

  /** Times and durations are in nanoseconds. */
  datatype Issuer = Issuer(secret: Bytes, ttl: int)

  const SECOND: int := 1_000_000_000

  /** `time.Time.Unix`: whole seconds, rounded down. */
  function Unix(t: int): int {
    t / SECOND
  }

  /** `int(ttl.Seconds())`: rounded toward zero. */
  function TtlSeconds(iss: Issuer): int {
    if iss.ttl >= 0 then iss.ttl / SECOND else -(-iss.ttl / SECOND)
  }

  /** The lifetime a response names is the whole seconds of the real one, whatever its sign. */
  lemma TtlIsWholeSeconds(iss: Issuer)
    ensures var s := TtlSeconds(iss);
            && (iss.ttl >= 0 ==> s * SECOND <= iss.ttl < (s + 1) * SECOND)
            && (iss.ttl < 0 ==> (s - 1) * SECOND < iss.ttl <= s * SECOND)
  {}

  function ResourceDigest(p: Primitives, props: GoMap): string {
    Encode(p.sha256(p.encodeProps(props)))
  }

  function Stamped(iss: Issuer, now: int, c: Claims): Claims {
    c.(issuedAt := Unix(now), expiresAt := Unix(now + iss.ttl))
  }

  function Issue(p: Primitives, iss: Issuer, now: int, c: Claims): string {
    Seal(p.mac, iss.secret, p.encodeClaims(Stamped(iss, now, c)))
  }

  function Verify(p: Primitives, iss: Issuer, now: int, tok: string): Result<Claims, TokenError> {
    match Open(p.mac, iss.secret, tok)
    case Err(e) => Err(Unsealed(e))
    case Ok(payload) =>
      match p.decodeClaims(payload)
      case None => Err(BadClaims)
      case Some(c) => if Unix(now) >= c.expiresAt then Err(Expired) else Ok(c)
  }

  /** A minted token opens to its own claims, stamped, for exactly as long as the clock shows an earlier second
      than that of its expiry; after that it is expired and nothing else. */
  lemma VerifyIssued(p: Primitives, minter: Issuer, verifier: Issuer, mintedAt: int, now: int, c: Claims)
    requires p.Sound() && minter.secret == verifier.secret
    ensures Verify(p, verifier, now, Issue(p, minter, mintedAt, c)) ==
            if Unix(now) < Unix(mintedAt + minter.ttl) then Ok(Stamped(minter, mintedAt, c)) else Err(Expired)
  {
    OpenSeal(p.mac, minter.secret, p.encodeClaims(Stamped(minter, mintedAt, c)));
  }

  /** In nanoseconds: never accepted from one TTL on, always accepted until a second before that. */
  lemma ExpiryBounds(p: Primitives, iss: Issuer, mintedAt: int, now: int, c: Claims)
    requires p.Sound()
    ensures now >= mintedAt + iss.ttl ==> Verify(p, iss, now, Issue(p, iss, mintedAt, c)) == Err(Expired)
    ensures now <= mintedAt + iss.ttl - SECOND ==> Verify(p, iss, now, Issue(p, iss, mintedAt, c)).Ok?
  {
    VerifyIssued(p, iss, iss, mintedAt, now, c);
  }

  /** A token is ever accepted, at its minting or later, exactly when its lifetime crosses a whole second. */
  lemma EverAcceptedIff(p: Primitives, iss: Issuer, mintedAt: int, c: Claims)
    requires p.Sound()
    ensures (exists now :: now >= mintedAt && Verify(p, iss, now, Issue(p, iss, mintedAt, c)).Ok?) <==>
            Unix(mintedAt) < Unix(mintedAt + iss.ttl)
  {
    forall now
      ensures Verify(p, iss, now, Issue(p, iss, mintedAt, c)).Ok? <==> Unix(now) < Unix(mintedAt + iss.ttl)
    {
      VerifyIssued(p, iss, iss, mintedAt, now, c);
    }
  }

  /** A 500 ms lifetime starting on a whole second gives a token that is dead on arrival. */
  lemma SubSecondTokenIsNeverAccepted(p: Primitives, secret: Bytes, c: Claims)
    requires p.Sound()
    ensures var iss := Issuer(secret, 500_000_000);
            forall now :: now >= 0 ==> !Verify(p, iss, now, Issue(p, iss, 0, c)).Ok?
  {
    EverAcceptedIff(p, Issuer(secret, 500_000_000), 0, c);
  }

  /** Digests agree exactly when the property maps do, nil and empty told apart. */
  lemma DigestInjective(p: Primitives, a: GoMap, b: GoMap)
    requires p.Sound()
    ensures ResourceDigest(p, a) == ResourceDigest(p, b) <==> a == b
  {
    DecodeEncode(p.sha256(p.encodeProps(a)));
    DecodeEncode(p.sha256(p.encodeProps(b)));
  }

  /** Any accepted string, however it is spelled, carries claims that some Issue under this secret stamped, and its
      body is the very text that Issue produced. */
  lemma AcceptedTokenWasIssued(p: Primitives, iss: Issuer, issued: iset<Claims>, now: int, tok: string)
    requires p.Sound()
    requires Authentic(p.mac, iss.secret, iset c | c in issued :: p.encodeClaims(c), tok)
    requires Verify(p, iss, now, tok).Ok?
    ensures var c := Verify(p, iss, now, tok).value;
            c in issued && Unix(now) < c.expiresAt && exists sig :: tok == Encode(p.encodeClaims(c)) + "." + sig
  {
    OpenOnlySigned(p.mac, iss.secret, iset c | c in issued :: p.encodeClaims(c), tok);
  }
}
