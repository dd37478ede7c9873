/**
 * Signing and verifying JSON web tokens (src/utils/jwt.ts).
 *
 * The RS256 signature is not modelled bit by bit. A `KeyStore` is the pair of
 * the four configured keys seen from outside: `encode` serializes and signs a
 * token with the private key it names, and `decode` parses a string and tells
 * which of the private keys, if any, produced its signature. `Sound` states the
 * one law the rest of the model relies on: decoding what was encoded gives it back.
 */
module Jwt {
  import opened Wrappers
  import opened Bson

  /** `signJwt` accepts only these key names ... */
  datatype PrivateKeyName = AccessTokenPrivateKey | RefreshTokenPrivateKey

  /** ... and `verifyJwt` only these. */
  datatype PublicKeyName = AccessTokenPublicKey | RefreshTokenPublicKey

  /** The private key whose signatures a public key checks. */
  function SigningKeyOf(k: PublicKeyName): PrivateKeyName {
    match k
    case AccessTokenPublicKey => AccessTokenPrivateKey
    case RefreshTokenPublicKey => RefreshTokenPrivateKey
  }

  function VerifyingKeyOf(k: PrivateKeyName): (p: PublicKeyName)
    ensures SigningKeyOf(p) == k
  {
    match k
    case AccessTokenPrivateKey => AccessTokenPublicKey
    case RefreshTokenPrivateKey => RefreshTokenPublicKey
  }

  datatype Algorithm = RS256 | HS256 | NoAlgorithm

  /** The `expiresIn` values the callers use: minutes ("15m") and years ("1y"). */
  datatype Duration = Minutes(minutes: nat) | Years(years: nat)

  /** Length in seconds; the duration parser counts a year as 365.25 days. */
  function Seconds(d: Duration): nat {
    match d
    case Minutes(m) => 60 * m
    case Years(y) => 31557600 * y
  }

  datatype SignOptions = SignOptions(expiresIn: Option<Duration>, algorithm: Option<Algorithm>)

  /** The decoded content of a token: the signed object, its issue time and its expiry, in seconds. */
  datatype Claims = Claims(payload: Object, iat: nat, exp: Option<nat>)

  datatype Token = Token(claims: Claims, algorithm: Algorithm, signedWith: PrivateKeyName)

  datatype KeyStore = KeyStore(encode: Token -> string, decode: string -> Option<Token>)

  /** A compact token is never empty, and decoding gives back what was signed. */
  ghost predicate Sound(keys: KeyStore) {
    forall t :: keys.encode(t) != "" && keys.decode(keys.encode(t)) == Some(t)
  }

  /**
   * The options passed to the library: the caller's options are spread first
   * and `algorithm` is written after them, so it is RS256 whatever the caller asked for.
   */
  function EffectiveOptions(options: Option<SignOptions>): (o: SignOptions)
    ensures o.algorithm == Some(RS256)
    ensures o.expiresIn == (if options.Some? then options.value.expiresIn else None)
  {
    options.GetOr(SignOptions(None, None)).(algorithm := Some(RS256))
  }

  /** The token `jwt.sign` builds at time `now`: `iat` is now, and `exp` is now plus `expiresIn` when given. */
  function Mint(payload: Object, keyName: PrivateKeyName, options: Option<SignOptions>, now: nat): (t: Token)
    ensures t.algorithm == RS256 && t.signedWith == keyName
    ensures t.claims.payload == payload && t.claims.iat == now
    ensures t.claims.exp == (if options.Some? && options.value.expiresIn.Some?
                             then Some(now + Seconds(options.value.expiresIn.value)) else None)
  {
    var o := EffectiveOptions(options);
    var exp := if o.expiresIn.Some? then Some(now + Seconds(o.expiresIn.value)) else None;
    Token(Claims(payload, now, exp), o.algorithm.value, keyName)
  }

  /** `signJwt`. */
  function SignJwt(keys: KeyStore, payload: Object, keyName: PrivateKeyName, options: Option<SignOptions>, now: nat): (token: string)
    ensures Sound(keys) ==> token != "" && keys.decode(token) == Some(Mint(payload, keyName, options, now))
  {
    keys.encode(Mint(payload, keyName, options, now))
  }

  /** A token with no expiry never expires; one with an expiry is accepted strictly before it. */
  predicate Live(c: Claims, now: nat) {
    c.exp.None? || now < c.exp.value
  }

  /**
   * `verifyJwt`: the decoded claims when the token is non-empty, parses, carries
   * an RS256 signature by the private key paired with `keyName` and has not
   * expired; on every other outcome the library throws and the result is `None`.
   */
  function VerifyJwt(keys: KeyStore, token: string, keyName: PublicKeyName, now: nat): (r: Option<Claims>)
    ensures r.Some? ==>
      && keys.decode(token).Some?
      && keys.decode(token).value.signedWith == SigningKeyOf(keyName)
      && keys.decode(token).value.claims == r.value
      && Live(r.value, now)
  {
    if token == "" then None                                   // "jwt must be provided"
    else match keys.decode(token)
      case None => None                                        // malformed, or not signed by our keys
      case Some(t) =>
        if t.signedWith != SigningKeyOf(keyName) then None     // invalid signature
        else if t.algorithm != RS256 then None                 // invalid algorithm
        else if !Live(t.claims, now) then None                 // jwt expired
        else Some(t.claims)
  }

  /** A token we signed verifies, under the paired public key, to exactly its claims until it expires. */
  lemma SignThenVerify(keys: KeyStore, payload: Object, keyName: PrivateKeyName, options: Option<SignOptions>,
                       now: nat, later: nat)
    requires Sound(keys)
    requires Live(Mint(payload, keyName, options, now).claims, later)
    ensures VerifyJwt(keys, SignJwt(keys, payload, keyName, options, now), VerifyingKeyOf(keyName), later)
            == Some(Mint(payload, keyName, options, now).claims)
  {
    var t := Mint(payload, keyName, options, now);
    assert keys.encode(t) != "" && keys.decode(keys.encode(t)) == Some(t);
  }

  /** Access and refresh tokens are not interchangeable: the other public key rejects a token. */
  lemma OtherKeyRejects(keys: KeyStore, payload: Object, keyName: PrivateKeyName, options: Option<SignOptions>,
                        now: nat, later: nat, verifier: PublicKeyName)
    requires Sound(keys)
    requires SigningKeyOf(verifier) != keyName
    ensures VerifyJwt(keys, SignJwt(keys, payload, keyName, options, now), verifier, later) == None
  {
    var t := Mint(payload, keyName, options, now);
    assert keys.decode(keys.encode(t)) == Some(t);
  }

  /** Once its expiry has passed, no token verifies. */
  lemma ExpiredRejected(keys: KeyStore, payload: Object, keyName: PrivateKeyName, options: Option<SignOptions>,
                        now: nat, later: nat, verifier: PublicKeyName)
    requires Sound(keys)
    requires !Live(Mint(payload, keyName, options, now).claims, later)
    ensures VerifyJwt(keys, SignJwt(keys, payload, keyName, options, now), verifier, later) == None
  {
    var t := Mint(payload, keyName, options, now);
    assert keys.decode(keys.encode(t)) == Some(t);
  }
}
