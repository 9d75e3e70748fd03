/**
 * The JSON Web Token codec, kept abstract: `generateJWT` and `jwt.verify` are a pair of
 * functions, together with the instant from which a token no longer verifies. `Sound`
 * states an idealised contract of RFC 7519 signing with a symmetric secret and an `exp`
 * claim; `SecondsExpiry` is the whole-second expiry jsonwebtoken computes, which meets it.
 */
module Tokens {
  import opened Wrappers
  import opened Store

  /** `generateJWT(subject, secret, lifeMs)` issued at instant `now` (ms). */
  type Signer = (UserId, string, int, int) -> string

  /** `jwt.verify(token, secret)` at instant `now`: the `userId` claim, or None when it throws. */
  type Verifier = (string, string, int) -> Option<UserId>

  /** The instant (ms) from which a token issued at `issuedAt` with lifetime `life` (ms) is expired. */
  type Expiry = (int, int) -> int

  datatype Codec = Codec(sign: Signer, verify: Verifier, expiry: Expiry)

  /**
   * What the codec promises: a token expires no later than `issuedAt + life` (the `exp`
   * claim may be rounded down); it verifies with its own secret to its subject from
   * `issuedAt` until it expires (section 4.1.4 of RFC 7519: rejected once `now >= exp`),
   * does not verify afterwards, never verifies under another secret, and is a non-empty
   * string without spaces (a JWS compact serialisation is base64url parts joined by dots).
   */
  ghost predicate Sound(c: Codec)
  {
    && (forall issuedAt: int, life: int :: c.expiry(issuedAt, life) <= issuedAt + life)
    && (forall u: UserId, secret: string, life: int, issuedAt: int, now: int ::
          issuedAt <= now < c.expiry(issuedAt, life) ==> c.verify(c.sign(u, secret, life, issuedAt), secret, now) == Some(u))
    && (forall u: UserId, secret: string, life: int, issuedAt: int, now: int ::
          c.expiry(issuedAt, life) <= now ==> c.verify(c.sign(u, secret, life, issuedAt), secret, now) == None)
    && (forall u: UserId, secret: string, other: string, life: int, issuedAt: int, now: int ::
          secret != other ==> c.verify(c.sign(u, secret, life, issuedAt), other, now) == None)
    && (forall u: UserId, secret: string, life: int, issuedAt: int ::
          c.sign(u, secret, life, issuedAt) != "" && ' ' !in c.sign(u, secret, life, issuedAt))
  }

  /**
   * jsonwebtoken's `exp` for `expiresIn`: `iat` is the issue instant floored to seconds and
   * `exp = iat + floor(life / 1000)`; `jwt.verify` rejects once the current second reaches
   * `exp`, that is from the instant `1000 * exp` ms. The token thus expires up to two
   * seconds early, and never late.
   */
  function SecondsExpiry(issuedAt: int, life: int): (e: int)
    ensures e <= issuedAt + life
    ensures issuedAt + life - 2000 < e
    ensures e % 1000 == 0
  {
    (issuedAt / 1000 + life / 1000) * 1000
  }

  /**
   * The cookie attributes shared by both cookies (`COOKIE_OPTIONS`): whether the browser
   * hides the cookie from scripts, and whether cookie-parser signs it, which decides
   * whether it comes back in `req.signedCookies`. The other attributes are not modelled.
   */
  datatype CookieOptions = CookieOptions(httpOnly: bool, signed: bool)

  /**
   * The environment the server reads: secrets, lifetimes already converted by `ms()`,
   * cookie options, and `COOKIE_SECRET`, the secret handed to cookie-parser.
   */
  datatype Config = Config(
    accessSecret: string,
    refreshSecret: string,
    accessLife: int,
    refreshLife: int,
    cookieOptions: CookieOptions,
    cookieSecret: Option<string>)

  /**
   * Whether `res.cookie` can set the cookies: Express refuses a signed cookie when
   * cookie-parser has no secret (`req.secret`), which an unset or empty `COOKIE_SECRET` leaves it.
   */
  predicate CanSetCookies(cfg: Config)
  {
    !cfg.cookieOptions.signed || (cfg.cookieSecret.Some? && cfg.cookieSecret.value != "")
  }
}
