/**
 * The token signer (jsonwebtoken with the process-wide secret), seen from
 * outside: a signing function and a verifying function with a clock.
 */
module Tokens {
  import opened Wrappers

  /** A user's `_id`; ObjectIds are modelled as numbers handed out in order. */
  type UserId = nat

  /** The claims a login signs: `{ id, role }`. */
  datatype Claims = Claims(id: UserId, role: string)

  /** `sign(claims, issuedAt, ttlSeconds)` mints a token; `verify(token, now)`
      gives the decoded claims, or `None` where `jwt.verify` throws (bad
      signature, malformed token, expired). */
  datatype Signer = Signer(sign: (Claims, int, nat) -> string, verify: (string, int) -> Option<Claims>)

  /** What the library promises: a token verifies to its claims strictly before
      it expires and not from then on, and a compact token is a non-empty
      string without spaces; an empty token never verifies. */
  ghost predicate Sound(s: Signer) {
    && (forall c: Claims, iat: int, ttl: nat, now: int :: s.verify(s.sign(c, iat, ttl), now) == if now < iat + ttl then Some(c) else None)
    && (forall c: Claims, iat: int, ttl: nat :: s.sign(c, iat, ttl) != "" && ' ' !in s.sign(c, iat, ttl))
    && (forall now: int :: s.verify("", now) == None)
  }

  /** `expiresIn: '1h'`. */
  const LoginTtl: nat := 3600
}
