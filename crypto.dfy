/**
 * Idealised bcrypt and JSON Web Tokens. A digest and a token are values that
 * carry what the real primitives guarantee: a digest matches exactly the
 * password it was made from, and a token verifies only under the secret that
 * signed it and only before it expires.
 */
module Crypto {
  import opened Wrappers

  /** A bcrypt digest. The type is not `string`, so a stored digest is never a plaintext password. */
  datatype Digest = Bcrypt(salt: nat, image: string)

  /** `bcrypt.hash(password, salt)`. */
  function Hash(password: string, salt: nat): (d: Digest)
    ensures d.salt == salt
  {
    Bcrypt(salt, password)
  }

  /** `bcrypt.compare(password, digest)`. */
  predicate Matches(password: string, d: Digest) {
    d.image == password
  }

  /** A digest matches the password it was made from, and no other. */
  lemma HashMatchesOnlyItsPassword(password: string, other: string, salt: nat)
    ensures Matches(password, Hash(password, salt))
    ensures Matches(other, Hash(password, salt)) ==> other == password
  {
  }

  /**
   * The payload fields the services read back: `id` (written by the
   * access/refresh/reset tokens of the service layer), `userId` and `email`.
   */
  datatype Claims = Claims(id: Option<string>, userId: Option<string>, email: Option<string>)

  /** A token as the client holds it: a signed payload, or any other text. */
  datatype Token = Jwt(claims: Claims, secret: string, expiresAt: int) | Garbled(text: string)

  datatype JwtError = JsonWebTokenError | TokenExpiredError

  /** `jwt.sign(claims, secret, { expiresIn: ttl })` at time `now` (seconds). */
  function Sign(claims: Claims, secret: string, now: int, ttl: nat): (t: Token)
    ensures t.Jwt? && t.claims == claims && t.expiresAt == now + ttl
  {
    Jwt(claims, secret, now + ttl)
  }

  /** `jwt.verify(token, secret)` at time `now`: it throws unless the token is ours and unexpired. */
  function Verify(t: Token, secret: string, now: int): (r: Result<Claims, JwtError>)
    ensures r.Success? <==> t.Jwt? && t.secret == secret && now < t.expiresAt
    ensures r.Success? ==> r.value == t.claims
    ensures r == Failure(TokenExpiredError) <==> t.Jwt? && t.secret == secret && now >= t.expiresAt
  {
    if t.Jwt? && t.secret == secret then
      if now < t.expiresAt then Success(t.claims) else Failure(TokenExpiredError)
    else Failure(JsonWebTokenError)
  }

  /** What is signed verifies, under the same secret, until it expires. */
  lemma VerifySigned(claims: Claims, secret: string, other: string, issued: int, ttl: nat, now: int)
    ensures issued <= now < issued + ttl ==> Verify(Sign(claims, secret, issued, ttl), secret, now) == Success(claims)
    ensures other != secret ==> Verify(Sign(claims, secret, issued, ttl), other, now).Failure?
  {
  }
}
