/**
 * Session tokens (backend/src/helpers/generateToken.js and the `jwt.verify`
 * calls that check them). Signatures are not modelled: a token is either one
 * the server signed, carrying a user id and an absolute expiry, or anything
 * else a client may present (malformed text, a bad signature).
 */
module Session {
  import opened Wrappers

  /** A user's document id (a MongoDB ObjectId, as text). */
  type UserId = string

  /** Times are milliseconds since the epoch. */
  const DayMs: nat := 24 * 60 * 60 * 1000

  /** `expiresIn: "30d"`; the cookie that carries the token lives as long. */
  const SessionLifetimeMs: nat := 30 * DayMs

  /**
   * The text of a cookie that is present: an empty `token` cookie is falsy
   * and counts as no cookie at all.
   */
  type CookieText = s: string | s != "" witness "?"

  datatype SessionToken =
    | Signed(id: UserId, expiresAt: nat)
    | Forged(raw: CookieText)

  /**
   * `jwt.verify`: the id a token carries, or None when the token is not one
   * the server signed or has expired (a token is expired from its expiry on).
   */
  function Verify(token: SessionToken, now: nat): (r: Option<UserId>)
    ensures r.Some? <==> token.Signed? && now < token.expiresAt
    ensures r.Some? ==> r.value == token.id
  {
    match token
    case Signed(id, expiresAt) => if now < expiresAt then Some(id) else None
    case Forged(_) => None
  }

  /** `generateToken(id)`: a signed token for `id` that verifies for thirty days. */
  function Issue(id: UserId, now: nat): (token: SessionToken)
    ensures forall later: nat :: later < now + SessionLifetimeMs ==> Verify(token, later) == Some(id)
    ensures forall later: nat :: later >= now + SessionLifetimeMs ==> Verify(token, later) == None
  {
    Signed(id, now + SessionLifetimeMs)
  }
}
