/**
 * backend/src/middleware/authMiddlewares.js: `protect` resolves the caller
 * from the `token` cookie or answers 401; three gates then pass a request
 * on or answer 403.
 */
module AuthMiddlewares {
  import opened Wrappers
  import opened Session
  import opened AuthModel
  import AuthSpec

  const NoTokenMessage: string := "Not authorized, no token"
  const UserNotFoundMessage: string := "Not authorized, user not found"
  const TokenFailedMessage: string := "Not authorized, token failed"

  /**
   * How the `try` block of `protect` ends: with the caller's document, with
   * the error `jwt.verify` throws (its text is the library's and is never
   * shown), or with the block's own error.
   */
  datatype Attempt = Loaded(user: PublicUser) | VerifyFailed | Thrown(message: string)

  /** The `try` block: `jwt.verify`, then `User.findById(decoded.id).select("-password")`. */
  function TryResolve(token: SessionToken, users: map<UserId, User>, now: nat): (r: Attempt)
    ensures r.Loaded? <==> Verify(token, now).Some? && Verify(token, now).value in users
    ensures r.Loaded? ==> r.user == View(users[Verify(token, now).value])
    ensures r == Thrown(UserNotFoundMessage) <==> Verify(token, now).Some? && Verify(token, now).value !in users
  {
    match Verify(token, now)
    case None => VerifyFailed
    case Some(id) => if id in users then Loaded(View(users[id])) else Thrown(UserNotFoundMessage)
  }

  datatype Resolution = Authenticated(user: PublicUser) | Unauthorized(message: string)

  /**
   * What `protect` decides for a request carrying `cookie`. Every error of
   * the `try` block, including its own "user not found", is replaced by the
   * `catch` block's "token failed".
   */
  function Authenticate(cookie: Option<SessionToken>, users: map<UserId, User>, now: nat): (r: Resolution)
    ensures r.Authenticated? <==>
      cookie.Some? && Verify(cookie.value, now).Some? && Verify(cookie.value, now).value in users
    ensures r.Authenticated? ==> r.user == View(users[Verify(cookie.value, now).value])
    ensures cookie.None? ==> r == Unauthorized(NoTokenMessage)
    ensures cookie.Some? && r.Unauthorized? ==> r.message == TokenFailedMessage
  {
    match cookie
    case None => Unauthorized(NoTokenMessage)
    case Some(token) =>
      match TryResolve(token, users, now)
      case Loaded(u) => Authenticated(u)
      case VerifyFailed => Unauthorized(TokenFailedMessage)
      case Thrown(_) => Unauthorized(TokenFailedMessage)
  }

  /** A forged token, an expired token and a token for a deleted user are refused alike. */
  lemma TokenFailuresLookAlike(users: map<UserId, User>, now: nat, raw: CookieText, id: UserId, expiresAt: nat, gone: UserId)
    requires expiresAt <= now
    requires gone !in users
    ensures Authenticate(Some(Forged(raw)), users, now) == Unauthorized(TokenFailedMessage)
    ensures Authenticate(Some(Signed(id, expiresAt)), users, now) == Unauthorized(TokenFailedMessage)
    ensures Authenticate(Some(Issue(gone, now)), users, now) == Unauthorized(TokenFailedMessage)
  {
  }

  /** A request and its response as the middleware sees them. */
  class Exchange {
    /** `req.cookies.token`; `None` when absent or empty. */
    const cookie: Option<SessionToken>
    /** `req.user` */
    var user: Option<PublicUser>
    /** `res.statusCode` */
    var status: nat
    /** The error thrown to the error handler, if any. */
    var error: Option<string>
    /** How many times `next()` was called. */
    var nextCalls: nat

    constructor (cookie: Option<SessionToken>)
      ensures this.cookie == cookie && user == None && status == 200 && error == None && nextCalls == 0
    {
      this.cookie := cookie;
      user := None;
      status := 200;
      error := None;
      nextCalls := 0;
    }

    /** `protect`: attaches the caller and calls `next` once, or sets 401 and throws. */
    method Protect(users: map<UserId, User>, now: nat)
      modifies this
      ensures match Authenticate(cookie, users, now)
        case Authenticated(u) =>
          user == Some(u) && nextCalls == old(nextCalls) + 1 && status == old(status) && error == old(error)
        case Unauthorized(message) =>
          user == old(user) && nextCalls == old(nextCalls) && status == 401 && error == Some(message)
    {
      if cookie.None? {
        status := 401;
        error := Some(NoTokenMessage);
        return;
      }
      var threw := false;
      var decoded := Verify(cookie.value, now);
      if decoded.None? {
        threw := true;
      } else if decoded.value !in users {
        status := 401;
        threw := true;
      } else {
        user := Some(View(users[decoded.value]));
        nextCalls := nextCalls + 1;
      }
      if threw {
        status := 401;
        error := Some(TokenFailedMessage);
      }
    }
  }

  /** What a gate does with a request: pass it on, or answer with a status and an error. */
  datatype Outcome = Next | Halt(status: nat, message: string)

  /** `adminMiddleware` */
  function AdminMiddleware(user: Option<PublicUser>): (r: Outcome)
    ensures r == Next <==> user.Some? && user.value.role == RoleAdmin
    ensures r != Next ==> r == Halt(403, "Access denied, admin only")
  {
    if user.Some? && user.value.role == RoleAdmin then Next
    else Halt(403, "Access denied, admin only")
  }

  /** `creatorMiddleware` */
  function CreatorMiddleware(user: Option<PublicUser>): (r: Outcome)
    ensures r == Next <==> user.Some? && (user.value.role == RoleCreator || user.value.role == RoleAdmin)
    ensures r != Next ==> r == Halt(403, "Only creators can do this!")
  {
    if (user.Some? && user.value.role == RoleCreator) || (user.Some? && user.value.role == RoleAdmin) then Next
    else Halt(403, "Only creators can do this!")
  }

  /** `verifiedMiddleware` */
  function VerifiedMiddleware(user: Option<PublicUser>): (r: Outcome)
    ensures r == Next <==> user.Some? && user.value.isVerified
    ensures r != Next ==> r == Halt(403, "Please verify your email address!")
  {
    if user.Some? && user.value.isVerified then Next
    else Halt(403, "Please verify your email address!")
  }

  /** The admin gate is stricter than the creator gate, and a plain user passes neither. */
  lemma AdminGateImpliesCreatorGate(user: Option<PublicUser>)
    ensures AdminMiddleware(user) == Next ==> CreatorMiddleware(user) == Next
    ensures user.Some? && user.value.role == RoleUser ==>
      AdminMiddleware(user).Halt? && AdminMiddleware(user).status == 403
      && CreatorMiddleware(user).Halt? && CreatorMiddleware(user).status == 403
  {
  }

  /**
   * `userLoginStatus` is weaker than `protect`: every request `protect` lets
   * through reports logged in, but a token for a deleted user still reports
   * logged in while `protect` refuses it.
   */
  lemma LoginStatusIsWeakerThanProtect(cookie: Option<SessionToken>, users: map<UserId, User>, now: nat, gone: UserId)
    requires gone !in users
    ensures Authenticate(cookie, users, now).Authenticated? ==> AuthSpec.LoginStatus(cookie, now).body.flag
    ensures AuthSpec.LoginStatus(Some(Issue(gone, now)), now).body.flag
    ensures Authenticate(Some(Issue(gone, now)), users, now).Unauthorized?
  {
  }

  /** The cookie logout writes holds no token: the client is then refused and reported logged out. */
  lemma LoggedOutClientIsRefused(users: map<UserId, User>, now: nat)
    ensures var cookie := AuthSpec.LogoutUser().cookie.value;
      && Authenticate(cookie, users, now) == Unauthorized(NoTokenMessage)
      && !AuthSpec.LoginStatus(cookie, now).body.flag
  {
  }
}
