/**
 * What each handler of backend/src/controllers/auth/userControllers.js does,
 * as a function from the stores before the request to the stores, response
 * and attempted email after it. Time is the parameter `now`, the random
 * secret of a secondary token is the parameter `secret`, and whether
 * `sendEmail` succeeded is the parameter `delivered`.
 */
module AuthSpec {
  import opened Wrappers
  import opened Seqs
  import opened Session
  import opened AuthModel

  /**
   * `registerUser`. `User.create` resolves to the new document or rejects;
   * it never resolves to a falsy value, so its "Invalid user data" branch is
   * never taken. A creation that fails because the id is already taken
   * rejects, and Express's default error handler answers it with 500.
   */
  ghost function RegisterUser(st: Store, name: string, email: string, password: string, id: UserId, now: nat): (step: Step)
    ensures step.mail == None && step.store.tokens == st.tokens
    ensures step.res.status == 400 <==>
      name == "" || email == "" || password == "" || Utf16Length(password) < MinPasswordLength
      || EmailTaken(st.users, email)
    ensures step.res.status == 500 <==> step.res.status != 400 && id in st.users
    ensures step.res.status != 201 ==> step.store == st && step.res.cookie == Untouched
    ensures step.res.status != 400 && step.res.status != 500 ==>
      && step.res.status == 201
      && id !in st.users
      && step.store.users.Keys == st.users.Keys + {id}
      && (forall other :: other in st.users ==> step.store.users[other] == st.users[other])
      && step.store.users[id].name == name && step.store.users[id].email == email && step.store.users[id].password == password
      && step.store.users[id].role == RoleUser && !step.store.users[id].isVerified
      && step.res.body.SessionBody? && step.res.body.user == View(step.store.users[id])
      && step.res.body.token == Issue(id, now)
      && Verify(step.res.body.token, now) == Some(id)
      && step.res.cookie == SetToken(Some(step.res.body.token), now + SessionLifetimeMs)
  {
    if name == "" || email == "" || password == "" then Reject(st, 400, "All fields are required")
    else if Utf16Length(password) < MinPasswordLength then Reject(st, 400, "Password must be at least 6 characters")
    else if EmailTaken(st.users, email) then Reject(st, 400, "User with that email already exists")
    else if id in st.users then Reject(st, 500, "Internal Server Error")
    else
      var u := NewUser(id, name, email, password);
      var token := Issue(id, now);
      Step(Store(st.users[id := u], st.tokens),
           Response(201, SessionBody(View(u), token), SetToken(Some(token), now + SessionLifetimeMs)),
           None)
  }

  /** `loginUser`: never changes a store, so it yields only a response. */
  ghost function LoginUser(st: Store, prims: Primitives, email: string, password: string, now: nat): (res: Response)
    ensures res.status == 200 <==>
      email != "" && password != "" && EmailTaken(st.users, email)
      && prims.compare(password, st.users[UserWithEmail(st.users, email)].password)
    ensures res.status != 200 ==> res.status == 400 && res.cookie == Untouched
    ensures res.status != 200 && email != "" && password != "" ==> res == Reply(400, "Invalid credentials")
    ensures res.status == 200 ==>
      var id := UserWithEmail(st.users, email);
      && res.body.SessionBody? && res.body.user == View(st.users[id])
      && res.body.token == Issue(st.users[id].id, now)
      && Verify(res.body.token, now) == Some(st.users[id].id)
      && res.cookie == SetToken(Some(res.body.token), now + SessionLifetimeMs)
  {
    if email == "" || password == "" then Reply(400, "Please provide an email and password")
    else if !EmailTaken(st.users, email) then Reply(400, "Invalid credentials")
    else
      var u := st.users[UserWithEmail(st.users, email)];
      if !prims.compare(password, u.password) then Reply(400, "Invalid credentials")
      else
        var token := Issue(u.id, now);
        Response(200, SessionBody(View(u), token), SetToken(Some(token), now + SessionLifetimeMs))
  }

  /** `logoutUser`: clears the cookie by writing an empty value that expired at the epoch. */
  function LogoutUser(): (res: Response)
    ensures res.status == 200 && res.cookie.SetToken? && res.cookie.value.None? && res.cookie.expires == 0
  {
    Response(200, Message("User logged out successfully"), SetToken(None, 0))
  }

  /** `getUser`: the caller's document without its password, or 404. */
  ghost function GetUser(st: Store, caller: UserId): (res: Response)
    ensures res.status == 200 <==> caller in st.users
    ensures res.status == 200 ==> res.body.ProfileBody? && res.body.user == View(st.users[caller])
    ensures res.status != 200 ==> res == Reply(404, "User not found")
  {
    if caller in st.users then Response(200, ProfileBody(View(st.users[caller])), Untouched)
    else Reply(404, "User not found")
  }

  /**
   * `updateUser`: the name when the new one is non-empty, the photo when a
   * file was uploaded (`file` is its path); nothing else.
   */
  ghost function UpdateUser(st: Store, caller: UserId, name: string, file: Option<string>): (step: Step)
    ensures step.mail == None && step.store.tokens == st.tokens
    ensures caller !in st.users ==> step == Reject(st, 404, "User not found")
    ensures caller in st.users ==>
      && step.res.status == 200
      && step.store.users.Keys == st.users.Keys
      && var was := st.users[caller];
      var now := step.store.users[caller];
      && (forall other :: other in st.users && other != caller ==> step.store.users[other] == st.users[other])
      && now.name == (if name != "" then name else was.name)
      && now.photo == (if file.Some? then file.value else was.photo)
      && now.id == was.id && now.email == was.email && now.role == was.role
      && now.bio == was.bio && now.isVerified == was.isVerified && now.password == was.password
      && step.res.body == UpdatedBody("Profile updated successfully.", View(now))
  {
    if caller !in st.users then Reject(st, 404, "User not found")
    else
      var was := st.users[caller];
      var named := was.(name := if name != "" then name else was.name);
      var u := if file.Some? then named.(photo := file.value) else named;
      Step(Store(st.users[caller := u], st.tokens),
           Response(200, UpdatedBody("Profile updated successfully.", View(u)), Untouched), None)
  }

  /**
   * `userLoginStatus`: whether the cookie holds a token that verifies. It
   * never looks the user up.
   */
  function LoginStatus(cookie: Option<SessionToken>, now: nat): (res: Response)
    ensures res.status == 200 && res.cookie == Untouched && res.body.FlagBody?
    ensures res.body.flag <==> cookie.Some? && cookie.value.Signed? && now < cookie.value.expiresAt
  {
    match cookie
    case None => Response(200, FlagBody(false), Untouched)
    case Some(token) => Response(200, FlagBody(Verify(token, now).Some?), Untouched)
  }

  /** The raw secondary secret: 64 random bytes as hex, followed by the user id. */
  function RawSecret(secret: string, id: UserId): string
  {
    secret + id
  }

  /**
   * `verifyEmail`: unless the caller is missing or already verified, deletes
   * one token of the caller (whatever its purpose), stores a verification
   * token holding the digest of a fresh raw secret that expires a day later,
   * and emails the raw secret. The token stays stored when the email fails.
   */
  ghost function VerifyEmail(st: Store, prims: Primitives, caller: UserId, secret: string, delivered: bool, now: nat): (step: Step)
    ensures caller !in st.users ==> step == Reject(st, 404, "User not found")
    ensures caller in st.users && st.users[caller].isVerified ==> step == Reject(st, 400, "User already verified")
    ensures caller in st.users && !st.users[caller].isVerified ==>
      && step.store.users == st.users
      && step.mail.Some? && step.mail.value.sendTo == st.users[caller].email
      && step.mail.value.secret == RawSecret(secret, caller)
      && step.store.tokens
         == Supersede(st.tokens, Token(caller, Some(prims.hashToken(step.mail.value.secret)), None, now, now + VerificationLifetimeMs))
      && step.res.status == (if delivered then 200 else 500)
  {
    if caller !in st.users then Reject(st, 404, "User not found")
    else
      var u := st.users[caller];
      if u.isVerified then Reject(st, 400, "User already verified")
      else
        var raw := RawSecret(secret, caller);
        var token := Token(caller, Some(prims.hashToken(raw)), None, now, now + VerificationLifetimeMs);
        var tokens := Supersede(st.tokens, token);
        var mail := Mail("Email Verification - Auth2", u.email, "emailVerification", u.name, raw);
        var res := if delivered then Reply(200, "Verification email sent successfully.")
                   else Reply(500, "Email could not be sent. Please try again later.");
        Step(Store(st.users, tokens), res, Some(mail))
  }

  /**
   * `verifyUser`: consumes the first token whose verification digest is the
   * digest of `t` and whose expiry is strictly later than `now`, and marks
   * its owner verified.
   */
  ghost function VerifyUser(st: Store, prims: Primitives, t: string, now: nat): (step: Step)
    ensures step.mail == None
    ensures t == "" ==> step == Reject(st, 400, "Invalid verification token provided.")
    ensures step.res.status != 200 ==> step.store == st
    ensures step.res.status == 200 ==>
      exists i :: 0 <= i < |st.tokens|
        && st.tokens[i].verificationToken == Some(prims.hashToken(t)) && st.tokens[i].expiresAt > now
        && st.tokens[i].userId in st.users
        && step.store.tokens == RemoveAt(st.tokens, i)
        && step.store.users == st.users[st.tokens[i].userId := st.users[st.tokens[i].userId].(isVerified := true)]
    ensures (forall k :: 0 <= k < |st.tokens| && st.tokens[k].verificationToken == Some(prims.hashToken(t))
               ==> st.tokens[k].expiresAt <= now)
      ==> step.res.status == 400
    ensures t != "" ==>
      match FirstIndex(st.tokens, LiveVerification(prims.hashToken(t), now))
      case None => step == Reject(st, 400, "Invalid or expired verification token.")
      case Some(i) =>
        && (step.res.status == 200 <==> st.tokens[i].userId in st.users)
        && (step.res.status == 404 <==> st.tokens[i].userId !in st.users)
        && (step.res.status == 200 ==> step.store.tokens == RemoveAt(st.tokens, i))
  {
    if t == "" then Reject(st, 400, "Invalid verification token provided.")
    else
      match FirstIndex(st.tokens, LiveVerification(prims.hashToken(t), now))
      case None => Reject(st, 400, "Invalid or expired verification token.")
      case Some(i) =>
        var uid := st.tokens[i].userId;
        if uid !in st.users then Reject(st, 404, "User not found.")
        else
          var users := st.users[uid := st.users[uid].(isVerified := true)];
          Step(Store(users, RemoveAt(st.tokens, i)), Reply(200, "User verified successfully."), None)
  }

  /**
   * `forgetPassword`: 400 without an email, 404 for an email no user has;
   * otherwise deletes one token of that user (whatever its purpose), stores
   * a reset token that expires an hour later, and emails the raw secret.
   */
  ghost function ForgetPassword(st: Store, prims: Primitives, email: string, secret: string, delivered: bool, now: nat): (step: Step)
    ensures email == "" ==> step == Reject(st, 400, "Email is required.")
    ensures email != "" && !EmailTaken(st.users, email) ==> step == Reject(st, 404, "No user found with that email.")
    ensures email != "" && EmailTaken(st.users, email) ==>
      var id := UserWithEmail(st.users, email);
      && step.store.users == st.users
      && step.mail.Some? && step.mail.value.sendTo == email
      && step.mail.value.secret == RawSecret(secret, st.users[id].id)
      && step.store.tokens
         == Supersede(st.tokens, Token(st.users[id].id, None, Some(prims.hashToken(step.mail.value.secret)), now, now + ResetLifetimeMs))
      && step.res.status == (if delivered then 200 else 500)
  {
    if email == "" then Reject(st, 400, "Email is required.")
    else if !EmailTaken(st.users, email) then Reject(st, 404, "No user found with that email.")
    else
      var u := st.users[UserWithEmail(st.users, email)];
      var raw := RawSecret(secret, u.id);
      var token := Token(u.id, None, Some(prims.hashToken(raw)), now, now + ResetLifetimeMs);
      var tokens := Supersede(st.tokens, token);
      var mail := Mail("Password Reset - Auth2", u.email, "forgotPassword", u.name, raw);
      var res := if delivered then Reply(200, "Password reset email sent successfully.")
                 else Reply(500, "Email could not be sent. Please try again later.");
      Step(Store(st.users, tokens), res, Some(mail))
  }

  /**
   * `resetPassword`: refuses a short password before any lookup, then
   * consumes the first live token whose reset digest is the digest of `t`
   * and replaces its owner's password.
   */
  ghost function ResetPassword(st: Store, prims: Primitives, t: string, password: string, now: nat): (step: Step)
    ensures step.mail == None
    ensures password == "" || Utf16Length(password) < MinPasswordLength ==>
      step == Reject(st, 400, "Please provide a valid password (min 6 characters).")
    ensures step.res.status != 200 ==> step.store == st
    ensures step.res.status == 200 ==>
      exists i :: 0 <= i < |st.tokens|
        && st.tokens[i].passwordResetToken == Some(prims.hashToken(t)) && st.tokens[i].expiresAt > now
        && st.tokens[i].userId in st.users
        && step.store.tokens == RemoveAt(st.tokens, i)
        && step.store.users == st.users[st.tokens[i].userId := st.users[st.tokens[i].userId].(password := password)]
    ensures (forall k :: 0 <= k < |st.tokens| && st.tokens[k].passwordResetToken == Some(prims.hashToken(t))
               ==> st.tokens[k].expiresAt <= now)
      ==> step.res.status == 400
    ensures password != "" && Utf16Length(password) >= MinPasswordLength ==>
      match FirstIndex(st.tokens, LiveReset(prims.hashToken(t), now))
      case None => step == Reject(st, 400, "Invalid or expired reset token.")
      case Some(i) =>
        && (step.res.status == 200 <==> st.tokens[i].userId in st.users)
        && (step.res.status == 404 <==> st.tokens[i].userId !in st.users)
        && (step.res.status == 200 ==> step.store.tokens == RemoveAt(st.tokens, i))
  {
    if password == "" || Utf16Length(password) < MinPasswordLength then
      Reject(st, 400, "Please provide a valid password (min 6 characters).")
    else
      match FirstIndex(st.tokens, LiveReset(prims.hashToken(t), now))
      case None => Reject(st, 400, "Invalid or expired reset token.")
      case Some(i) =>
        var uid := st.tokens[i].userId;
        if uid !in st.users then Reject(st, 404, "User not found.")
        else
          var users := st.users[uid := st.users[uid].(password := password)];
          Step(Store(users, RemoveAt(st.tokens, i)), Reply(200, "Password reset successfully."), None)
  }

  /** `changePassword`: replaces the caller's password only when the current one matches. */
  ghost function ChangePassword(st: Store, prims: Primitives, caller: UserId, currentPassword: string, newPassword: string): (step: Step)
    ensures step.mail == None && step.store.tokens == st.tokens
    ensures step.res.status == 200 <==>
      currentPassword != "" && newPassword != "" && Utf16Length(newPassword) >= MinPasswordLength
      && caller in st.users && prims.compare(currentPassword, st.users[caller].password)
    ensures step.res.status == 200 ==> step.store.users == st.users[caller := st.users[caller].(password := newPassword)]
    ensures step.res.status != 200 ==> step.store == st
    ensures currentPassword != "" && newPassword != "" && Utf16Length(newPassword) >= MinPasswordLength && caller in st.users
      && !prims.compare(currentPassword, st.users[caller].password)
      ==> step.res == Reply(400, "Incorrect current password.")
    ensures currentPassword == "" || newPassword == "" || Utf16Length(newPassword) < MinPasswordLength
      ==> step == Reject(st, 400, "Please provide valid passwords.")
    ensures currentPassword != "" && newPassword != "" && Utf16Length(newPassword) >= MinPasswordLength && caller !in st.users
      ==> step == Reject(st, 404, "User not found.")
  {
    if currentPassword == "" || newPassword == "" || Utf16Length(newPassword) < MinPasswordLength then Reject(st, 400, "Please provide valid passwords.")
    else if caller !in st.users then Reject(st, 404, "User not found.")
    else
      var u := st.users[caller];
      if !prims.compare(currentPassword, u.password) then Reject(st, 400, "Incorrect current password.")
      else Step(Store(st.users[caller := u.(password := newPassword)], st.tokens), Reply(200, "Password changed successfully."), None)
  }

  // Every handler keeps the invariant of the two stores.

  lemma RegisterUserKeepsValid(st: Store, name: string, email: string, password: string, id: UserId, now: nat)
    requires Valid(st)
    ensures Valid(RegisterUser(st, name, email, password, id, now).store)
  {
  }

  lemma UpdateUserKeepsValid(st: Store, caller: UserId, name: string, file: Option<string>)
    requires Valid(st)
    ensures Valid(UpdateUser(st, caller, name, file).store)
  {
  }

  lemma VerifyEmailKeepsValid(st: Store, prims: Primitives, caller: UserId, secret: string, delivered: bool, now: nat)
    requires Valid(st)
    ensures Valid(VerifyEmail(st, prims, caller, secret, delivered, now).store)
  {
    if caller in st.users && !st.users[caller].isVerified {
      SupersedeKeepsOnePerUser(st.tokens, Token(caller, Some(prims.hashToken(RawSecret(secret, caller))), None, now, now + VerificationLifetimeMs));
    }
  }

  lemma VerifyUserKeepsValid(st: Store, prims: Primitives, t: string, now: nat)
    requires Valid(st)
    ensures Valid(VerifyUser(st, prims, t, now).store)
  {
    if t != "" {
      var found := FirstIndex(st.tokens, LiveVerification(prims.hashToken(t), now));
      if found.Some? {
        RemoveAtKeepsOnePerUser(st.tokens, found.value);
      }
    }
  }

  lemma ForgetPasswordKeepsValid(st: Store, prims: Primitives, email: string, secret: string, delivered: bool, now: nat)
    requires Valid(st)
    ensures Valid(ForgetPassword(st, prims, email, secret, delivered, now).store)
  {
    if email != "" && EmailTaken(st.users, email) {
      var u := st.users[UserWithEmail(st.users, email)];
      SupersedeKeepsOnePerUser(st.tokens, Token(u.id, None, Some(prims.hashToken(RawSecret(secret, u.id))), now, now + ResetLifetimeMs));
    }
  }

  lemma ResetPasswordKeepsValid(st: Store, prims: Primitives, t: string, password: string, now: nat)
    requires Valid(st)
    ensures Valid(ResetPassword(st, prims, t, password, now).store)
  {
    if password != "" && Utf16Length(password) >= MinPasswordLength {
      var found := FirstIndex(st.tokens, LiveReset(prims.hashToken(t), now));
      if found.Some? {
        RemoveAtKeepsOnePerUser(st.tokens, found.value);
      }
    }
  }

  lemma ChangePasswordKeepsValid(st: Store, prims: Primitives, caller: UserId, currentPassword: string, newPassword: string)
    requires Valid(st)
    ensures Valid(ChangePassword(st, prims, caller, currentPassword, newPassword).store)
  {
  }

  // Properties that relate several requests.

  /** Once an email is registered, registering it again is refused, and it names one user. */
  lemma DuplicateRegistrationRefused(
    st: Store, name: string, email: string, password: string, id: UserId, now: nat,
    name2: string, password2: string, id2: UserId, now2: nat)
    requires Valid(st)
    requires RegisterUser(st, name, email, password, id, now).res.status == 201
    ensures var after := RegisterUser(st, name, email, password, id, now).store;
      && RegisterUser(after, name2, email, password2, id2, now2).res.status == 400
      && RegisterUser(after, name2, email, password2, id2, now2).store == after
      && forall other :: other in after.users && after.users[other].email == email ==> other == id
  {
    RegisterUserKeepsValid(st, name, email, password, id, now);
  }

  /** A registered user whose password matches itself under `compare` can log in, as themself. */
  lemma RegisteredUserCanLogIn(
    st: Store, prims: Primitives, name: string, email: string, password: string, id: UserId, now: nat, later: nat)
    requires Valid(st)
    requires RegisterUser(st, name, email, password, id, now).res.status == 201
    requires prims.compare(password, password)
    ensures var after := RegisterUser(st, name, email, password, id, now).store;
      var res := LoginUser(after, prims, email, password, later);
      res.status == 200 && Verify(res.body.token, later) == Some(id)
  {
    var after := RegisterUser(st, name, email, password, id, now).store;
    RegisterUserKeepsValid(st, name, email, password, id, now);
    UserWithEmailIsUnique(after.users, id);
  }

  /** An unknown email and a wrong password get the very same response. */
  lemma LoginFailuresLookAlike(st: Store, prims: Primitives, unknown: string, known: string, password: string, now: nat)
    requires password != "" && unknown != "" && !EmailTaken(st.users, unknown)
    requires known != "" && EmailTaken(st.users, known)
    requires !prims.compare(password, st.users[UserWithEmail(st.users, known)].password)
    ensures LoginUser(st, prims, unknown, password, now) == LoginUser(st, prims, known, password, now)
  {
  }

  /** After a password change, login with the caller's email succeeds exactly for passwords matching the new one. */
  lemma ChangedPasswordGovernsLogin(
    st: Store, prims: Primitives, caller: UserId, currentPassword: string, newPassword: string, password: string, now: nat)
    requires Valid(st)
    requires ChangePassword(st, prims, caller, currentPassword, newPassword).res.status == 200
    requires caller in st.users && st.users[caller].email != "" && password != ""
    ensures var after := ChangePassword(st, prims, caller, currentPassword, newPassword).store;
      LoginUser(after, prims, st.users[caller].email, password, now).status == 200 <==> prims.compare(password, newPassword)
  {
    var after := ChangePassword(st, prims, caller, currentPassword, newPassword).store;
    ChangePasswordKeepsValid(st, prims, caller, currentPassword, newPassword);
    UserWithEmailIsUnique(after.users, caller);
    assert after.users[caller] == st.users[caller].(password := newPassword);
  }

  /**
   * The link a verification email carries verifies its recipient while it is
   * live, removes the token, and a second use of the same link is refused
   * (given that no older token held the same digest).
   */
  lemma {:induction false} VerificationLinkIsSingleUse(
    st: Store, prims: Primitives, caller: UserId, secret: string, delivered: bool, now: nat, later: nat, again: nat)
    requires Valid(st) && caller in st.users && !st.users[caller].isVerified
    requires secret != ""
    requires forall k :: 0 <= k < |st.tokens| ==> st.tokens[k].verificationToken != Some(prims.hashToken(RawSecret(secret, caller)))
    requires later < now + VerificationLifetimeMs
    ensures var issued := VerifyEmail(st, prims, caller, secret, delivered, now);
      var link := issued.mail.value.secret;
      var consumed := VerifyUser(issued.store, prims, link, later);
      && consumed.res.status == 200
      && consumed.store.users == st.users[caller := st.users[caller].(isVerified := true)]
      && consumed.store.tokens == DeleteOneOwnedBy(st.tokens, caller)
      && VerifyUser(consumed.store, prims, link, again).res == Reply(400, "Invalid or expired verification token.")
  {
    var raw := RawSecret(secret, caller);
    var h := prims.hashToken(raw);
    var t := Token(caller, Some(h), None, now, now + VerificationLifetimeMs);
    var d := DeleteOneOwnedBy(st.tokens, caller);
    var issued := VerifyEmail(st, prims, caller, secret, delivered, now);
    assert issued.mail.value.secret == raw && issued.store == Store(st.users, d + [t]);
    forall k | 0 <= k < |d| ensures d[k].verificationToken != Some(h) {
      assert d[k] in multiset(st.tokens);
    }
    AppendedVerificationIsConsumedOnce(st.users, d, prims, raw, t, later, again);
  }

  /**
   * A verification token appended after tokens that never held its digest
   * is the one a live use of its raw secret consumes; after that the secret
   * finds nothing.
   */
  lemma {:induction false} AppendedVerificationIsConsumedOnce(
    users: map<UserId, User>, d: seq<Token>, prims: Primitives, raw: string, t: Token, later: nat, again: nat)
    requires raw != ""
    requires t.verificationToken == Some(prims.hashToken(raw)) && t.expiresAt > later && t.userId in users
    requires forall k :: 0 <= k < |d| ==> d[k].verificationToken != Some(prims.hashToken(raw))
    ensures VerifyUser(Store(users, d + [t]), prims, raw, later)
      == Step(Store(users[t.userId := users[t.userId].(isVerified := true)], d), Reply(200, "User verified successfully."), None)
    ensures VerifyUser(Store(users[t.userId := users[t.userId].(isVerified := true)], d), prims, raw, again).res
      == Reply(400, "Invalid or expired verification token.")
  {
    var h := prims.hashToken(raw);
    forall k | 0 <= k < |d| ensures !LiveVerification(h, later)(d[k]) && !LiveVerification(h, again)(d[k]) {
    }
    FirstIndexOfAppended(d, t, LiveVerification(h, later));
    assert RemoveAt(d + [t], |d|) == d;
  }

  /**
   * The link a reset email carries sets the new password while it is live,
   * removes the token, and a second use of the same link is refused (given
   * that no older token held the same digest).
   */
  lemma {:induction false} ResetLinkIsSingleUse(
    st: Store, prims: Primitives, email: string, secret: string, delivered: bool, now: nat,
    password: string, later: nat, again: nat)
    requires Valid(st) && email != "" && EmailTaken(st.users, email)
    requires forall k :: 0 <= k < |st.tokens| ==>
      st.tokens[k].passwordResetToken != Some(prims.hashToken(RawSecret(secret, UserWithEmail(st.users, email))))
    requires password != "" && Utf16Length(password) >= MinPasswordLength
    requires later < now + ResetLifetimeMs
    ensures var id := UserWithEmail(st.users, email);
      var issued := ForgetPassword(st, prims, email, secret, delivered, now);
      var link := issued.mail.value.secret;
      var consumed := ResetPassword(issued.store, prims, link, password, later);
      && consumed.res.status == 200
      && consumed.store.users == st.users[id := st.users[id].(password := password)]
      && consumed.store.tokens == DeleteOneOwnedBy(st.tokens, id)
      && ResetPassword(consumed.store, prims, link, password, again).res == Reply(400, "Invalid or expired reset token.")
  {
    var id := UserWithEmail(st.users, email);
    var raw := RawSecret(secret, id);
    var h := prims.hashToken(raw);
    var t := Token(id, None, Some(h), now, now + ResetLifetimeMs);
    var d := DeleteOneOwnedBy(st.tokens, id);
    var issued := ForgetPassword(st, prims, email, secret, delivered, now);
    assert st.users[id].id == id;
    assert issued.mail.value.secret == raw && issued.store == Store(st.users, d + [t]);
    forall k | 0 <= k < |d| ensures d[k].passwordResetToken != Some(h) {
      assert d[k] in multiset(st.tokens);
    }
    AppendedResetIsConsumedOnce(st.users, d, prims, raw, password, t, later, again);
  }

  /**
   * A reset token appended after tokens that never held its digest is the
   * one a live use of its raw secret consumes; after that the secret finds
   * nothing.
   */
  lemma {:induction false} AppendedResetIsConsumedOnce(
    users: map<UserId, User>, d: seq<Token>, prims: Primitives, raw: string, password: string, t: Token, later: nat, again: nat)
    requires password != "" && Utf16Length(password) >= MinPasswordLength
    requires t.passwordResetToken == Some(prims.hashToken(raw)) && t.expiresAt > later && t.userId in users
    requires forall k :: 0 <= k < |d| ==> d[k].passwordResetToken != Some(prims.hashToken(raw))
    ensures ResetPassword(Store(users, d + [t]), prims, raw, password, later)
      == Step(Store(users[t.userId := users[t.userId].(password := password)], d), Reply(200, "Password reset successfully."), None)
    ensures ResetPassword(Store(users[t.userId := users[t.userId].(password := password)], d), prims, raw, password, again).res
      == Reply(400, "Invalid or expired reset token.")
  {
    var h := prims.hashToken(raw);
    forall k | 0 <= k < |d| ensures !LiveReset(h, later)(d[k]) && !LiveReset(h, again)(d[k]) {
    }
    FirstIndexOfAppended(d, t, LiveReset(h, later));
    assert RemoveAt(d + [t], |d|) == d;
  }

  /** A user who owns no verification token is left unchanged by every verification link. */
  lemma {:induction false} NoVerificationTokenNoChange(st: Store, prims: Primitives, id: UserId, t: string, now: nat)
    requires id in st.users
    requires forall k :: 0 <= k < |st.tokens| && st.tokens[k].userId == id ==> st.tokens[k].verificationToken.None?
    ensures VerifyUser(st, prims, t, now).store.users[id] == st.users[id]
  {
    var step := VerifyUser(st, prims, t, now);
    if step.res.status == 200 {
      var i :| 0 <= i < |st.tokens|
        && st.tokens[i].verificationToken == Some(prims.hashToken(t)) && st.tokens[i].expiresAt > now
        && st.tokens[i].userId in st.users
        && step.store.users == st.users[st.tokens[i].userId := st.users[st.tokens[i].userId].(isVerified := true)];
      assert st.tokens[i].userId != id;
    }
  }

  /** A user who owns no reset token keeps their password whatever reset link is used. */
  lemma {:induction false} NoResetTokenNoChange(st: Store, prims: Primitives, id: UserId, t: string, password: string, now: nat)
    requires id in st.users
    requires forall k :: 0 <= k < |st.tokens| && st.tokens[k].userId == id ==> st.tokens[k].passwordResetToken.None?
    ensures ResetPassword(st, prims, t, password, now).store.users[id] == st.users[id]
  {
    var step := ResetPassword(st, prims, t, password, now);
    if step.res.status == 200 {
      var i :| 0 <= i < |st.tokens|
        && st.tokens[i].passwordResetToken == Some(prims.hashToken(t)) && st.tokens[i].expiresAt > now
        && st.tokens[i].userId in st.users
        && step.store.users == st.users[st.tokens[i].userId := st.users[st.tokens[i].userId].(password := password)];
      assert st.tokens[i].userId != id;
    }
  }

  /**
   * Requesting a reset removes the user's pending verification token: no
   * verification link can then change that user.
   */
  lemma {:induction false} ResetRequestSupersedesVerification(
    st: Store, prims: Primitives, email: string, secret: string, delivered: bool, now: nat, t: string, later: nat)
    requires Valid(st) && email != "" && EmailTaken(st.users, email)
    ensures var id := UserWithEmail(st.users, email);
      var after := ForgetPassword(st, prims, email, secret, delivered, now).store;
      && (forall k :: 0 <= k < |after.tokens| && after.tokens[k].userId == id ==> after.tokens[k].verificationToken.None?)
      && VerifyUser(after, prims, t, later).store.users[id] == st.users[id]
  {
    var id := UserWithEmail(st.users, email);
    var step := ForgetPassword(st, prims, email, secret, delivered, now);
    var after := step.store;
    assert st.users[id].id == id;
    var issuedToken := Token(id, None, Some(prims.hashToken(step.mail.value.secret)), now, now + ResetLifetimeMs);
    assert after.tokens == Supersede(st.tokens, issuedToken);
    SupersedeKeepsOnePerUser(st.tokens, issuedToken);
    NoVerificationTokenNoChange(after, prims, id, t, later);
  }

  /**
   * Requesting a verification email removes the caller's pending reset
   * token: no reset link can then change the caller's password.
   */
  lemma {:induction false} VerificationRequestSupersedesReset(
    st: Store, prims: Primitives, caller: UserId, secret: string, delivered: bool, now: nat,
    t: string, password: string, later: nat)
    requires Valid(st) && caller in st.users && !st.users[caller].isVerified
    ensures var after := VerifyEmail(st, prims, caller, secret, delivered, now).store;
      && (forall k :: 0 <= k < |after.tokens| && after.tokens[k].userId == caller ==> after.tokens[k].passwordResetToken.None?)
      && ResetPassword(after, prims, t, password, later).store.users[caller] == st.users[caller]
  {
    var step := VerifyEmail(st, prims, caller, secret, delivered, now);
    var after := step.store;
    var issuedToken := Token(caller, Some(prims.hashToken(step.mail.value.secret)), None, now, now + VerificationLifetimeMs);
    assert after.tokens == Supersede(st.tokens, issuedToken);
    SupersedeKeepsOnePerUser(st.tokens, issuedToken);
    NoResetTokenNoChange(after, prims, caller, t, password, later);
  }
}
