/**
 * The handlers of backend/src/controllers/auth/userControllers.js as methods
 * of one service that owns the user collection and the token collection and
 * updates them step by step, as the handlers do through the store. Each
 * method is proved to do what the matching function of AuthSpec says.
 * `caller` is the id `protect` attached to the request (`req.user._id`).
 */
module UserControllers {
  import opened Wrappers
  import opened Seqs
  import opened Session
  import opened AuthModel
  import AuthSpec

  class AuthService {
    /** `hashToken` and `bcrypt.compare`. */
    const prims: Primitives
    /** The user collection, by document id. */
    var users: map<UserId, User>
    /** The token collection, in the order the store scans it. */
    var tokens: seq<Token>

    ghost function State(): Store
      reads this
    {
      Store(users, tokens)
    }

    ghost predicate Valid()
      reads this
    {
      AuthModel.Valid(State())
    }

    constructor (prims: Primitives)
      ensures Valid() && this.prims == prims && users == map[] && tokens == []
    {
      this.prims := prims;
      users := map[];
      tokens := [];
    }

    /** `User.findOne({ email })`. */
    method FindUserByEmail(email: string) returns (found: Option<UserId>)
      requires Valid()
      ensures found.None? <==> !EmailTaken(users, email)
      ensures found.Some? ==> found.value in users && users[found.value].email == email
      ensures found.Some? ==> found.value == UserWithEmail(users, email)
    {
      if exists id :: id in users && users[id].email == email {
        var id :| id in users && users[id].email == email;
        UserWithEmailIsUnique(users, id);
        found := Some(id);
      } else {
        found := None;
      }
    }

    method RegisterUser(name: string, email: string, password: string, id: UserId, now: nat) returns (res: Response)
      requires Valid()
      modifies this
      ensures Valid()
      ensures Step(State(), res, None) == AuthSpec.RegisterUser(old(State()), name, email, password, id, now)
    {
      AuthSpec.RegisterUserKeepsValid(State(), name, email, password, id, now);
      if name == "" || email == "" || password == "" {
        return Reply(400, "All fields are required");
      }
      if Utf16Length(password) < MinPasswordLength {
        return Reply(400, "Password must be at least 6 characters");
      }
      var existing := FindUserByEmail(email);
      if existing.Some? {
        return Reply(400, "User with that email already exists");
      }
      if id in users {
        return Reply(500, "Internal Server Error");
      }
      var user := NewUser(id, name, email, password);
      users := users[id := user];
      var token := Issue(user.id, now);
      res := Response(201, SessionBody(View(user), token), SetToken(Some(token), now + SessionLifetimeMs));
    }

    method LoginUser(email: string, password: string, now: nat) returns (res: Response)
      requires Valid()
      ensures res == AuthSpec.LoginUser(State(), prims, email, password, now)
    {
      if email == "" || password == "" {
        return Reply(400, "Please provide an email and password");
      }
      var found := FindUserByEmail(email);
      if found.None? {
        return Reply(400, "Invalid credentials");
      }
      var user := users[found.value];
      var isMatch := prims.compare(password, user.password);
      if !isMatch {
        return Reply(400, "Invalid credentials");
      }
      var token := Issue(user.id, now);
      res := Response(200, SessionBody(View(user), token), SetToken(Some(token), now + SessionLifetimeMs));
    }

    method LogoutUser() returns (res: Response)
      ensures res == AuthSpec.LogoutUser()
    {
      res := Response(200, Message("User logged out successfully"), SetToken(None, 0));
    }

    method GetUser(caller: UserId) returns (res: Response)
      ensures res == AuthSpec.GetUser(State(), caller)
    {
      if caller in users {
        res := Response(200, ProfileBody(View(users[caller])), Untouched);
      } else {
        res := Reply(404, "User not found");
      }
    }

    /** `file` is the path of an uploaded photo, when a file was uploaded. */
    method UpdateUser(caller: UserId, name: string, file: Option<string>) returns (res: Response)
      requires Valid()
      modifies this
      ensures Valid()
      ensures Step(State(), res, None) == AuthSpec.UpdateUser(old(State()), caller, name, file)
    {
      AuthSpec.UpdateUserKeepsValid(State(), caller, name, file);
      if caller !in users {
        return Reply(404, "User not found");
      }
      var user := users[caller];
      user := user.(name := if name != "" then name else user.name);
      if file.Some? {
        user := user.(photo := file.value);
      }
      users := users[caller := user];
      res := Response(200, UpdatedBody("Profile updated successfully.", View(user)), Untouched);
    }

    method UserLoginStatus(cookie: Option<SessionToken>, now: nat) returns (res: Response)
      ensures res == AuthSpec.LoginStatus(cookie, now)
    {
      if cookie.None? {
        return Response(200, FlagBody(false), Untouched);
      }
      var verified := Verify(cookie.value, now);
      res := Response(200, FlagBody(verified.Some?), Untouched);
    }

    /** `secret` stands for `crypto.randomBytes(64)` as hex; `delivered` is the outcome of `sendEmail`. */
    method VerifyEmail(caller: UserId, secret: string, delivered: bool, now: nat) returns (res: Response, mail: Option<Mail>)
      requires Valid()
      modifies this
      ensures Valid()
      ensures Step(State(), res, mail) == AuthSpec.VerifyEmail(old(State()), prims, caller, secret, delivered, now)
    {
      AuthSpec.VerifyEmailKeepsValid(State(), prims, caller, secret, delivered, now);
      if caller !in users {
        return Reply(404, "User not found"), None;
      }
      var user := users[caller];
      if user.isVerified {
        return Reply(400, "User already verified"), None;
      }
      tokens := DeleteOneOwnedBy(tokens, user.id);
      var verificationToken := AuthSpec.RawSecret(secret, user.id);
      var hashedToken := prims.hashToken(verificationToken);
      tokens := tokens + [Token(user.id, Some(hashedToken), None, now, now + VerificationLifetimeMs)];
      mail := Some(Mail("Email Verification - Auth2", user.email, "emailVerification", user.name, verificationToken));
      if delivered {
        res := Reply(200, "Verification email sent successfully.");
      } else {
        res := Reply(500, "Email could not be sent. Please try again later.");
      }
    }

    method VerifyUser(verificationToken: string, now: nat) returns (res: Response)
      requires Valid()
      modifies this
      ensures Valid()
      ensures Step(State(), res, None) == AuthSpec.VerifyUser(old(State()), prims, verificationToken, now)
    {
      AuthSpec.VerifyUserKeepsValid(State(), prims, verificationToken, now);
      if verificationToken == "" {
        return Reply(400, "Invalid verification token provided.");
      }
      var hashedToken := prims.hashToken(verificationToken);
      var userToken := FirstIndex(tokens, LiveVerification(hashedToken, now));
      if userToken.None? {
        return Reply(400, "Invalid or expired verification token.");
      }
      var uid := tokens[userToken.value].userId;
      if uid !in users {
        return Reply(404, "User not found.");
      }
      users := users[uid := users[uid].(isVerified := true)];
      tokens := RemoveAt(tokens, userToken.value);
      res := Reply(200, "User verified successfully.");
    }

    method ForgetPassword(email: string, secret: string, delivered: bool, now: nat) returns (res: Response, mail: Option<Mail>)
      requires Valid()
      modifies this
      ensures Valid()
      ensures Step(State(), res, mail) == AuthSpec.ForgetPassword(old(State()), prims, email, secret, delivered, now)
    {
      AuthSpec.ForgetPasswordKeepsValid(State(), prims, email, secret, delivered, now);
      if email == "" {
        return Reply(400, "Email is required."), None;
      }
      var found := FindUserByEmail(email);
      if found.None? {
        return Reply(404, "No user found with that email."), None;
      }
      var user := users[found.value];
      tokens := DeleteOneOwnedBy(tokens, user.id);
      var passwordResetToken := AuthSpec.RawSecret(secret, user.id);
      var hashedToken := prims.hashToken(passwordResetToken);
      tokens := tokens + [Token(user.id, None, Some(hashedToken), now, now + ResetLifetimeMs)];
      mail := Some(Mail("Password Reset - Auth2", user.email, "forgotPassword", user.name, passwordResetToken));
      if delivered {
        res := Reply(200, "Password reset email sent successfully.");
      } else {
        res := Reply(500, "Email could not be sent. Please try again later.");
      }
    }

    method ResetPassword(resetPasswordToken: string, password: string, now: nat) returns (res: Response)
      requires Valid()
      modifies this
      ensures Valid()
      ensures Step(State(), res, None) == AuthSpec.ResetPassword(old(State()), prims, resetPasswordToken, password, now)
    {
      AuthSpec.ResetPasswordKeepsValid(State(), prims, resetPasswordToken, password, now);
      if password == "" || Utf16Length(password) < MinPasswordLength {
        return Reply(400, "Please provide a valid password (min 6 characters).");
      }
      var hashedToken := prims.hashToken(resetPasswordToken);
      var userToken := FirstIndex(tokens, LiveReset(hashedToken, now));
      if userToken.None? {
        return Reply(400, "Invalid or expired reset token.");
      }
      var uid := tokens[userToken.value].userId;
      if uid !in users {
        return Reply(404, "User not found.");
      }
      users := users[uid := users[uid].(password := password)];
      tokens := RemoveAt(tokens, userToken.value);
      res := Reply(200, "Password reset successfully.");
    }

    method ChangePassword(caller: UserId, currentPassword: string, newPassword: string) returns (res: Response)
      requires Valid()
      modifies this
      ensures Valid()
      ensures Step(State(), res, None) == AuthSpec.ChangePassword(old(State()), prims, caller, currentPassword, newPassword)
    {
      AuthSpec.ChangePasswordKeepsValid(State(), prims, caller, currentPassword, newPassword);
      if currentPassword == "" || newPassword == "" || Utf16Length(newPassword) < MinPasswordLength {
        return Reply(400, "Please provide valid passwords.");
      }
      if caller !in users {
        return Reply(404, "User not found.");
      }
      var user := users[caller];
      var isMatch := prims.compare(currentPassword, user.password);
      if !isMatch {
        return Reply(400, "Incorrect current password.");
      }
      users := users[caller := user.(password := newPassword)];
      res := Reply(200, "Password changed successfully.");
    }
  }
}
