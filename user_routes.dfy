/**
 * backend/src/routes/userRoutes.js: each route's method, path, guard chain
 * and handler, and what running a guard chain lets through.
 */
module UserRoutes {
  import opened Wrappers
  import opened Seqs
  import opened Session
  import opened AuthModel
  import opened AuthMiddlewares

  datatype Verb = Get | Post | Patch | Delete

  datatype Guard = Protect | AdminOnly | CreatorOrAdmin | VerifiedOnly

  datatype Handler =
    | RegisterUser | LoginUser | LogoutUser | GetUser | UpdateUser | UserLoginStatus
    | VerifyEmail | VerifyUser | ForgetPassword | ResetPassword | ChangePassword
    | DeleteUser | GetAllUsers

  datatype Route = Route(verb: Verb, path: string, guards: seq<Guard>, handler: Handler)

  /** The router, in registration order. */
  const Routes: seq<Route> := [
    Route(Post, "/register", [], RegisterUser),
    Route(Post, "/login", [], LoginUser),
    Route(Get, "/logout", [], LogoutUser),
    Route(Get, "/user", [Protect], GetUser),
    Route(Patch, "/user", [Protect], UpdateUser),
    Route(Get, "/login-status", [], UserLoginStatus),
    Route(Post, "/verify-email", [Protect], VerifyEmail),
    Route(Post, "/verify-user/:verificationToken", [], VerifyUser),
    Route(Post, "/forgot-password", [], ForgetPassword),
    Route(Post, "/reset-password/:resetPasswordToken", [], ResetPassword),
    Route(Patch, "/change-password", [Protect], ChangePassword),
    Route(Delete, "/admin/users/:id", [Protect, AdminOnly], DeleteUser),
    Route(Get, "/admin/users", [Protect, CreatorOrAdmin], GetAllUsers)
  ]

  /** The handlers reachable without a session. */
  const PublicHandlers: set<Handler> :=
    {RegisterUser, LoginUser, LogoutUser, UserLoginStatus, VerifyUser, ForgetPassword, ResetPassword}

  /** The handlers behind `protect` alone. */
  const SessionHandlers: set<Handler> := {GetUser, UpdateUser, VerifyEmail, ChangePassword}

  /** Each handler is mounted once, with the guard chain its group calls for. */
  lemma RouteGuardsByGroup()
    ensures forall i, j :: 0 <= i < j < |Routes| ==> Routes[i].handler != Routes[j].handler
    ensures forall i :: 0 <= i < |Routes| && Routes[i].handler in PublicHandlers ==> Routes[i].guards == []
    ensures forall i :: 0 <= i < |Routes| && Routes[i].handler in SessionHandlers ==> Routes[i].guards == [Protect]
    ensures forall i :: 0 <= i < |Routes| && Routes[i].handler == DeleteUser ==> Routes[i].guards == [Protect, AdminOnly]
    ensures forall i :: 0 <= i < |Routes| && Routes[i].handler == GetAllUsers ==> Routes[i].guards == [Protect, CreatorOrAdmin]
  {
  }

  /** In every chain that holds a role gate, `protect` runs first. */
  lemma ProtectPrecedesRoleGates()
    ensures forall i :: 0 <= i < |Routes| && (AdminOnly in Routes[i].guards || CreatorOrAdmin in Routes[i].guards) ==>
      |Routes[i].guards| > 0 && Routes[i].guards[0] == Protect
  {
  }

  /** Where a guard chain ends: at the handler with `req.user` as it then is, or with an error response. */
  datatype ChainEnd = Passed(user: Option<PublicUser>) | Stopped(status: nat, message: string)

  /** One guard applied to a request whose `req.user` is `user`. */
  function RunGuard(g: Guard, user: Option<PublicUser>, cookie: Option<SessionToken>, users: map<UserId, User>, now: nat): ChainEnd
  {
    match g
    case Protect =>
      (match Authenticate(cookie, users, now)
       case Authenticated(u) => Passed(Some(u))
       case Unauthorized(message) => Stopped(401, message))
    case AdminOnly => GateEnd(AdminMiddleware(user), user)
    case CreatorOrAdmin => GateEnd(CreatorMiddleware(user), user)
    case VerifiedOnly => GateEnd(VerifiedMiddleware(user), user)
  }

  function GateEnd(outcome: Outcome, user: Option<PublicUser>): ChainEnd
  {
    match outcome
    case Next => Passed(user)
    case Halt(status, message) => Stopped(status, message)
  }

  /** The guards of a chain, run in order; the first that stops the request ends it. */
  function RunGuards(guards: seq<Guard>, user: Option<PublicUser>, cookie: Option<SessionToken>, users: map<UserId, User>, now: nat): ChainEnd
    decreases |guards|
  {
    if guards == [] then Passed(user)
    else match RunGuard(guards[0], user, cookie, users, now)
      case Stopped(status, message) => Stopped(status, message)
      case Passed(next) => RunGuards(guards[1..], next, cookie, users, now)
  }

  /** The gates never change `req.user`: a chain of gates passes the user it was given. */
  lemma {:induction false} GatesKeepUser(guards: seq<Guard>, user: Option<PublicUser>, cookie: Option<SessionToken>, users: map<UserId, User>, now: nat)
    requires forall k :: 0 <= k < |guards| ==> guards[k] != Protect
    ensures RunGuards(guards, user, cookie, users, now).Passed? ==> RunGuards(guards, user, cookie, users, now).user == user
  {
    if guards != [] {
      GatesKeepUser(guards[1..], user, cookie, users, now);
    }
  }

  /**
   * A chain that starts with `protect` reaches its handler only for an
   * authenticated caller, and every gate after it sees that caller.
   */
  lemma {:induction false} ProtectedChainSeesCaller(guards: seq<Guard>, cookie: Option<SessionToken>, users: map<UserId, User>, now: nat)
    requires |guards| > 0 && guards[0] == Protect
    requires forall k :: 1 <= k < |guards| ==> guards[k] != Protect
    ensures RunGuards(guards, None, cookie, users, now).Passed? ==>
      && Authenticate(cookie, users, now).Authenticated?
      && RunGuards(guards, None, cookie, users, now).user == Some(Authenticate(cookie, users, now).user)
      && RunGuards(guards[1..], Some(Authenticate(cookie, users, now).user), cookie, users, now).Passed?
  {
    var rest := guards[1..];
    assert forall k :: 0 <= k < |rest| ==> rest[k] == guards[k + 1];
    if Authenticate(cookie, users, now).Authenticated? {
      GatesKeepUser(rest, Some(Authenticate(cookie, users, now).user), cookie, users, now);
    }
  }

  /** A guard chain refuses a request only with 401 (from `protect`) or 403 (from a gate). */
  lemma {:induction false} StoppedChainsAnswer401Or403(guards: seq<Guard>, user: Option<PublicUser>, cookie: Option<SessionToken>, users: map<UserId, User>, now: nat)
    ensures var chain := RunGuards(guards, user, cookie, users, now);
      chain.Stopped? ==> chain.status == 401 || chain.status == 403
  {
    if guards != [] {
      var first := RunGuard(guards[0], user, cookie, users, now);
      if first.Passed? {
        StoppedChainsAnswer401Or403(guards[1..], first.user, cookie, users, now);
      }
    }
  }

  /** Where a request for `verb` and `path` ends: no route, a guard's error, or the handler. */
  datatype Dispatch = NoRoute | Refused(status: nat, message: string) | Reached(handler: Handler, user: Option<PublicUser>)

  function Matches(verb: Verb, path: string): Route -> bool
  {
    (r: Route) => r.verb == verb && r.path == path
  }

  /** The first route registered for `verb` and `path`, as Express tries them in order. */
  function RouteFor(verb: Verb, path: string): Option<nat>
  {
    FirstIndex(Routes, Matches(verb, path))
  }

  /** Looking a route up by its own method and path finds it: no earlier route shadows another. */
  lemma RoutesAreFound(i: nat)
    requires i < |Routes|
    ensures RouteFor(Routes[i].verb, Routes[i].path) == Some(i)
  {
    var p := Matches(Routes[i].verb, Routes[i].path);
    forall j | 0 <= j < i ensures !p(Routes[j]) {
      assert Routes[j].path != Routes[i].path || Routes[j].verb != Routes[i].verb;
    }
    FirstIndexAt(Routes, p, i);
  }

  /** What happens to a request once it has been routed to `Routes[i]`. */
  function DispatchTo(i: nat, cookie: Option<SessionToken>, users: map<UserId, User>, now: nat): Dispatch
    requires i < |Routes|
  {
    match RunGuards(Routes[i].guards, None, cookie, users, now)
    case Stopped(status, message) => Refused(status, message)
    case Passed(user) => Reached(Routes[i].handler, user)
  }

  function DispatchRequest(verb: Verb, path: string, cookie: Option<SessionToken>, users: map<UserId, User>, now: nat): Dispatch
  {
    match RouteFor(verb, path)
    case None => NoRoute
    case Some(i) => DispatchTo(i, cookie, users, now)
  }

  /** The route `DELETE /admin/users/:id` lets through exactly authenticated admins. */
  lemma {:induction false} DeleteUserRouteAdmitsAdmins(cookie: Option<SessionToken>, users: map<UserId, User>, now: nat)
    ensures var d := DispatchTo(11, cookie, users, now);
      var a := Authenticate(cookie, users, now);
      && (d.Reached? <==> a.Authenticated? && a.user.role == RoleAdmin)
      && (d.Reached? ==> d.handler == DeleteUser && d.user == Some(a.user))
      && (!d.Reached? ==> d.Refused? && (d.status == 401 || d.status == 403))
  {
    var guards := [Protect, AdminOnly];
    assert Routes[11].guards == guards && Routes[11].handler == DeleteUser;
    var a := Authenticate(cookie, users, now);
    if a.Authenticated? {
      assert RunGuards(guards, None, cookie, users, now) == RunGuards([AdminOnly], Some(a.user), cookie, users, now);
    }
  }

  /** The route `GET /admin/users` lets through exactly authenticated creators and admins. */
  lemma {:induction false} GetAllUsersRouteAdmitsCreators(cookie: Option<SessionToken>, users: map<UserId, User>, now: nat)
    ensures var d := DispatchTo(12, cookie, users, now);
      var a := Authenticate(cookie, users, now);
      && (d.Reached? <==> a.Authenticated? && (a.user.role == RoleCreator || a.user.role == RoleAdmin))
      && (d.Reached? ==> d.handler == GetAllUsers && d.user == Some(a.user))
      && (!d.Reached? ==> d.Refused? && (d.status == 401 || d.status == 403))
  {
    var guards := [Protect, CreatorOrAdmin];
    assert Routes[12].guards == guards && Routes[12].handler == GetAllUsers;
    var a := Authenticate(cookie, users, now);
    if a.Authenticated? {
      assert RunGuards(guards, None, cookie, users, now) == RunGuards([CreatorOrAdmin], Some(a.user), cookie, users, now);
    }
  }

  /** A route guarded by `protect` alone lets through exactly authenticated callers. */
  lemma {:induction false} SessionRouteAdmitsCallers(i: nat, cookie: Option<SessionToken>, users: map<UserId, User>, now: nat)
    requires i < |Routes| && Routes[i].guards == [Protect]
    ensures var d := DispatchTo(i, cookie, users, now);
      var a := Authenticate(cookie, users, now);
      && (d.Reached? <==> a.Authenticated?)
      && (d.Reached? ==> d.handler == Routes[i].handler && d.user == Some(a.user))
      && (!d.Reached? ==> d == Refused(401, a.message))
  {
    var a := Authenticate(cookie, users, now);
    if a.Authenticated? {
      assert RunGuards([Protect], None, cookie, users, now) == RunGuards([], Some(a.user), cookie, users, now);
    }
  }

  /** `deleteUser` is reached exactly by authenticated admins, who are then `req.user`. */
  lemma OnlyAdminsReachDeleteUser(cookie: Option<SessionToken>, users: map<UserId, User>, now: nat)
    ensures var d := DispatchRequest(Delete, "/admin/users/:id", cookie, users, now);
      var a := Authenticate(cookie, users, now);
      && (d.Reached? <==> a.Authenticated? && a.user.role == RoleAdmin)
      && (d.Reached? ==> d.handler == DeleteUser && d.user == Some(a.user))
      && (!d.Reached? ==> d.Refused? && (d.status == 401 || d.status == 403))
  {
    RoutesAreFound(11);
    DeleteUserRouteAdmitsAdmins(cookie, users, now);
  }

  /** `getAllUsers` is reached exactly by authenticated creators and admins. */
  lemma OnlyCreatorsReachGetAllUsers(cookie: Option<SessionToken>, users: map<UserId, User>, now: nat)
    ensures var d := DispatchRequest(Get, "/admin/users", cookie, users, now);
      var a := Authenticate(cookie, users, now);
      && (d.Reached? <==> a.Authenticated? && (a.user.role == RoleCreator || a.user.role == RoleAdmin))
      && (d.Reached? ==> d.handler == GetAllUsers && d.user == Some(a.user))
  {
    RoutesAreFound(12);
    GetAllUsersRouteAdmitsCreators(cookie, users, now);
  }

  /** Changing a password needs a session: the request is otherwise refused with `protect`'s 401. */
  lemma ChangePasswordNeedsSession(cookie: Option<SessionToken>, users: map<UserId, User>, now: nat)
    ensures var d := DispatchRequest(Patch, "/change-password", cookie, users, now);
      var a := Authenticate(cookie, users, now);
      && (d.Reached? <==> a.Authenticated?)
      && (!d.Reached? ==> d == Refused(401, a.message))
  {
    RoutesAreFound(10);
    SessionRouteAdmitsCallers(10, cookie, users, now);
  }
}
