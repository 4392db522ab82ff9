# taskify: authentication back end and task front end, modelled in Dafny

Taskify is a task manager: an Express/MongoDB back end with cookie-based JWT
sessions and e-mail verification, and a React front end that keeps the
user's task list in a context provider. This project models:

- the user controllers (`registerUser`, `loginUser`, `logoutUser`, `getUser`,
  `updateUser`, `userLoginStatus`, `verifyEmail`, `verifyUser`,
  `forgetPassword`, `resetPassword`, `changePassword`) as ghost
  specification functions over a `Store` of users and one-time tokens
  (`AuthSpec`), and as the methods of a class `AuthService` whose fields are
  the two collections and whose every method is proved to leave the state
  the specification function names (`UserControllers`);
- the session cookie: a token signed for a user id that verifies for 30 days
  (`Session`);
- the middleware: `protect` and the admin, creator and verified gates
  (`AuthMiddlewares`);
- the user routes: the route table in source order, guard chains run in
  order, and dispatch by verb and path (`UserRoutes`);
- the front-end task provider: its state and each operation that updates it,
  with every HTTP request replaced by its outcome (`TaskContext`), and the
  list utilities `filteredTasks` and `overdueTasks` (`Utilities`).

The store keeps the invariant `AuthModel.Valid`: users are keyed by their
id, no two users share an e-mail address, and each user owns at most one
token document. Every state-changing handler is proved to keep it. MongoDB's
`findOne` without a sort returns documents in natural order, which is not
guaranteed to be insertion order; the model picks the first matching
document in insertion order, which makes no difference while each user owns
at most one token.

Conventions: a missing or empty request field is the empty string (`!x` in
the source); a password's length is counted in UTF-16 code units, as
JavaScript's `length` counts them (`AuthModel.Utf16Length`); times are milliseconds; a user id is a string; hashing
(`hashToken`) and password comparison (`bcrypt.compare`, together with the
model's pre-save hashing hook) are total functions given in `Primitives`;
the random 64 bytes of a verification or reset secret, the mailer's success
and the server's clock are parameters.

Behaviour of the code worth noting: `findOneAndDelete({ userId })` deletes one token of the user whatever its
purpose, so a reset request cancels a pending verification link and the
reverse; `forgetPassword` answers 404 for an unknown address; `updateUser`
changes only the name and the photo, never the bio; a duplicate
registration is answered 400.

## Model

| member | source | states |
|---|---|---|
| Session.Verify | backend/src/middleware/authMiddlewares.js:31 | a token verifies exactly when the server signed it and its expiry is still ahead, and then to the id it carries |
| AuthModel.Utf16Length | backend/src/controllers/auth/userControllers.js:17 | a string's JavaScript length: between its character count and twice that, and equal to the character count exactly when every character is in the Basic Multilingual Plane |
| AuthModel.ThreeEmojiAreSixUnits | backend/src/controllers/auth/userControllers.js:17 | a password of three emoji has three characters but six UTF-16 units, so it passes the minimum length |
| AuthModel.NewUser | backend/src/controllers/auth/userControllers.js:20 | the created document carries the given id, name, e-mail and password, the role user, the schema's default photo and bio, and is unverified |
| AuthModel.Supersede | backend/src/controllers/auth/userControllers.js:135-145 | the new token is last, and what precedes it is the store after deleting one token of its owner |
| Session.Issue | backend/src/helpers/generateToken.js:4-13 | the token issued for a user id verifies to that id at every instant before 30 days later and to nothing from then on |
| AuthSpec.RegisterUser | backend/src/controllers/auth/userControllers.js:14-34 | 400 exactly when a field is blank, the password is shorter than 6 UTF-16 units or the e-mail is taken; 500 when creation fails because the id is already taken; otherwise 201, exactly one user added with the given name, e-mail and password, role user, unverified, and a session cookie expiring in 30 days whose token verifies to the new id |
| AuthSpec.RegisterUserKeepsValid | backend/src/controllers/auth/userControllers.js:14-34 | registration keeps ids as keys, e-mails unique and one token per user |
| AuthSpec.DuplicateRegistrationRefused | backend/src/controllers/auth/userControllers.js:18-19 | registering an e-mail already in use is answered 400 and changes nothing |
| AuthSpec.LoginUser | backend/src/controllers/auth/userControllers.js:37-56 | 200 exactly when both fields are given, a user has that e-mail and the password compares equal to the stored one; then the cookie's token verifies to that user for 30 days; every credential failure is the same 400 "Invalid credentials" |
| AuthSpec.RegisteredUserCanLogIn | backend/src/controllers/auth/userControllers.js:14-56 | after a successful registration, logging in with the same e-mail and password succeeds for the new user |
| AuthSpec.LoginFailuresLookAlike | backend/src/controllers/auth/userControllers.js:41-43 | an unknown e-mail and a wrong password receive identical responses |
| AuthSpec.LogoutUser | backend/src/controllers/auth/userControllers.js:59-68 | 200 and a cookie holding no token, expired at time 0 |
| AuthMiddlewares.LoggedOutClientIsRefused | backend/src/controllers/auth/userControllers.js:59-68 | the cookie logout writes is refused by `protect` with "no token" and reports logged out |
| AuthSpec.GetUser | backend/src/controllers/auth/userControllers.js:71-78 | 200 with the caller's document without its password when the caller exists, else 404 |
| AuthSpec.UpdateUser | backend/src/controllers/auth/userControllers.js:81-111 | 404 for a missing caller; otherwise the name changes only when a non-empty name is sent, the photo only when a file is uploaded, every other field and every other user stays, and the reply carries the updated document |
| AuthSpec.UpdateUserKeepsValid | backend/src/controllers/auth/userControllers.js:81-111 | a profile update keeps the store invariant |
| AuthSpec.LoginStatus | backend/src/controllers/auth/userControllers.js:114-123 | true exactly when the cookie holds a signed token that has not expired, with the default status 200 and the cookie untouched |
| AuthMiddlewares.LoginStatusIsWeakerThanProtect | backend/src/controllers/auth/userControllers.js:114-123 | every request `protect` admits reports logged in, but a valid token for a deleted user reports logged in while `protect` refuses it |
| AuthSpec.VerifyEmail | backend/src/controllers/auth/userControllers.js:125-160 | 404 for a missing caller, 400 when already verified; otherwise one token of the caller is deleted, a verification token holding the hash of secret plus id and expiring in 24 hours is appended, a mail carrying the raw secret goes to the caller's address, and the status is 200 or 500 as the mailer succeeds |
| AuthSpec.VerifyEmailKeepsValid | backend/src/controllers/auth/userControllers.js:125-160 | requesting a verification mail keeps the store invariant |
| AuthSpec.VerifyUser | backend/src/controllers/auth/userControllers.js:162-190 | 400 for an empty token or when no unexpired token has its hash; for the first one that does, 200 exactly when its owner exists and 404 exactly when the owner is gone; on 200 the owner becomes verified and exactly that token is removed |
| AuthSpec.VerifyUserKeepsValid | backend/src/controllers/auth/userControllers.js:162-190 | verifying keeps the store invariant |
| AuthSpec.VerificationLinkIsSingleUse | backend/src/controllers/auth/userControllers.js:125-190 | the link from a fresh verification mail verifies the user once, and the same link is refused with 400 afterwards |
| AuthSpec.ForgetPassword | backend/src/controllers/auth/userControllers.js:192-229 | 400 for an empty e-mail, 404 when no user has it; otherwise one of that user's tokens is replaced by a reset token expiring in 1 hour, a mail carrying the raw secret goes to that address, 200 or 500 as the mailer succeeds |
| AuthSpec.ForgetPasswordKeepsValid | backend/src/controllers/auth/userControllers.js:192-229 | a reset request keeps the store invariant |
| AuthSpec.ResetPassword | backend/src/controllers/auth/userControllers.js:232-261 | 400 for a password shorter than 6 UTF-16 units before any lookup, 400 when no unexpired reset token has the hash; for the first one that does, 200 exactly when its owner exists and 404 exactly when the owner is gone; on 200 the owner's password becomes the new one and exactly that token is removed |
| AuthSpec.ResetPasswordKeepsValid | backend/src/controllers/auth/userControllers.js:232-261 | a reset keeps the store invariant |
| AuthSpec.ResetLinkIsSingleUse | backend/src/controllers/auth/userControllers.js:192-261 | the link from a fresh reset mail sets the password once and is refused with 400 afterwards |
| AuthSpec.AppendedVerificationIsConsumedOnce | backend/src/controllers/auth/userControllers.js:169-189 | a live use of a secret whose verification token was appended after tokens without its digest verifies that token's owner and removes exactly that token; a second use is refused with 400 |
| AuthSpec.AppendedResetIsConsumedOnce | backend/src/controllers/auth/userControllers.js:240-260 | a live use of a secret whose reset token was appended after tokens without its digest sets that owner's password and removes exactly that token; a second use is refused with 400 |
| AuthSpec.NoVerificationTokenNoChange | backend/src/controllers/auth/userControllers.js:171-187 | a user who owns no verification token is left unchanged by any verification link |
| AuthSpec.NoResetTokenNoChange | backend/src/controllers/auth/userControllers.js:242-258 | a user who owns no reset token keeps their password whatever reset link is used |
| AuthSpec.ResetRequestSupersedesVerification | backend/src/controllers/auth/userControllers.js:125-229 | a reset request after a verification request leaves the user only the reset token, so the verification link stops working |
| AuthSpec.VerificationRequestSupersedesReset | backend/src/controllers/auth/userControllers.js:125-229 | a verification request after a reset request leaves the user only the verification token, so the reset link stops working |
| AuthSpec.ChangePassword | backend/src/controllers/auth/userControllers.js:263-273 | 400 when a password is missing or the new one is shorter than 6 UTF-16 units, 404 for a missing caller, 400 when the current password does not compare equal; otherwise only the caller's password changes |
| AuthSpec.ChangePasswordKeepsValid | backend/src/controllers/auth/userControllers.js:263-273 | a password change keeps the store invariant |
| AuthSpec.ChangedPasswordGovernsLogin | backend/src/controllers/auth/userControllers.js:263-273 | after a successful change, logging in with the new password succeeds for the caller |
| AuthModel.DeleteOneOwnedBy | backend/src/controllers/auth/userControllers.js:135 | leaves the tokens unchanged when the user owns none, otherwise removes exactly one token the user owns, keeping every other document and the order |
| AuthModel.SupersedeKeepsOnePerUser | backend/src/controllers/auth/userControllers.js:135-145 | deleting the user's token and appending a new one keeps one token per user, and the new one is then the user's only token |
| UserControllers.AuthService.FindUserByEmail | backend/src/controllers/auth/userControllers.js:18 | finds the user with the e-mail exactly when one exists, and it is that user |
| UserControllers.AuthService.RegisterUser | backend/src/controllers/auth/userControllers.js:14-34 | the new state and response are those of `AuthSpec.RegisterUser`, and the invariant holds |
| UserControllers.AuthService.LoginUser | backend/src/controllers/auth/userControllers.js:37-56 | changes nothing and answers `AuthSpec.LoginUser` |
| UserControllers.AuthService.LogoutUser | backend/src/controllers/auth/userControllers.js:59-68 | answers `AuthSpec.LogoutUser` |
| UserControllers.AuthService.GetUser | backend/src/controllers/auth/userControllers.js:71-78 | answers `AuthSpec.GetUser` |
| UserControllers.AuthService.UpdateUser | backend/src/controllers/auth/userControllers.js:81-111 | the new state and response are those of `AuthSpec.UpdateUser` |
| UserControllers.AuthService.UserLoginStatus | backend/src/controllers/auth/userControllers.js:114-123 | answers `AuthSpec.LoginStatus` |
| UserControllers.AuthService.VerifyEmail | backend/src/controllers/auth/userControllers.js:125-160 | the new state, response and mail are those of `AuthSpec.VerifyEmail` |
| UserControllers.AuthService.VerifyUser | backend/src/controllers/auth/userControllers.js:162-190 | the new state and response are those of `AuthSpec.VerifyUser` |
| UserControllers.AuthService.ForgetPassword | backend/src/controllers/auth/userControllers.js:192-229 | the new state, response and mail are those of `AuthSpec.ForgetPassword` |
| UserControllers.AuthService.ResetPassword | backend/src/controllers/auth/userControllers.js:232-261 | the new state and response are those of `AuthSpec.ResetPassword` |
| UserControllers.AuthService.ChangePassword | backend/src/controllers/auth/userControllers.js:263-273 | the new state and response are those of `AuthSpec.ChangePassword` |
| AuthMiddlewares.TryResolve | backend/src/middleware/authMiddlewares.js:29-43 | the `try` block loads the caller exactly when the token verifies to an existing user, with that user's password-free view, and throws "user not found" exactly when it verifies to a missing one |
| AuthMiddlewares.Authenticate | backend/src/middleware/authMiddlewares.js:19-49 | admits exactly a cookie whose token verifies to an existing user, attaching that user without the password; no cookie is "no token"; every other failure, a missing user included, is "token failed" |
| AuthMiddlewares.TokenFailuresLookAlike | backend/src/middleware/authMiddlewares.js:29-48 | a forged token, an expired token and a token of a deleted user are refused with the same message |
| AuthMiddlewares.Exchange.Protect | backend/src/middleware/authMiddlewares.js:19-49 | on admission sets the request's user and calls next once; otherwise sets 401 and the error message and does not call next |
| AuthMiddlewares.AdminMiddleware | backend/src/middleware/authMiddlewares.js:58-66 | passes exactly a present user whose role is admin, otherwise 403 "Access denied, admin only" |
| AuthMiddlewares.CreatorMiddleware | backend/src/middleware/authMiddlewares.js:75-82 | passes exactly a present user whose role is creator or admin, otherwise 403 "Only creators can do this!" |
| AuthMiddlewares.VerifiedMiddleware | backend/src/middleware/authMiddlewares.js:91-98 | passes exactly a present verified user, otherwise 403 "Please verify your email address!" |
| AuthMiddlewares.AdminGateImpliesCreatorGate | backend/src/middleware/authMiddlewares.js:58-82 | whoever passes the admin gate passes the creator gate, and a plain user passes neither |
| UserRoutes.RouteGuardsByGroup | backend/src/routes/userRoutes.js:9-36 | each handler is mounted once; public handlers have no guard, session handlers only `protect`, delete-user `protect` then admin, get-all-users `protect` then creator |
| UserRoutes.ProtectPrecedesRoleGates | backend/src/routes/userRoutes.js:34-36 | every chain with a role gate starts with `protect` |
| UserRoutes.GatesKeepUser | backend/src/routes/userRoutes.js:34-36 | role gates never change the request's user |
| UserRoutes.ProtectedChainSeesCaller | backend/src/routes/userRoutes.js:12-36 | a chain starting with `protect` that reaches its handler does so with the user the cookie authenticates |
| UserRoutes.StoppedChainsAnswer401Or403 | backend/src/routes/userRoutes.js:9-36 | a guard chain that stops answers 401 or 403 |
| UserRoutes.RoutesAreFound | backend/src/routes/userRoutes.js:9-36 | dispatch by the verb and path of each table entry finds that entry |
| UserRoutes.SessionRouteAdmitsCallers | backend/src/routes/userRoutes.js:12-31 | a route behind `protect` alone reaches its handler exactly when the cookie authenticates a user, else 401 |
| UserRoutes.DeleteUserRouteAdmitsAdmins | backend/src/routes/userRoutes.js:34 | the delete-user route reaches its handler exactly for an authenticated admin |
| UserRoutes.GetAllUsersRouteAdmitsCreators | backend/src/routes/userRoutes.js:36 | the get-all-users route reaches its handler exactly for an authenticated creator or admin |
| UserRoutes.OnlyAdminsReachDeleteUser | backend/src/routes/userRoutes.js:34 | a request `DELETE /admin/users/:id` reaches delete-user only for an authenticated admin, and is otherwise refused with 401 or 403 |
| UserRoutes.OnlyCreatorsReachGetAllUsers | backend/src/routes/userRoutes.js:36 | a request `GET /admin/users` reaches get-all-users only for an authenticated creator or admin |
| UserRoutes.ChangePasswordNeedsSession | backend/src/routes/userRoutes.js:31 | a request `PATCH /change-password` reaches its handler only with an authenticated cookie |
| TaskContext.CompletedTasks | frontend/src/context/taskContext.jsx:112 | keeps the list's order, holds only completed tasks, and holds every completed task as often as the list does |
| TaskContext.ActiveTasks | frontend/src/context/taskContext.jsx:113 | keeps the list's order, holds only unfinished tasks, and holds every unfinished task as often as the list does |
| Utilities.FilteredTasks | frontend/src/lib/utilities.jsx:19-26 | for "low", "medium" and "high" keeps, in order and with their multiplicity, exactly the tasks of that priority; for any other value returns the list unchanged |
| Utilities.OverdueTasks | frontend/src/lib/utilities.jsx:28-31 | keeps, in order and with their multiplicity, exactly the unfinished tasks due before the end of today, a missing due date counting as now and an unreadable one as never; none of them is completed |
| Utilities.UndatedTasksAreOverdue | frontend/src/lib/utilities.jsx:28-31 | before the last millisecond of the day, every unfinished task without a due date is overdue, and a task whose date cannot be read never is |
| TaskContext.ReplaceById | frontend/src/context/taskContext.jsx:83-85 | same length and ids; each task with the updated task's id becomes the updated task, every other stays |
| TaskContext.RemoveById | frontend/src/context/taskContext.jsx:97 | no task with the id remains; every other task keeps its multiplicity and the order is kept |
| TaskContext.CompletedAndActivePartition | frontend/src/context/taskContext.jsx:112-113 | the completed and active lists keep the order, are disjoint, hold only completed and only unfinished tasks, and together hold every task as often as the list |
| TaskContext.TasksProvider.constructor | frontend/src/context/taskContext.jsx:14-21 | no tasks, not loading, priority "all", modal closed |
| TaskContext.TasksProvider.OpenModalForAdd | frontend/src/context/taskContext.jsx:23-27 | mode "add", editing, empty draft; nothing else changes |
| TaskContext.TasksProvider.OpenModalForEdit | frontend/src/context/taskContext.jsx:29-33 | mode "edit", editing, the active task is the given one; the draft is untouched |
| TaskContext.TasksProvider.OpenProfileModal | frontend/src/context/taskContext.jsx:35 | the profile modal is open; nothing else changes |
| TaskContext.TasksProvider.CloseModal | frontend/src/context/taskContext.jsx:37-43 | every modal field returns to its initial value; tasks, priority and loading are untouched |
| TaskContext.TasksProvider.SetPriority | frontend/src/context/taskContext.jsx:18 | the priority becomes the given one; nothing else changes |
| TaskContext.TasksProvider.GetTasks | frontend/src/context/taskContext.jsx:45-54 | not loading afterwards; the list becomes the fetched tasks, or empty when the response has none, or stays on failure |
| TaskContext.TasksProvider.GetTask | frontend/src/context/taskContext.jsx:56-65 | not loading afterwards; the draft becomes the fetched task, or stays on failure |
| TaskContext.TasksProvider.CreateTask | frontend/src/context/taskContext.jsx:67-77 | not loading afterwards; the server's task is appended, or the list stays on failure |
| TaskContext.TasksProvider.UpdateTask | frontend/src/context/taskContext.jsx:79-91 | not loading afterwards; the list is `ReplaceById` of the server's copy, or stays on failure |
| TaskContext.TasksProvider.DeleteTask | frontend/src/context/taskContext.jsx:93-102 | not loading afterwards; the list is `RemoveById` of the id, or stays on failure |
| TaskContext.TasksProvider.HandleInput | frontend/src/context/taskContext.jsx:104-110 | "setTask" replaces the whole draft; any other name sets that one field and keeps the rest |

## Left out

- JWT signatures and the secret: a token is either signed by the server for an id and an expiry or forged; `jwt.verify` is modelled as "signed and not expired". The token's expiry is kept in milliseconds although JWT counts seconds.
- bcrypt and the user model's pre-save hashing hook are folded into one total comparison function; the stored password is the value handed to the model. The user model is not part of this model, and the fold assumes its hook hashes only a password that was just set: a `save()` that does not set a password (in `updateUser` and `verifyUser`) leaves unchanged which plaintexts `bcrypt.compare` accepts.
- `hashToken` is an arbitrary total function; no property of SHA-256 is used beyond its being a function.
- `crypto.randomBytes` is a parameter (`secret`); the proofs of single use assume no earlier token carries the same digest.
- `sendEmail` is reduced to whether it succeeded and the mail it would send (subject, recipient, template, name, raw secret); the link's base URL and the sender address from the environment are not modelled.
- AuthSpec.RegisterUser: `User.create` resolves to the new document or rejects, so the 400 "Invalid user data" at userControllers.js:21 is dead code. The model's only failing creation is an id already present, answered 500 as Express's default error handler answers a rejected creation (its HTML body is not modelled). Schema validation, the schema's default photo and bio values, and other database errors are not modelled.
- Cookie attributes (`path`, `httpOnly`, `sameSite`, `secure`) are not modelled; only the token and the expiry are.
- Express path parameters: routes are matched by their literal pattern, so `/verify-user/:verificationToken` is the path written that way.
- `deleteUser` and `getAllUsers`: backend/src/controllers/auth/adminControllers.js is not part of this model; only the guards in front of them are.
- `formatTime` (frontend/src/lib/utilities.jsx:4-17) depends on the clock and on `moment`'s relative-time text and is not modelled.
- AuthSpec.RegisterUser, AuthSpec.ResetPassword, AuthSpec.ChangePassword: request fields are modelled as text; a JSON value that is not a string (a number, say) has no `length`, so `undefined < 6` is false and JavaScript lets it past the length guard, which the model does not capture.
- Utilities.OverdueTasks: the due date is `Unset` (missing, which `moment` reads as the current instant, so an unfinished undated task is overdue), an instant, or `Unparsable` (`null`, "" or text `moment` cannot parse, an invalid moment that is never before anything). Which texts `moment` parses, and to which instant, is not modelled.
- TaskContext: axios, toasts and `console.error` are left out; each request's result is given as an outcome. The `useEffect` that fetches the tasks when the user id changes, React's batching of updates and the concurrency of overlapping requests are not modelled.
- `setIsEditing` is passed through to consumers unchanged and has no behaviour of its own.
- Concurrency between requests on the server is not modelled.
- Error responses: server.js:28 mounts `errorHandler` before the routes, so it never sees an error a route throws. `asyncHandler` forwards such an error to Express's default handler. That handler keeps the 401 or 403 status the middleware set, or answers 500 for a rejected creation (as in the AuthSpec.RegisterUser line above). Its body is an HTML page, not JSON, so the client never receives the thrown messages ("Not authorized, token failed" and the others) as a JSON `message`. The model records each status with the message as `protect` or a gate throws it; `errorHandler.js` itself is not part of this model.
