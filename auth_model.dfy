/**
 * The data the authentication handlers work on: user documents, the
 * secondary-token collection (email verification and password reset), the
 * responses they send, and the invariants the two stores keep.
 */
module AuthModel {
  import opened Wrappers
  import opened Seqs
  import opened Session

  /** `password.length < 6` is refused by every handler that sets a password. */
  const MinPasswordLength: nat := 6

  /**
   * JavaScript's `s.length`: UTF-16 code units, one for a character of the
   * Basic Multilingual Plane and two (a surrogate pair) for any other.
   */
  function Utf16Length(s: string): (n: nat)
    ensures |s| <= n <= 2 * |s|
    ensures n == |s| <==> forall i :: 0 <= i < |s| ==> (s[i] as int) < 0x1_0000
  {
    if s == [] then 0
    else (if (s[0] as int) < 0x1_0000 then 1 else 2) + Utf16Length(s[1..])
  }

  /** Three emoji are six UTF-16 units: a long enough password, though only three characters. */
  lemma ThreeEmojiAreSixUnits()
    ensures Utf16Length("\U{1F600}\U{1F600}\U{1F600}") == MinPasswordLength
    ensures |"\U{1F600}\U{1F600}\U{1F600}"| == 3
  {
    assert "\U{1F600}\U{1F600}\U{1F600}"[1..] == "\U{1F600}\U{1F600}";
    assert "\U{1F600}\U{1F600}"[1..] == "\U{1F600}";
  }

  const HourMs: nat := 60 * 60 * 1000

  /** A verification token expires a day after it is issued. */
  const VerificationLifetimeMs: nat := 24 * HourMs

  /** A password-reset token expires an hour after it is issued. */
  const ResetLifetimeMs: nat := HourMs

  /** `'user'` (the default), `'creator'` and `'admin'`. */
  datatype Role = RoleUser | RoleCreator | RoleAdmin

  /** The output of `hashToken`, stored in place of a raw secret. */
  type Digest = string

  /**
   * A user document. `password` is the value the handlers hand to `save()`;
   * whatever the schema's save hook does to it is folded into `compare`. This
   * assumes the hook hashes only a password that was just set, so a `save()`
   * that leaves the password alone leaves alone which plaintexts match it.
   */
  datatype User = User(
    id: UserId, name: string, email: string, password: string,
    role: Role, photo: string, bio: string, isVerified: bool)

  /** A user document as sent to a client or attached to a request: no password. */
  datatype PublicUser = PublicUser(
    id: UserId, name: string, email: string,
    role: Role, photo: string, bio: string, isVerified: bool)

  function View(u: User): PublicUser
  {
    PublicUser(u.id, u.name, u.email, u.role, u.photo, u.bio, u.isVerified)
  }

  /** Schema defaults for the fields registration does not set (the schema is not part of this model). */
  const DefaultPhoto: string := ""
  const DefaultBio: string := ""

  /** The document `User.create({ name, email, password })` stores. */
  function NewUser(id: UserId, name: string, email: string, password: string): (u: User)
    ensures u.id == id && u.name == name && u.email == email && u.password == password
    ensures u.role == RoleUser && !u.isVerified && u.photo == DefaultPhoto && u.bio == DefaultBio
  {
    User(id, name, email, password, RoleUser, DefaultPhoto, DefaultBio, false)
  }

  /**
   * A secondary token. Verification tokens set `verificationToken`, reset
   * tokens set `passwordResetToken`; both hold a digest, never the raw secret.
   */
  datatype Token = Token(
    userId: UserId,
    verificationToken: Option<Digest>,
    passwordResetToken: Option<Digest>,
    createdAt: nat,
    expiresAt: nat)

  /**
   * The primitives the handlers call but this model does not define:
   * `hashToken` (deterministic) and `bcrypt.compare(plain, stored)`.
   */
  datatype Primitives = Primitives(hashToken: string -> Digest, compare: (string, string) -> bool)

  /** The `token` cookie a response sets; `None` is the empty value logout writes. */
  datatype Cookie = Untouched | SetToken(value: Option<SessionToken>, expires: nat)

  datatype Body =
    | Message(text: string)
    | SessionBody(user: PublicUser, token: SessionToken)
    | ProfileBody(user: PublicUser)
    | UpdatedBody(text: string, user: PublicUser)
    | FlagBody(flag: bool)

  datatype Response = Response(status: nat, body: Body, cookie: Cookie)

  function Reply(status: nat, text: string): Response
  {
    Response(status, Message(text), Untouched)
  }

  /** An email handed to `sendEmail`; `secret` is the raw token the link carries. */
  datatype Mail = Mail(subject: string, sendTo: string, template: string, recipient: string, secret: string)

  /** The user collection and the token collection (in the order a store scans it). */
  datatype Store = Store(users: map<UserId, User>, tokens: seq<Token>)

  /** What one handler does: the stores afterwards, the response, and the email it tried to send. */
  datatype Step = Step(store: Store, res: Response, mail: Option<Mail>)

  function Reject(st: Store, status: nat, text: string): Step
  {
    Step(st, Reply(status, text), None)
  }

  ghost predicate KeysAreIds(users: map<UserId, User>)
  {
    forall id :: id in users ==> users[id].id == id
  }

  ghost predicate UniqueEmails(users: map<UserId, User>)
  {
    forall a, b :: a in users && b in users && users[a].email == users[b].email ==> a == b
  }

  ghost predicate OneTokenPerUser(tokens: seq<Token>)
  {
    forall i, j :: 0 <= i < j < |tokens| ==> tokens[i].userId != tokens[j].userId
  }

  /** The invariant every handler keeps. */
  ghost predicate Valid(st: Store)
  {
    KeysAreIds(st.users) && UniqueEmails(st.users) && OneTokenPerUser(st.tokens)
  }

  /** `User.findOne({ email })` finds a document. */
  predicate EmailTaken(users: map<UserId, User>, email: string)
  {
    exists id :: id in users && users[id].email == email
  }

  /** The document `User.findOne({ email })` returns. */
  ghost function UserWithEmail(users: map<UserId, User>, email: string): (id: UserId)
    requires EmailTaken(users, email)
    ensures id in users && users[id].email == email
  {
    var id :| id in users && users[id].email == email; id
  }

  /** With unique emails, the document found by email is the only one with that email. */
  lemma UserWithEmailIsUnique(users: map<UserId, User>, id: UserId)
    requires UniqueEmails(users) && id in users
    ensures EmailTaken(users, users[id].email) && UserWithEmail(users, users[id].email) == id
  {
  }

  function OwnedBy(uid: UserId): Token -> bool
  {
    (t: Token) => t.userId == uid
  }

  /** Matches `Token.findOne({ verificationToken: h, expiresAt: { $gt: now } })`. */
  function LiveVerification(h: Digest, now: nat): Token -> bool
  {
    (t: Token) => t.verificationToken == Some(h) && t.expiresAt > now
  }

  /** Matches `Token.findOne({ passwordResetToken: h, expiresAt: { $gt: now } })`. */
  function LiveReset(h: Digest, now: nat): Token -> bool
  {
    (t: Token) => t.passwordResetToken == Some(h) && t.expiresAt > now
  }

  /**
   * `Token.findOneAndDelete({ userId })`: removes the first token the user
   * owns, whatever its purpose, and leaves every other token in place.
   */
  function DeleteOneOwnedBy(tokens: seq<Token>, uid: UserId): (r: seq<Token>)
    ensures (forall k :: 0 <= k < |tokens| ==> tokens[k].userId != uid) ==> r == tokens
    ensures (exists k :: 0 <= k < |tokens| && tokens[k].userId == uid) ==>
      exists i :: 0 <= i < |tokens| && tokens[i].userId == uid && r == RemoveAt(tokens, i)
    ensures forall x: Token :: x.userId != uid ==> multiset(r)[x] == multiset(tokens)[x]
    ensures multiset(r) <= multiset(tokens)
  {
    match FirstIndex(tokens, OwnedBy(uid))
    case None => tokens
    case Some(i) => RemoveAt(tokens, i)
  }

  /**
   * Issuing a secondary token: `Token.findOneAndDelete({ userId })` for the
   * new token's owner, then the new token is saved after the others.
   */
  function Supersede(tokens: seq<Token>, t: Token): (r: seq<Token>)
    ensures |r| > 0 && r[|r| - 1] == t && r[..|r| - 1] == DeleteOneOwnedBy(tokens, t.userId)
  {
    DeleteOneOwnedBy(tokens, t.userId) + [t]
  }

  /** Removing one token keeps "at most one token per user". */
  lemma {:induction false} RemoveAtKeepsOnePerUser(tokens: seq<Token>, i: nat)
    requires i < |tokens| && OneTokenPerUser(tokens)
    ensures OneTokenPerUser(RemoveAt(tokens, i))
  {
    var r := RemoveAt(tokens, i);
    forall a, b | 0 <= a < b < |r| ensures r[a].userId != r[b].userId {
      var a' := if a < i then a else a + 1;
      var b' := if b < i then b else b + 1;
      assert r[a] == tokens[a'] && r[b] == tokens[b'];
    }
  }

  /**
   * With at most one token per user, deleting one of the user's tokens
   * leaves the user none, and keeps at most one token per user.
   */
  lemma {:induction false} DeleteOneOwnedByClears(tokens: seq<Token>, uid: UserId)
    requires OneTokenPerUser(tokens)
    ensures OneTokenPerUser(DeleteOneOwnedBy(tokens, uid))
    ensures forall k :: 0 <= k < |DeleteOneOwnedBy(tokens, uid)| ==> DeleteOneOwnedBy(tokens, uid)[k].userId != uid
  {
    match FirstIndex(tokens, OwnedBy(uid))
    case None =>
    case Some(i) =>
      var d := RemoveAt(tokens, i);
      RemoveAtKeepsOnePerUser(tokens, i);
      forall k | 0 <= k < |d| ensures d[k].userId != uid {
        if k < i {
          assert d[k] == tokens[k];
        } else {
          assert d[k] == tokens[k + 1];
        }
      }
  }

  /**
   * Superseding (delete one token of the user, then append a new one for the
   * same user) keeps at most one token per user, and the new token is the
   * only one the user then has.
   */
  lemma {:induction false} SupersedeKeepsOnePerUser(tokens: seq<Token>, t: Token)
    requires OneTokenPerUser(tokens)
    ensures OneTokenPerUser(Supersede(tokens, t))
    ensures var r := Supersede(tokens, t);
      forall k :: 0 <= k < |r| && r[k].userId == t.userId ==> r[k] == t
  {
    var d := DeleteOneOwnedBy(tokens, t.userId);
    DeleteOneOwnedByClears(tokens, t.userId);
    var r := d + [t];
    forall a, b | 0 <= a < b < |r| ensures r[a].userId != r[b].userId {
      assert r[a] == d[a];
    }
  }
}
