/**
 * The session state machine shared by the three roles: the login handlers
 * (postUsersLogin, postPartnersLogin, postAdminsLogin), the three
 * `requireAuthentication` middleware and the logout handlers
 * (deleteUsersLogin, deletePartnersLogin, deleteAdminsLogin).
 */
module Auth {
  import opened Wrappers
  import opened Js
  import opened Roles
  import opened Primitives
  import opened Http
  import A = Accounts
  import S = Sessions
  import Store

  /** The token type every login issues. */
  const LoginTokenType: string := "authentication"

  /**
   * Why a login fails: `authenticate` rejects with no value, or the session
   * record's validator refuses the token with a validation error.
   */
  datatype LoginFailure = AuthenticationRejected | SessionRefused

  datatype LoginResult = Rejected(failure: LoginFailure) | Issued(account: A.Account, token: string)

  /**
   * A login: authenticate the picked credentials, issue an 'authentication'
   * token for the account, and record a session for it; an empty token
   * fails the session's validator, which rejects the login too.
   */
  function LoginSpec(lib: Library, keys: Secrets, role: Role, table: seq<A.Account>, body: A.Credentials,
                     iv: string, iat: int): (r: LoginResult)
    ensures r.Issued? ==> A.Authenticate(lib, table, body) == Some(r.account)
    ensures r.Issued? ==> Some(r.token) == A.GenerateToken(lib, keys, role, r.account.id, Some(LoginTokenType), iv, iat)
    ensures r.Issued? ==> r.token != ""
    ensures A.Authenticate(lib, table, body).None? <==> r == Rejected(AuthenticationRejected)
    ensures r == Rejected(SessionRefused) ==>
      A.GenerateToken(lib, keys, role, A.Authenticate(lib, table, body).value.id, Some(LoginTokenType), iv, iat) == Some("")
  {
    match A.Authenticate(lib, table, body)
    case None => Rejected(AuthenticationRejected)
    case Some(a) =>
      var t := A.GenerateToken(lib, keys, role, a.id, Some(LoginTokenType), iv, iat).value;
      if t == "" then Rejected(SessionRefused) else Issued(a, t)
  }

  /**
   * The catch of postXLogin as written. The partner and admin handlers send
   * an empty 401. The user handler sends `e.errors`: after a refused session
   * record that is the validator's error list, but `authenticate` rejects
   * with no value, so reading `errors` throws inside the catch and the
   * client never gets an answer.
   */
  function FailureReplyAsWritten(role: Role, f: LoginFailure): (r: Reply)
    ensures r == NoReply <==> role == User && f == AuthenticationRejected
    ensures r.Sent? ==> r.response.status == 401 && r.response.auth == None
  {
    match (role, f)
    case (User, AuthenticationRejected) => NoReply
    case _ => Sent(Response(401, None, Empty))
  }

  /** The catch as evidently intended: every failed login, in every role, is answered 401 without a token. */
  function FailureReply(role: Role, f: LoginFailure): (r: Reply)
    ensures r.Sent? && r.response.status == 401 && r.response.auth == None
  {
    Sent(Response(401, None, Empty))
  }

  /**
   * The intended catch agrees with the one written wherever the written one
   * answers, and differs only for a user whose credentials are refused.
   */
  lemma FailureReplyDiffersOnlyForUser(role: Role, f: LoginFailure)
    ensures FailureReplyAsWritten(role, f) != FailureReply(role, f) <==> role == User && f == AuthenticationRejected
  {
  }

  /** A user login without credentials is refused by `authenticate` and, as written, never answered. */
  lemma UserLoginFailureUnanswered(lib: Library, keys: Secrets, table: seq<A.Account>, iv: string, iat: int)
    ensures var out := LoginSpec(lib, keys, User, table, A.Credentials(None, None), iv, iat);
      && out == Rejected(AuthenticationRejected)
      && FailureReplyAsWritten(User, out.failure) == NoReply
      && FailureReply(User, out.failure).Sent?
  {
  }

  datatype AuthResult =
    | Denied(found: Option<S.Session>)
    | Granted(session: S.Session, account: A.Account)

  /** The text the middleware works with: `req.get('Auth') || ''`. */
  function HeaderToken(header: Option<string>): string {
    if header.Some? then header.value else ""
  }

  /**
   * requireAuthentication: look the session up by the MD5 of the header,
   * then resolve the role's account from the token itself. `found` is the
   * session record when only the second step failed.
   */
  function Authorize(lib: Library, keys: Secrets, role: Role, table: seq<A.Account>,
                     sessions: seq<S.Session>, header: Option<string>): (r: AuthResult)
    ensures r.Denied? && r.found.None? ==>
      forall s :: s in sessions ==> s.tokenHash != lib.md5(HeaderToken(header))
    ensures r.Granted? ==>
      && r.session in sessions && r.session.tokenHash == lib.md5(HeaderToken(header))
      && r.account in table
      && A.FindByToken(lib, keys, role, table, HeaderToken(header)) == Some(r.account)
  {
    var token := HeaderToken(header);
    match S.FirstWithHash(sessions, lib.md5(token))
    case None => Denied(None)
    case Some(s) =>
      match A.FindByToken(lib, keys, role, table, token)
      case None => Denied(Some(s))
      case Some(a) => Granted(s, a)
  }

  // ----- properties of the state machine -----

  /** Right credentials for a stored account always log in, with that account. */
  lemma LoginAccepts(lib: Library, keys: Secrets, role: Role, table: seq<A.Account>, body: A.Credentials,
                     a: A.Account, iv: string, iat: int)
    requires Lawful(lib) && A.EmailsUnique(table) && a in table
    requires body.email == Some(a.email) && body.password.Some?
    requires lib.bcryptCompare(body.password.value, a.passwordHash)
    ensures LoginSpec(lib, keys, role, table, body, iv, iat).Issued?
    ensures LoginSpec(lib, keys, role, table, body, iv, iat).account == a
  {
    A.AuthenticateAccepts(lib, table, body, a);
    var plain := lib.stringify(TokenPayload(role, a.id, LoginTokenType));
    SignedTokenNonEmpty(lib, lib.aesEncrypt(plain, keys.encryption, iv), keys.signing, iat);
  }

  /**
   * The token a login issues passes the same role's middleware once its
   * session is recorded, and resolves to the account that logged in.
   */
  lemma LoginThenAuthorized(lib: Library, keys: Secrets, role: Role, table: seq<A.Account>, body: A.Credentials,
                            iv: string, iat: int, sessions: seq<S.Session>, id: int)
    requires Lawful(lib) && A.IdsIncreasing(table)
    requires LoginSpec(lib, keys, role, table, body, iv, iat).Issued?
    ensures var t := LoginSpec(lib, keys, role, table, body, iv, iat).token;
      var r := Authorize(lib, keys, role, table, sessions + [S.Session(id, lib.md5(t))], Some(t));
      r.Granted? && r.account == LoginSpec(lib, keys, role, table, body, iv, iat).account
  {
    var out := LoginSpec(lib, keys, role, table, body, iv, iat);
    var a, t := out.account, out.token;
    S.CreatedSessionIsFound(lib, sessions, t, id);
    A.TokenRoundTrip(lib, keys, role, table, a.id, LoginTokenType, iv, iat);
    A.FindByIdFindsRow(table, a);
  }

  /**
   * A token issued by one role's login is refused by every other role's
   * middleware, even though its session record is in the shared table.
   */
  lemma OtherRolesDenied(lib: Library, keys: Secrets, role: Role, table: seq<A.Account>, body: A.Credentials,
                         iv: string, iat: int, other: Role, otherTable: seq<A.Account>, sessions: seq<S.Session>)
    requires Lawful(lib) && other != role
    requires LoginSpec(lib, keys, role, table, body, iv, iat).Issued?
    ensures Authorize(lib, keys, other, otherTable, sessions,
                      Some(LoginSpec(lib, keys, role, table, body, iv, iat).token)).Denied?
  {
    var a := LoginSpec(lib, keys, role, table, body, iv, iat).account;
    A.OtherRoleTokenRejected(lib, keys, role, other, otherTable, a.id, LoginTokenType, iv, iat);
  }

  /** A request without an `Auth` header never passes. */
  lemma MissingHeaderDenied(lib: Library, keys: Secrets, role: Role, table: seq<A.Account>, sessions: seq<S.Session>)
    requires Lawful(lib)
    ensures Authorize(lib, keys, role, table, sessions, None).Denied?
  {
    A.EmptyTokenRejected(lib, keys, role, table);
  }

  /**
   * Logout revokes: once the session record a request was authorised with
   * is destroyed, and no other record has its hash, the same header finds
   * no session at all.
   */
  lemma LogoutRevokes(lib: Library, keys: Secrets, role: Role, table: seq<A.Account>,
                      sessions: seq<S.Session>, header: Option<string>)
    requires Authorize(lib, keys, role, table, sessions, header).Granted?
    requires var s := Authorize(lib, keys, role, table, sessions, header).session;
      forall x :: x in sessions && x.tokenHash == s.tokenHash ==> x.id == s.id
    ensures var s := Authorize(lib, keys, role, table, sessions, header).session;
      Authorize(lib, keys, role, table, S.RemoveId(sessions, s.id), header) == Denied(None)
  {
    var s := Authorize(lib, keys, role, table, sessions, header).session;
    S.DestroyedSessionIsGone(sessions, s);
  }

  /**
   * The whole cycle for a fresh token: login records one session, the
   * middleware grants the account with exactly that session, and after
   * logout the token is refused.
   */
  lemma SessionLifecycle(lib: Library, keys: Secrets, role: Role, table: seq<A.Account>, body: A.Credentials,
                         iv: string, iat: int, sessions: seq<S.Session>, id: int)
    requires Lawful(lib) && A.IdsIncreasing(table)
    requires LoginSpec(lib, keys, role, table, body, iv, iat).Issued?
    requires forall x :: x in sessions ==> x.id != id
    requires forall x :: x in sessions ==> x.tokenHash != lib.md5(LoginSpec(lib, keys, role, table, body, iv, iat).token)
    ensures var out := LoginSpec(lib, keys, role, table, body, iv, iat);
      var s := S.Session(id, lib.md5(out.token));
      && Authorize(lib, keys, role, table, sessions + [s], Some(out.token)) == Granted(s, out.account)
      && Authorize(lib, keys, role, table, S.RemoveId(sessions + [s], id), Some(out.token)) == Denied(None)
  {
    var out := LoginSpec(lib, keys, role, table, body, iv, iat);
    var s := S.Session(id, lib.md5(out.token));
    LoginThenAuthorized(lib, keys, role, table, body, iv, iat, sessions, id);
    assert Authorize(lib, keys, role, table, sessions + [s], Some(out.token)).session == s;
    LogoutRevokes(lib, keys, role, table, sessions + [s], Some(out.token));
  }

  // ----- the handlers -----

  /**
   * postXLogin: on success the `Auth` header carries the token and the body
   * the account's public JSON, and exactly one session record is added; on
   * a failure the catch answers as written (`FailureReplyAsWritten`) and the
   * session table is untouched.
   */
  method Login(db: Store.Db, role: Role, body: A.Credentials, iv: string, iat: int) returns (reply: Reply)
    requires db.Valid()
    modifies db`tokens, db`lastTokenId
    ensures db.Valid()
    ensures match LoginSpec(db.lib, db.keys, role, db.Table(role), body, iv, iat)
      case Rejected(f) =>
        reply == FailureReplyAsWritten(role, f)
        && db.tokens == old(db.tokens) && db.lastTokenId == old(db.lastTokenId)
      case Issued(a, t) =>
        reply == Sent(Response(200, Some(t), Object(A.ToPublicJson(role, a))))
        && db.tokens == old(db.tokens) + [S.Session(old(db.lastTokenId) + 1, db.lib.md5(t))]
  {
    var account := A.Authenticate(db.lib, db.Table(role), body);
    if account.None? {
      return FailureReplyAsWritten(role, AuthenticationRejected);
    }
    var token := A.GenerateToken(db.lib, db.keys, role, account.value.id, Some(LoginTokenType), iv, iat);
    var session := db.CreateSession(token);
    if session.None? {
      return FailureReplyAsWritten(role, SessionRefused);
    }
    reply := Sent(Response(200, token, Object(A.ToPublicJson(role, account.value))));
  }

  /** The request object the middleware decorates. */
  class HttpRequest {
    const auth: Option<string>
    var token: Option<S.Session>
    var user: Option<A.Account>
    var partner: Option<A.Account>
    var admin: Option<A.Account>

    constructor (auth: Option<string>)
      ensures this.auth == auth && token == None && user == None && partner == None && admin == None
    {
      this.auth := auth;
      token := None;
      user, partner, admin := None, None, None;
    }

    /** `req.user`, `req.partner` or `req.admin`. */
    function Principal(role: Role): Option<A.Account>
      reads this
    {
      match role
      case User => user
      case Partner => partner
      case Admin => admin
    }
  }

  datatype Verdict = Next | Unauthorized

  /**
   * requireAuthentication: `req.token` is set as soon as a session record
   * matches, the role's principal only when the account resolves too; any
   * failure answers 401 and `next` is not called.
   */
  method RequireAuthentication(db: Store.Db, role: Role, req: HttpRequest) returns (v: Verdict)
    modifies req
    ensures match Authorize(db.lib, db.keys, role, db.Table(role), db.tokens, req.auth)
      case Denied(found) =>
        && v == Unauthorized
        && req.token == (if found.Some? then found else old(req.token))
        && forall r :: req.Principal(r) == old(req.Principal(r))
      case Granted(s, a) =>
        && v == Next
        && req.token == Some(s)
        && req.Principal(role) == Some(a)
        && forall r :: r != role ==> req.Principal(r) == old(req.Principal(r))
  {
    var token := HeaderToken(req.auth);
    var session := S.FirstWithHash(db.tokens, db.lib.md5(token));
    if session.None? {
      return Unauthorized;
    }
    req.token := session;
    var account := A.FindByToken(db.lib, db.keys, role, db.Table(role), token);
    if account.None? {
      return Unauthorized;
    }
    match role {
      case User => req.user := account;
      case Partner => req.partner := account;
      case Admin => req.admin := account;
    }
    v := Next;
  }

  /** deleteXLogin: destroy the session record the middleware matched and answer 204. */
  method Logout(db: Store.Db, req: HttpRequest) returns (resp: Response)
    requires db.Valid() && req.token.Some?
    modifies db`tokens
    ensures db.Valid()
    ensures db.tokens == S.RemoveId(old(db.tokens), req.token.value.id)
    ensures resp == Response(204, None, Empty)
  {
    db.DestroySession(req.token.value);
    resp := Response(204, None, Empty);
  }
}
