/**
 * `generateAuthTokens` (api/middlewares/auth.js): after a login strategy has set
 * `req.userId`, mint a refresh/access token pair, record the refresh token as a new session
 * row of the user, set the two cookies and answer `{ user, accessToken, expiresAt }`.
 * The lemmas at the end relate the issuer to the gate.
 */
module TokenIssuer {
  import opened Wrappers
  import opened Strings
  import opened Store
  import opened Http
  import opened Tokens
  import opened AuthGate

  /** A cookie as `res.cookie(name, value, options)` sets it (RFC 6265, section 4.1). */
  datatype Cookie = Cookie(name: string, value: string, httpOnly: bool, signed: bool, expires: int)

  /** `cookies[k]` is the last cookie named `name`: none set after it bears that name. */
  predicate LastOf(cookies: seq<Cookie>, name: string, k: int)
  {
    0 <= k < |cookies| && cookies[k].name == name && forall j :: k < j < |cookies| ==> cookies[j].name != name
  }

  /**
   * `req.signedCookies` of a later request at instant `now`: the browser sends back, per
   * name, the cookie set last, unless it has expired (section 5.3 of RFC 6265), and
   * cookie-parser keeps in `signedCookies` only those it signed. A name is in the jar
   * exactly when its last cookie is signed and unexpired, and then with that cookie's value.
   */
  function SignedCookieJar(cookies: seq<Cookie>, now: int): (jar: map<string, SignedCookie>)
    decreases |cookies|
    ensures forall name :: name in jar <==>
              exists k :: LastOf(cookies, name, k) && cookies[k].signed && now < cookies[k].expires
    ensures forall name, k :: LastOf(cookies, name, k) && name in jar ==> jar[name] == Verified(cookies[k].value)
  {
    if cookies == [] then map[]
    else
      var c := cookies[|cookies| - 1];
      var earlier := SignedCookieJar(cookies[..|cookies| - 1], now);
      LastOfSplit(cookies);
      if c.signed && now < c.expires then earlier[c.name := Verified(c.value)] else earlier - {c.name}
  }

  /**
   * The last cookie of its own name is the final one; for any other name, the last cookie
   * is the same in the list without the final one.
   */
  lemma LastOfSplit(cookies: seq<Cookie>)
    requires cookies != []
    ensures var n := |cookies| - 1;
            forall name, k :: LastOf(cookies, name, k) <==>
              if name == cookies[n].name then k == n else LastOf(cookies[..n], name, k)
  {
    var n := |cookies| - 1;
    forall name, k
      ensures LastOf(cookies, name, k) <==> if name == cookies[n].name then k == n else LastOf(cookies[..n], name, k)
    {
      if name != cookies[n].name && 0 <= k < n {
        assert forall j :: k < j < n ==> cookies[..n][j] == cookies[j];
      }
    }
  }

  /** The JSON body of a successful answer. */
  datatype AuthBody = AuthBody(user: User, accessToken: string, expiresAt: int)

  datatype Reply = Reply(status: int, body: AuthBody)

  /** How the middleware ends: it answered, or it called `next(error)`. */
  datatype Completion = Sent | Forwarded(error: HttpError)

  /** The Express response object, reduced to the cookies set on it and the answer sent. */
  class Response {
    var cookies: seq<Cookie>
    var reply: Option<Reply>

    constructor ()
      ensures cookies == [] && reply == None
    {
      cookies := [];
      reply := None;
    }

    /**
     * `res.cookie(...)`, given cookie-parser's secret: a signed cookie without a secret
     * throws and sets nothing; otherwise the cookie is appended and nothing is sent.
     */
    method SetCookie(c: Cookie, secret: Option<string>) returns (thrown: bool)
      modifies this
      ensures thrown <==> c.signed && (secret.None? || secret.value == "")
      ensures cookies == (if thrown then old(cookies) else old(cookies) + [c]) && reply == old(reply)
    {
      thrown := c.signed && (secret.None? || secret.value == "");
      if !thrown {
        cookies := cookies + [c];
      }
    }

    /** `res.status(status).json(body)`. */
    method Json(status: int, body: AuthBody)
      modifies this
      ensures reply == Some(Reply(status, body)) && cookies == old(cookies)
    {
      reply := Some(Reply(status, body));
    }
  }

  method GenerateAuthTokens(req: Request, db: Database, res: Response, cfg: Config, sign: Signer,
                            now: int, outage: set<Query>) returns (c: Completion)
    requires db.Valid()
    modifies db`sessions, res
    ensures db.Valid() && db.users == old(db.users)
    // the failure paths, in the order the source tests them
    ensures !IsTruthyId(req.userId) ==> c == Forwarded(InternalServerError)
    ensures IsTruthyId(req.userId) && UserLookup in outage ==> c == Forwarded(StorageFailure(UserLookup))
    ensures IsTruthyId(req.userId) && UserLookup !in outage && req.userId.value !in db.users
            ==> c == Forwarded(Unauthorized)
    ensures IsTruthyId(req.userId) && UserLookup !in outage && req.userId.value in db.users && SessionInsert in outage
            ==> c == Forwarded(StorageFailure(SessionInsert))
    // after the row is written, `res.cookie` throws for a signed cookie without a cookie secret
    ensures IsTruthyId(req.userId) && UserLookup !in outage && req.userId.value in db.users && SessionInsert !in outage
            && !CanSetCookies(cfg)
            ==> && c == Forwarded(SigningSecretMissing)
                && db.sessions == old(db.sessions) + [Session(req.userId.value, sign(req.userId.value, cfg.refreshSecret,
                                                                                     cfg.refreshLife, now), now + cfg.refreshLife)]
    // no cookie and no answer on failure, and no session row unless it was already written
    ensures c.Forwarded? ==> res.cookies == old(res.cookies) && res.reply == old(res.reply)
    ensures c.Forwarded? && c != Forwarded(SigningSecretMissing) ==> db.sessions == old(db.sessions)
    // on success: one row appended, two cookies set, one answer sent
    ensures c == Sent <==> IsTruthyId(req.userId) && UserLookup !in outage && req.userId.value in db.users
                           && SessionInsert !in outage && CanSetCookies(cfg)
    ensures c == Sent ==>
              var uid := req.userId.value;
              var refreshToken := sign(uid, cfg.refreshSecret, cfg.refreshLife, now);
              var accessToken := sign(uid, cfg.accessSecret, cfg.accessLife, now);
              && db.sessions == old(db.sessions) + [Session(uid, refreshToken, now + cfg.refreshLife)]
              && res.cookies == old(res.cookies) + [
                   Cookie("refreshToken", refreshToken, cfg.cookieOptions.httpOnly, cfg.cookieOptions.signed, now + cfg.refreshLife),
                   Cookie("accessToken", accessToken, false, cfg.cookieOptions.signed, now + cfg.accessLife)]
              && res.reply == Some(Reply(200, AuthBody(db.users[uid], accessToken, now + cfg.accessLife)))
  {
    if !IsTruthyId(req.userId) {
      return Forwarded(InternalServerError);
    }
    var uid := req.userId.value;
    var found := db.FindUser(uid, outage);
    if found.Failed? {
      return Forwarded(StorageFailure(UserLookup));
    }
    if found.Missing? {
      return Forwarded(Unauthorized);
    }
    var user := found.row;
    var refreshToken := sign(uid, cfg.refreshSecret, cfg.refreshLife, now);
    var accessToken := sign(uid, cfg.accessSecret, cfg.accessLife, now);
    var stored := db.CreateSession(Session(user.id, refreshToken, now + cfg.refreshLife), outage);
    if !stored {
      return Forwarded(StorageFailure(SessionInsert));
    }
    var thrown := res.SetCookie(Cookie("refreshToken", refreshToken, cfg.cookieOptions.httpOnly, cfg.cookieOptions.signed,
                                       now + cfg.refreshLife), cfg.cookieSecret);
    if thrown {
      return Forwarded(SigningSecretMissing);
    }
    thrown := res.SetCookie(Cookie("accessToken", accessToken, false, cfg.cookieOptions.signed, now + cfg.accessLife),
                            cfg.cookieSecret);
    if thrown {
      return Forwarded(SigningSecretMissing);
    }
    res.Json(200, AuthBody(user, accessToken, now + cfg.accessLife));
    return Sent;
  }

  /**
   * A later request that carries the access token as bearer and a refresh cookie whose
   * signature checks, as cookie-parser presents a signed cookie the browser still sends.
   */
  function CredentialedRequest(accessToken: string, refreshToken: string, route: Route): Request
  {
    Request(Some(EncodeBearer(accessToken)), map["refreshToken" := Verified(refreshToken)], None, None, route, false)
  }

  /**
   * Issue then authenticate: once the issuer has appended its session row, a request with
   * the issued pair passes the gate as the issued user until the access token expires.
   */
  lemma IssuedPairAuthenticates(codec: Codec, cfg: Config, sessions: seq<Session>, users: map<UserId, User>,
                                uid: UserId, issuedAt: int, now: int, outage: set<Query>, route: Route)
    requires Sound(codec)
    requires uid in users
    requires issuedAt <= now < codec.expiry(issuedAt, cfg.accessLife)
    requires SessionLookup !in outage && UserLookup !in outage
    ensures
      var refreshToken := codec.sign(uid, cfg.refreshSecret, cfg.refreshLife, issuedAt);
      var accessToken := codec.sign(uid, cfg.accessSecret, cfg.accessLife, issuedAt);
      var rows := sessions + [Session(uid, refreshToken, issuedAt + cfg.refreshLife)];
      IsAuthenticated(CredentialedRequest(accessToken, refreshToken, route), rows, users,
                      cfg.accessSecret, codec.verify, now, outage).verdict == Proceed(users[uid])
  {
    var refreshToken := codec.sign(uid, cfg.refreshSecret, cfg.refreshLife, issuedAt);
    var accessToken := codec.sign(uid, cfg.accessSecret, cfg.accessLife, issuedAt);
    var rows := sessions + [Session(uid, refreshToken, issuedAt + cfg.refreshLife)];
    BearerRoundTrip(accessToken);
    assert rows[|sessions|].refreshToken == refreshToken;
    assert codec.verify(accessToken, cfg.accessSecret, now) == Some(uid);
  }

  /**
   * Revocation wins: once the only row holding the refresh token is deleted, the gate
   * rejects the pair even though the access token still verifies.
   */
  lemma RevokedSessionRejects(sessions: seq<Session>, i: nat, users: map<UserId, User>, accessToken: string,
                              accessSecret: string, verify: Verifier, now: int, outage: set<Query>, route: Route)
    requires i < |sessions|
    requires forall j :: 0 <= j < |sessions| && j != i ==> sessions[j].refreshToken != sessions[i].refreshToken
    requires sessions[i].refreshToken != ""
    requires SessionLookup !in outage
    ensures
      var remaining := sessions[..i] + sessions[i + 1..];
      IsAuthenticated(CredentialedRequest(accessToken, sessions[i].refreshToken, route), remaining, users,
                      accessSecret, verify, now, outage).verdict == Reject(Unauthorized)
  {
  }

  /**
   * No refresh on the server: once the access token has expired (at the latest when its
   * lifetime has elapsed), the pair is rejected even though its session row is still there.
   */
  lemma ExpiredAccessTokenRejected(codec: Codec, cfg: Config, sessions: seq<Session>, users: map<UserId, User>,
                                   uid: UserId, issuedAt: int, now: int, outage: set<Query>, route: Route)
    requires Sound(codec)
    requires codec.expiry(issuedAt, cfg.accessLife) <= now
    requires SessionLookup !in outage
    ensures
      var refreshToken := codec.sign(uid, cfg.refreshSecret, cfg.refreshLife, issuedAt);
      var accessToken := codec.sign(uid, cfg.accessSecret, cfg.accessLife, issuedAt);
      var rows := sessions + [Session(uid, refreshToken, issuedAt + cfg.refreshLife)];
      IsAuthenticated(CredentialedRequest(accessToken, refreshToken, route), rows, users,
                      cfg.accessSecret, codec.verify, now, outage).verdict == Reject(Unauthorized)
  {
    var refreshToken := codec.sign(uid, cfg.refreshSecret, cfg.refreshLife, issuedAt);
    var accessToken := codec.sign(uid, cfg.accessSecret, cfg.accessLife, issuedAt);
    var rows := sessions + [Session(uid, refreshToken, issuedAt + cfg.refreshLife)];
    BearerRoundTrip(accessToken);
    assert rows[|sessions|].refreshToken == refreshToken;
    assert codec.verify(accessToken, cfg.accessSecret, now) == None;
  }

  /**
   * The two secrets keep the tokens apart: a refresh token sent as the bearer token never
   * passes the gate, whatever sessions exist.
   */
  lemma RefreshTokenIsNoAccessToken(codec: Codec, cfg: Config, sessions: seq<Session>, users: map<UserId, User>,
                                    uid: UserId, issuedAt: int, now: int, outage: set<Query>, route: Route)
    requires Sound(codec)
    requires cfg.accessSecret != cfg.refreshSecret
    ensures
      var refreshToken := codec.sign(uid, cfg.refreshSecret, cfg.refreshLife, issuedAt);
      IsAuthenticated(CredentialedRequest(refreshToken, refreshToken, route), sessions, users,
                      cfg.accessSecret, codec.verify, now, outage).verdict.Reject?
  {
    var refreshToken := codec.sign(uid, cfg.refreshSecret, cfg.refreshLife, issuedAt);
    BearerRoundTrip(refreshToken);
    assert codec.verify(refreshToken, cfg.accessSecret, now) == None;
  }

  /**
   * As written, the gate looks neither at the session row's expiration time nor at its
   * owner: a row that expired long ago, owned by another user, still admits a request whose
   * access token verifies, and the request runs as the access token's user.
   */
  lemma StaleForeignSessionAdmits(codec: Codec, cfg: Config, owner: UserId, uid: UserId, users: map<UserId, User>,
                                  refreshToken: string, expiredAt: int, issuedAt: int, now: int, route: Route)
    requires Sound(codec)
    requires uid in users && owner != uid
    requires refreshToken != ""
    requires expiredAt < now && issuedAt <= now < codec.expiry(issuedAt, cfg.accessLife)
    ensures
      var accessToken := codec.sign(uid, cfg.accessSecret, cfg.accessLife, issuedAt);
      IsAuthenticated(CredentialedRequest(accessToken, refreshToken, route), [Session(owner, refreshToken, expiredAt)],
                      users, cfg.accessSecret, codec.verify, now, {}).verdict == Proceed(users[uid])
  {
    var accessToken := codec.sign(uid, cfg.accessSecret, cfg.accessLife, issuedAt);
    BearerRoundTrip(accessToken);
    assert [Session(owner, refreshToken, expiredAt)][0].refreshToken == refreshToken;
    assert codec.verify(accessToken, cfg.accessSecret, now) == Some(uid);
  }

  /**
   * The login flow end to end: the issuer answers unless `res.cookie` cannot sign, and a
   * later request, made before the access token expires with the body's access token and
   * the cookies the browser keeps, passes the gate as the issued user exactly when
   * `COOKIE_OPTIONS` signs the cookies, a cookie secret is set, and the refresh cookie has
   * not expired. Otherwise the gate finds no token or no refresh cookie.
   */
  method LoginThenRequest(db: Database, res: Response, cfg: Config, codec: Codec, uid: UserId,
                          issuedAt: int, later: int, route: Route) returns (c: Completion, run: GateRun)
    requires Sound(codec) && db.Valid()
    requires uid != 0 && uid in db.users
    requires issuedAt <= later < codec.expiry(issuedAt, cfg.accessLife)
    modifies db`sessions, res
    ensures c == Sent <==> CanSetCookies(cfg)
    ensures run.verdict.Proceed? <==> CanSetCookies(cfg) && cfg.cookieOptions.signed && later < issuedAt + cfg.refreshLife
    ensures run.verdict.Proceed? ==> run.verdict.user == db.users[uid]
    ensures run.verdict.Reject? ==> run == GateRun(Reject(Unauthorized), [])
  {
    var req := Request(None, map[], Some(uid), None, AuthRoutes, false);
    c := GenerateAuthTokens(req, db, res, cfg, codec.sign, issuedAt, {});
    if c != Sent {
      // no body reached the client, so it has no access token to send
      run := IsAuthenticated(Request(None, SignedCookieJar(res.cookies, later), None, None, route, false),
                             db.sessions, db.users, cfg.accessSecret, codec.verify, later, {});
      return;
    }
    var body := res.reply.value.body;
    var refreshToken := codec.sign(uid, cfg.refreshSecret, cfg.refreshLife, issuedAt);
    var jar := SignedCookieJar(res.cookies, later);
    var n := |res.cookies|;
    assert res.cookies[n - 2] == Cookie("refreshToken", refreshToken, cfg.cookieOptions.httpOnly,
                                        cfg.cookieOptions.signed, issuedAt + cfg.refreshLife);
    assert res.cookies[n - 1].name == "accessToken";
    assert LastOf(res.cookies, "refreshToken", n - 2);
    var credentialed := Request(Some(EncodeBearer(body.accessToken)), jar, None, None, route, false);
    if cfg.cookieOptions.signed && later < issuedAt + cfg.refreshLife {
      assert RefreshCookie(jar) == Some(refreshToken);
      IssuedPairAuthenticates(codec, cfg, old(db.sessions), db.users, uid, issuedAt, later, {}, route);
    } else {
      assert forall k :: LastOf(res.cookies, "refreshToken", k) ==> k == n - 2;
      assert "refreshToken" !in jar;
    }
    run := IsAuthenticated(credentialed, db.sessions, db.users, cfg.accessSecret, codec.verify, later, {});
  }
}
