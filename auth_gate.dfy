/**
 * `isAuthenticated` (api/middlewares/auth.js): the middleware in front of every protected
 * route. It is a fixed chain of early exits: bearer token, signed refresh cookie, a session
 * row holding that refresh token, the access token's signature and expiry, the token's user.
 * It only reads the tables; the steps it takes are returned so that their order can be stated.
 */
module AuthGate {
  import opened Wrappers
  import opened Strings
  import opened Store
  import opened Http
  import opened Tokens

  const BearerPrefix: string := "Bearer "

  /** What a client puts in the `Authorization` header (section 2.1 of RFC 6750). */
  function EncodeBearer(token: string): string
  {
    BearerPrefix + token
  }

  /**
   * The text `split('Bearer ')[1]` is: what lies between the first `"Bearer "` of `h` and
   * the next one, or the end of `h`.
   */
  function SecondPiece(h: string, i: nat): string
    requires IndexOf(h, BearerPrefix, 0) == Some(i)
  {
    var rest := h[i + |BearerPrefix|..];
    match IndexOf(rest, BearerPrefix, 0)
    case None => rest
    case Some(k) => rest[..k]
  }

  /**
   * `authToken?.split('Bearer ')[1]`, kept only when truthy: the piece after the first
   * `"Bearer "` and before any later one, with no header, no `"Bearer "` or an empty
   * piece all giving None.
   */
  function BearerToken(authorization: Option<string>): (t: Option<string>)
    ensures authorization.None? ==> t.None?
    ensures authorization.Some? && IndexOf(authorization.value, BearerPrefix, 0).None? ==> t.None?
    ensures authorization.Some? && IndexOf(authorization.value, BearerPrefix, 0).Some? ==>
              var piece := SecondPiece(authorization.value, IndexOf(authorization.value, BearerPrefix, 0).value);
              && (t.Some? <==> piece != "")
              && (t.Some? ==> t.value == piece)
    ensures t.Some? ==> t.value != "" && Avoids(t.value, BearerPrefix)
  {
    if authorization.None? then None
    else
      var parts := Split(authorization.value, BearerPrefix);
      SplitSecondPiece(authorization.value);
      if |parts| < 2 || parts[1] == "" then None
      else
        SplitPiecesAvoid(authorization.value, BearerPrefix);
        Some(parts[1])
  }

  /** When `"Bearer "` occurs, `split('Bearer ')` has a second piece, and it is `SecondPiece`. */
  lemma SplitSecondPiece(h: string)
    ensures IndexOf(h, BearerPrefix, 0).None? ==> |Split(h, BearerPrefix)| == 1
    ensures IndexOf(h, BearerPrefix, 0).Some? ==>
              |Split(h, BearerPrefix)| >= 2 && Split(h, BearerPrefix)[1] == SecondPiece(h, IndexOf(h, BearerPrefix, 0).value)
  {
    if IndexOf(h, BearerPrefix, 0).None? {
      return;
    }
    var i := IndexOf(h, BearerPrefix, 0).value;
    var rest := h[i + |BearerPrefix|..];
    assert Split(h, BearerPrefix) == [h[..i]] + Split(rest, BearerPrefix);
    match IndexOf(rest, BearerPrefix, 0)
    case None =>
      assert Split(rest, BearerPrefix) == [rest];
    case Some(k) =>
      assert Split(rest, BearerPrefix)[0] == rest[..k];
  }

  /** A token without spaces cannot contain `"Bearer "`, whose last character is a space. */
  lemma SpaceFreeAvoidsPrefix(token: string)
    requires ' ' !in token
    ensures Avoids(token, BearerPrefix)
  {
    forall j | 0 <= j < |token|
      ensures !OccursAt(token, BearerPrefix, j)
    {
      if j + |BearerPrefix| <= |token| {
        assert token[j..j + |BearerPrefix|][6] == token[j + 6] != ' ';
      }
    }
  }

  /** Decoding the header a client builds gives back the token (`decodeBearer(encodeBearer(t)) == t`). */
  lemma BearerRoundTrip(token: string)
    requires token != "" && ' ' !in token
    ensures BearerToken(Some(EncodeBearer(token))) == Some(token)
  {
    SpaceFreeAvoidsPrefix(token);
    SplitAfterLeadingSeparator(token, BearerPrefix);
    SplitAvoiding(token, BearerPrefix);
    assert Split(EncodeBearer(token), BearerPrefix) == ["", token];
  }

  /** The truthy value of the signed `refreshToken` cookie, if there is one. */
  function RefreshCookie(signedCookies: map<string, SignedCookie>): (t: Option<string>)
    ensures t.Some? <==> "refreshToken" in signedCookies && signedCookies["refreshToken"].Verified?
                         && signedCookies["refreshToken"].value != ""
    ensures t.Some? ==> t.value == signedCookies["refreshToken"].value
  {
    if "refreshToken" in signedCookies && signedCookies["refreshToken"].Verified?
       && signedCookies["refreshToken"].value != ""
    then Some(signedCookies["refreshToken"].value)
    else None
  }

  /** The steps of the gate that consult something beyond the request itself. */
  datatype Step = LookupSession | VerifyAccessToken | LookupUser

  /** `next()` with `req.user` set, or `next(error)`. */
  datatype Verdict = Proceed(user: User) | Reject(error: HttpError)

  datatype GateRun = GateRun(verdict: Verdict, steps: seq<Step>)

  /** The order in which the gate takes its steps; every run takes a prefix of it. */
  const StepOrder: seq<Step> := [LookupSession, VerifyAccessToken, LookupUser]

  /**
   * All checks pass: there is a bearer token and a refresh cookie, the session and user
   * lookups do not throw, a session row holds the refresh token, the access token
   * verifies, and its user exists.
   */
  ghost predicate Admits(req: Request, sessions: seq<Session>, users: map<UserId, User>,
                         accessSecret: string, verify: Verifier, now: int, outage: set<Query>)
  {
    && BearerToken(req.authorization).Some?
    && RefreshCookie(req.signedCookies).Some?
    && SessionLookup !in outage
    && HasSession(sessions, RefreshCookie(req.signedCookies).value)
    && verify(BearerToken(req.authorization).value, accessSecret, now).Some?
    && UserLookup !in outage
    && verify(BearerToken(req.authorization).value, accessSecret, now).value in users
  }

  function IsAuthenticated(req: Request, sessions: seq<Session>, users: map<UserId, User>,
                           accessSecret: string, verify: Verifier, now: int, outage: set<Query>): (r: GateRun)
    // the steps come in a fixed order, and the run stops at its first failure
    ensures r.steps <= StepOrder
    ensures r.verdict.Proceed? ==> r.steps == StepOrder
    // no token or no cookie: rejected before storage is consulted
    ensures BearerToken(req.authorization).None? ==> r == GateRun(Reject(Unauthorized), [])
    ensures RefreshCookie(req.signedCookies).None? ==> r == GateRun(Reject(Unauthorized), [])
    // the access token is only looked at once a session row has matched
    ensures VerifyAccessToken in r.steps ==> HasSession(sessions, RefreshCookie(req.signedCookies).value)
    ensures SessionLookup !in outage && RefreshCookie(req.signedCookies).Some?
            && !HasSession(sessions, RefreshCookie(req.signedCookies).value)
            ==> r.verdict == Reject(Unauthorized)
    // success exactly when every check passes, and then the user is the access token's
    ensures r.verdict.Proceed? <==> Admits(req, sessions, users, accessSecret, verify, now, outage)
    ensures r.verdict.Proceed? ==>
              r.verdict.user == users[verify(BearerToken(req.authorization).value, accessSecret, now).value]
    // a throwing lookup is passed on unchanged, and ends the run at that lookup
    ensures BearerToken(req.authorization).Some? && RefreshCookie(req.signedCookies).Some? && SessionLookup in outage
            ==> r == GateRun(Reject(StorageFailure(SessionLookup)), [LookupSession])
    ensures BearerToken(req.authorization).Some? && RefreshCookie(req.signedCookies).Some? && SessionLookup !in outage
            && HasSession(sessions, RefreshCookie(req.signedCookies).value)
            && verify(BearerToken(req.authorization).value, accessSecret, now).Some? && UserLookup in outage
            ==> r == GateRun(Reject(StorageFailure(UserLookup)), StepOrder)
    // a token that does not verify, or whose user does not exist, is Unauthorized
    ensures BearerToken(req.authorization).Some? && RefreshCookie(req.signedCookies).Some? && SessionLookup !in outage
            && HasSession(sessions, RefreshCookie(req.signedCookies).value)
            && verify(BearerToken(req.authorization).value, accessSecret, now).None?
            ==> r == GateRun(Reject(Unauthorized), [LookupSession, VerifyAccessToken])
    ensures BearerToken(req.authorization).Some? && RefreshCookie(req.signedCookies).Some? && SessionLookup !in outage
            && HasSession(sessions, RefreshCookie(req.signedCookies).value)
            && verify(BearerToken(req.authorization).value, accessSecret, now).Some? && UserLookup !in outage
            && verify(BearerToken(req.authorization).value, accessSecret, now).value !in users
            ==> r == GateRun(Reject(Unauthorized), StepOrder)
    // every failure is Unauthorized, except a storage error
    ensures r.verdict.Reject? ==>
              || r.verdict.error == Unauthorized
              || (r.verdict.error == StorageFailure(SessionLookup) && r.steps == [LookupSession])
              || (r.verdict.error == StorageFailure(UserLookup) && r.steps == StepOrder)
  {
    var accessToken := BearerToken(req.authorization);
    if accessToken.None? then GateRun(Reject(Unauthorized), [])
    else
      var refreshToken := RefreshCookie(req.signedCookies);
      if refreshToken.None? then GateRun(Reject(Unauthorized), [])
      else if SessionLookup in outage then GateRun(Reject(StorageFailure(SessionLookup)), [LookupSession])
      else if !HasSession(sessions, refreshToken.value) then GateRun(Reject(Unauthorized), [LookupSession])
      else
        var decoded := verify(accessToken.value, accessSecret, now);
        if decoded.None? then GateRun(Reject(Unauthorized), [LookupSession, VerifyAccessToken])
        else if UserLookup in outage then GateRun(Reject(StorageFailure(UserLookup)), StepOrder)
        else if decoded.value !in users then GateRun(Reject(Unauthorized), StepOrder)
        else GateRun(Proceed(users[decoded.value]), StepOrder)
  }
}
