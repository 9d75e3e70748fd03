/**
 * The request pipeline of api/app.js: security headers, the development-only CORS check,
 * body and cookie parsing, the auth router, the protected `GET /api/users`, the 404
 * fallback and the two error middlewares, tried in the order they were registered.
 */
module Server {
  import opened Wrappers
  import opened Strings
  import opened Store
  import opened Http
  import opened Tokens
  import opened AuthGate
  import opened TokenIssuer

  const CorsErrorMessage: string := "Not allowed by CORS"

  /**
   * `WHITELISTED_DOMAINS ? WHITELISTED_DOMAINS.split(',') : []`: unset or empty gives no
   * entries; otherwise the pieces, untrimmed, which are exactly the comma-free strings
   * that join back to the variable.
   */
  function Whitelist(domains: Option<string>): (w: seq<string>)
    ensures domains.None? || domains == Some("") ==> w == []
    ensures domains.Some? && domains.value != "" ==>
              && |w| >= 1
              && Join(w, ",") == domains.value
              && forall k :: 0 <= k < |w| ==> Avoids(w[k], ",")
  {
    if domains.None? || domains.value == "" then []
    else
      JoinSplit(domains.value, ",");
      SplitPiecesAvoid(domains.value, ",");
      Split(domains.value, ",")
  }

  datatype CorsDecision = Allow | Deny(error: HttpError)

  /** The `origin` callback handed to the cors package. */
  function OriginCallback(origin: Option<string>, whitelist: seq<string>): (d: CorsDecision)
    ensures d == Allow <==> origin.None? || origin.value == "" || origin.value in whitelist
    ensures d != Allow ==> d == Deny(CorsRejected(CorsErrorMessage))
  {
    if origin.None? || origin.value == "" then Allow
    else if exists k :: 0 <= k < |whitelist| && whitelist[k] == origin.value then Allow
    else Deny(CorsRejected(CorsErrorMessage))
  }

  /** The middlewares, as registered with `app.use` / `app.get`. */
  datatype Stage =
    | Helmet
    | Cors(whitelist: seq<string>)
    | JsonBody
    | CookieParser
    | AuthRouter
    | UsersRoute
    | NotFoundFallback
    | ErrorLogger
    | ErrorResponder

  /** Everything registered after the CORS check. */
  const AfterCors: seq<Stage> :=
    [JsonBody, CookieParser, AuthRouter, UsersRoute, NotFoundFallback, ErrorLogger, ErrorResponder]

  predicate IsDevelopment(nodeEnv: Option<string>)
  {
    nodeEnv == Some("development")
  }

  /** The registration order of api/app.js; the CORS stage exists only in development. */
  function Pipeline(nodeEnv: Option<string>, domains: Option<string>): (stack: seq<Stage>)
    ensures IsDevelopment(nodeEnv) ==> stack == [Helmet, Cors(Whitelist(domains))] + AfterCors
    ensures !IsDevelopment(nodeEnv) ==> stack == [Helmet] + AfterCors
  {
    [Helmet] + (if IsDevelopment(nodeEnv) then [Cors(Whitelist(domains))] else []) + AfterCors
  }

  /**
   * What the gate and the users handler read (the tables, the access secret, the codec, the
   * clock and storage faults), and how the auth router's handler ended: it answered, or it
   * called `next(error)`, as `generateAuthTokens` does on every failure.
   */
  datatype Backend = Backend(sessions: seq<Session>, users: map<UserId, User>, accessSecret: string,
                             verify: Verifier, now: int, outage: set<Query>, authRouter: Completion)

  function Gate(req: Request, b: Backend): GateRun
  {
    IsAuthenticated(req, b.sessions, b.users, b.accessSecret, b.verify, b.now, b.outage)
  }

  /** The answers: the cors package's to a preflight, the auth router's, the users listing. */
  datatype Answer = PreflightAnswer | AuthRouterAnswer | UsersListed(users: map<UserId, User>)

  /** The request ends with an answer from a route, or with the error that reached the responder. */
  datatype Outcome = Answered(answer: Answer) | ErrorSent(error: HttpError)

  /**
   * Express's dispatch: with no pending error each stage either answers, calls `next()` or
   * calls `next(error)`; with a pending error only the error middlewares run. Running off
   * the end is Express's final handler, which answers 404 (or the pending error).
   * A pending error always reaches the client unchanged, and the users are listed only by
   * their route, behind an admitting gate.
   */
  function Run(stack: seq<Stage>, req: Request, b: Backend, pending: Option<HttpError>): (o: Outcome)
    decreases |stack|
    ensures pending.Some? ==> o == ErrorSent(pending.value)
    ensures o.Answered? && o.answer.UsersListed? ==>
              && UsersRoute in stack && req.route == UsersList && Gate(req, b).verdict.Proceed?
              && UserListing !in b.outage && o.answer.users == b.users
    ensures o.Answered? && o.answer.AuthRouterAnswer? ==> AuthRouter in stack && req.route == AuthRoutes && b.authRouter == Sent
  {
    if stack == [] then ErrorSent(if pending.Some? then pending.value else NotFound)
    else
      var rest := stack[1..];
      if pending.Some? then
        // only the error middlewares run: the logger passes the error on, the responder sends it
        if stack[0].ErrorResponder? then ErrorSent(pending.value) else Run(rest, req, b, pending)
      else
        match stack[0]
        case Cors(w) =>
          (match OriginCallback(req.origin, w)
           case Allow => if req.preflight then Answered(PreflightAnswer) else Run(rest, req, b, None)
           case Deny(e) => Run(rest, req, b, Some(e)))
        case AuthRouter =>
          if req.route != AuthRoutes then Run(rest, req, b, None)
          else
            (match b.authRouter
             case Sent => Answered(AuthRouterAnswer)
             case Forwarded(e) => Run(rest, req, b, Some(e)))
        case UsersRoute =>
          if req.route != UsersList then Run(rest, req, b, None)
          else
            (match Gate(req, b).verdict
             case Reject(e) => Run(rest, req, b, Some(e))
             case Proceed(_) =>
               if UserListing in b.outage then Run(rest, req, b, Some(StorageFailure(UserListing)))
               else Answered(UsersListed(b.users)))
        case NotFoundFallback => Run(rest, req, b, Some(NotFound))
        case _ => Run(rest, req, b, None)
  }

  /** What the stages after the CORS check make of a request. */
  lemma RoutesOutcome(req: Request, b: Backend)
    ensures Run(AfterCors, req, b, None) ==
      match req.route
      case AuthRoutes =>
        (match b.authRouter
         case Sent => Answered(AuthRouterAnswer)
         case Forwarded(e) => ErrorSent(e))
      case NoRoute => ErrorSent(NotFound)
      case UsersList =>
        (match Gate(req, b).verdict
         case Reject(e) => ErrorSent(e)
         case Proceed(_) =>
           if UserListing in b.outage then ErrorSent(StorageFailure(UserListing)) else Answered(UsersListed(b.users)))
  {
    var s := AfterCors;
    assert s[1..][1..] == [AuthRouter, UsersRoute, NotFoundFallback, ErrorLogger, ErrorResponder];
    assert s[1..][1..][1..] == [UsersRoute, NotFoundFallback, ErrorLogger, ErrorResponder];
    assert s[1..][1..][1..][1..] == [NotFoundFallback, ErrorLogger, ErrorResponder];
  }

  /** The CORS decision, when there is one, comes before everything but the security headers. */
  predicate CorsAdmits(nodeEnv: Option<string>, domains: Option<string>, origin: Option<string>)
  {
    !IsDevelopment(nodeEnv) || OriginCallback(origin, Whitelist(domains)) == Allow
  }

  /** The request gets past the CORS stage: admitted, and not a preflight the cors package answers. */
  predicate ReachesRoutes(nodeEnv: Option<string>, domains: Option<string>, req: Request)
  {
    CorsAdmits(nodeEnv, domains, req.origin) && !(IsDevelopment(nodeEnv) && req.preflight)
  }

  /**
   * A rejected origin ends the request with the CORS error before any route runs; an
   * admitted preflight is answered by the cors package; any other request goes on as if
   * there were no CORS stage.
   */
  lemma {:induction false} PipelineOutcome(nodeEnv: Option<string>, domains: Option<string>, req: Request, b: Backend)
    ensures Run(Pipeline(nodeEnv, domains), req, b, None) ==
              if !CorsAdmits(nodeEnv, domains, req.origin) then ErrorSent(CorsRejected(CorsErrorMessage))
              else if !ReachesRoutes(nodeEnv, domains, req) then Answered(PreflightAnswer)
              else Run(AfterCors, req, b, None)
  {
    var stack := Pipeline(nodeEnv, domains);
    if IsDevelopment(nodeEnv) {
      assert stack[1..][1..] == AfterCors;
    } else {
      assert stack[1..] == AfterCors;
    }
  }

  /**
   * `GET /api/users` answers with the users exactly when the CORS check (in development)
   * admits the origin and `isAuthenticated` calls `next()` without an error.
   */
  lemma UsersOnlyThroughGate(nodeEnv: Option<string>, domains: Option<string>, req: Request, b: Backend)
    ensures Run(Pipeline(nodeEnv, domains), req, b, None) == Answered(UsersListed(b.users)) <==>
              && req.route == UsersList
              && ReachesRoutes(nodeEnv, domains, req)
              && Gate(req, b).verdict.Proceed?
              && UserListing !in b.outage
  {
    PipelineOutcome(nodeEnv, domains, req, b);
    RoutesOutcome(req, b);
  }

  /** A rejection by the gate is what the client receives, unchanged. */
  lemma GateRejectionIsAnswered(nodeEnv: Option<string>, domains: Option<string>, req: Request, b: Backend)
    requires req.route == UsersList && ReachesRoutes(nodeEnv, domains, req)
    requires Gate(req, b).verdict.Reject?
    ensures Run(Pipeline(nodeEnv, domains), req, b, None) == ErrorSent(Gate(req, b).verdict.error)
  {
    PipelineOutcome(nodeEnv, domains, req, b);
    RoutesOutcome(req, b);
  }

  /** A request that no route matches ends in `NotFound`. */
  lemma UnmatchedIsNotFound(nodeEnv: Option<string>, domains: Option<string>, req: Request, b: Backend)
    requires req.route == NoRoute && ReachesRoutes(nodeEnv, domains, req)
    ensures Run(Pipeline(nodeEnv, domains), req, b, None) == ErrorSent(NotFound)
  {
    PipelineOutcome(nodeEnv, domains, req, b);
    RoutesOutcome(req, b);
  }

  /**
   * A handler of the auth router that calls `next(error)`, as `generateAuthTokens` does
   * when it fails, has that error sent by the error responder: a failed login is an error
   * answer, never the auth router's answer.
   */
  lemma AuthRouterErrorIsSent(nodeEnv: Option<string>, domains: Option<string>, req: Request, b: Backend, e: HttpError)
    requires req.route == AuthRoutes && ReachesRoutes(nodeEnv, domains, req)
    requires b.authRouter == Forwarded(e)
    ensures Run(Pipeline(nodeEnv, domains), req, b, None) == ErrorSent(e)
  {
    PipelineOutcome(nodeEnv, domains, req, b);
    RoutesOutcome(req, b);
  }

  /** Outside development the origin plays no part: any origin is treated like none. */
  lemma ProductionIgnoresOrigin(nodeEnv: Option<string>, domains: Option<string>, req: Request, b: Backend)
    requires !IsDevelopment(nodeEnv)
    ensures Run(Pipeline(nodeEnv, domains), req, b, None) == Run(Pipeline(nodeEnv, domains), req.(origin := None), b, None)
  {
    var bare := req.(origin := None);
    PipelineOutcome(nodeEnv, domains, req, b);
    PipelineOutcome(nodeEnv, domains, bare, b);
    assert Gate(req, b) == Gate(bare, b);
    RoutesOutcome(req, b);
    RoutesOutcome(bare, b);
  }
}
