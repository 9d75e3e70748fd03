# Two-token authentication of a Twitter-style web application, in Dafny

This project models the authentication core of a React + Express + PostgreSQL Twitter
clone, and proves properties of that model.

- **AuthGate** (`isAuthenticated`): the middleware in front of every protected route. It
  needs two things: a bearer access token in the `Authorization` header (section 2.1 of
  RFC 6750) and a signed `refreshToken` cookie. It admits the request only when a session
  row holds that refresh token, the access token verifies, and the token's user exists.
- **TokenIssuer** (`generateAuthTokens`): mints a refresh/access token pair with two
  different secrets and two lifetimes. It appends one session row, sets two cookies
  (RFC 6265, section 4.1) and answers `{ user, accessToken, expiresAt }`.
- **Server pipeline** (api/app.js):
  - the development-only CORS whitelist;
  - the ordered middleware stack, in which `GET /api/users` sits behind the gate and anything unmatched ends in `NotFound`.
- **Client** (client/src/App.js):
  - the `RequireAuth` and `RedirectIfLoggedIn` guards and the route table that uses them;
  - the handler of the `verify-token` response;
  - the effect that keeps one refresh timer armed ten seconds before the access token expires.
- **Date pickers** (Form1.js): the month, day and year options of the birth-date form. Dates
  follow ECMAScript's proleptic Gregorian calendar (ECMA-262, section 21.4.1).
- **Sign-up validators** (SignupForm.js): "mandatory after trim" checks.

Files and modules:

| file | module | content |
|---|---|---|
| wrappers.dfy | `Wrappers` | `Option` |
| strings.dfy | `Strings` | the JavaScript string built-ins used: `split`, `join`, `trim`, `String(n)`, `Number(s)` on digit strings |
| store.dfy | `Store` | users, sessions, and the `Database` class that holds both tables |
| http.dfy | `Http` | request fields, signed cookies, the errors passed to `next` |
| tokens.dfy | `Tokens` | the abstract JWT codec, its `Sound` contract, the configuration |
| auth_gate.dfy | `AuthGate` | bearer parsing and `isAuthenticated` |
| token_issuer.dfy | `TokenIssuer` | the `Response` class, `generateAuthTokens`, and lemmas joining the issuer to the gate |
| server.dfy | `Server` | the CORS whitelist and the middleware pipeline |
| client_app.dfy | `ClientApp` | the guards, the verify-token handler, the timer effects |
| date_options.dfy | `DateOptions` | `months`, `daysInMonth`, `getYearsInRange` |
| signup_validation.dfy | `SignupValidation` | `validateForm1` to `validateForm4` |

Modelling choices:

- **JWT codec.** `generateJWT` and `jwt.verify` are a pair of function values. A third function gives
  the instant at which a token expires: `Codec(sign, verify, expiry)`.
  `Tokens.Sound` is an idealised contract of HMAC-signed tokens with an `exp` claim (RFC 7519, section 4.1.4):
  - a token expires no later than `issuedAt + life`;
  - it verifies to its subject with its own secret from `issuedAt` until it expires;
  - it does not verify at or after its expiry;
  - it never verifies under another secret;
  - it is a non-empty string without spaces.

  `Tokens.SecondsExpiry` is the whole-second `exp` that jsonwebtoken computes. It is up to
  two seconds earlier than `issuedAt + life`, so the lemmas about the access token's
  lifetime are stated up to `codec.expiry`, not `issuedAt + life`. The gate itself takes
  only `verify`, and holds for any verifier.
- **Storage.** The tables are a `seq<Session>` and a `map<UserId, User>`.
  - A storage failure is an `outage: set<Query>`: the storage calls that throw on this request.
  - The gate passes a thrown storage error on unchanged (`StorageFailure`). It does not turn it into `Unauthorized`.
- **Calls into code that is not shown.** The clock, the lifetimes (already converted by `ms()`),
  the current year, and the router's classification of the request (`Request.route`)
  are all parameters.

Two properties of the code are worth stating outright:

- **The gate's session check.** The gate checks only that *some* session row holds the
  refresh token. It never compares the row's `expirationTime` or owner, and it never
  verifies the refresh token as a JWT: only cookie-parser's cookie signature is checked.
  `TokenIssuer.StaleForeignSessionAdmits` proves the consequence: an expired row owned by
  another user still admits a request.
- **The refresh cookie's attributes.** The refresh cookie gets whatever `COOKIE_OPTIONS`
  says. That file is not part of this model, so `httpOnly` and `signed` are configuration
  parameters. The gate reads only `req.signedCookies`, so the login flow works only when
  `signed` is set. Express's `res.cookie` refuses a signed cookie unless `COOKIE_SECRET` is
  set for cookie-parser (api/app.js:36). It refuses after the session row has been written,
  so the issuer then fails but keeps the row (`TokenIssuer.LoginThenRequest`).

## Model

| member | source | states |
|---|---|---|
| `Strings.IndexOf` | api/middlewares/auth.js:11 | where `split` cuts: an occurrence of the separator at or after `from` with none between, or a proof that none exists |
| `Strings.JoinSplit` | api/app.js:20 | `split` loses nothing: joining the pieces with the separator gives back the string |
| `Strings.SplitPiecesAvoid` | api/app.js:20 | no piece of a `split` contains the separator |
| `Strings.TrimEmptyIffBlank` | client/src/components/SignupForm/SignupForm.js:10 | `s.trim()` is empty exactly when every character of `s` is ECMAScript white space or a line terminator |
| `Strings.ParseNatToString` | client/src/components/PostSignupForm/Form1.js:24 | `Number(String(n)) == n` for the option values the pickers produce |
| `Tokens.SecondsExpiry` | api/middlewares/auth.js:33 | jsonwebtoken's whole-second expiry is never later than `issuedAt + life` and less than two seconds earlier, so it meets `Sound`'s expiry bound |
| `Store.Database.FindUser` | api/middlewares/auth.js:57-61 | `findUnique` by id: the row, no row, or a thrown error when the lookup is in the outage |
| `Store.Database.CreateSession` | api/middlewares/auth.js:76-90 | the nested session `create`: appends exactly the one row and keeps every session owned by an existing user, or throws and changes nothing |
| `AuthGate.BearerToken` | api/middlewares/auth.js:10-15 | no header or no `"Bearer "` gives nothing; otherwise a token is present exactly when the text between the first `"Bearer "` and the next one (or the end) is non-empty, and it is that text, which holds no `"Bearer "` |
| `AuthGate.BearerRoundTrip` | api/middlewares/auth.js:11 | the header `"Bearer " + t` parses back to `t` for a non-empty space-free token |
| `AuthGate.RefreshCookie` | api/middlewares/auth.js:16-21 | a refresh token is present exactly when the signed cookie exists, its signature checked, and its value is non-empty |
| `AuthGate.IsAuthenticated` | api/middlewares/auth.js:8-49 | steps are a prefix of session lookup, access-token verification, user lookup; without a bearer token or a refresh cookie it rejects before any lookup; verification happens only after a session matched; with no matching row it rejects; it admits exactly when every check passes, as the access token's user; a throwing session lookup ends the run there with `StorageFailure(SessionLookup)`, and a throwing user lookup after a verified token with `StorageFailure(UserLookup)`; every other failure is `Unauthorized` |
| `TokenIssuer.SignedCookieJar` | api/middlewares/auth.js:16-17 | what `req.signedCookies` of a later request holds: for each name, the cookie set last, exactly when it is signed and unexpired, and no cookie the server did not set |
| `TokenIssuer.Response.SetCookie` | api/middlewares/auth.js:91-99 | `res.cookie` throws exactly for a signed cookie without a cookie-parser secret, and then sets nothing; otherwise it appends the one cookie; it never sends an answer |
| `TokenIssuer.Response.Json` | api/middlewares/auth.js:100-104 | `res.status().json()` records the answer and leaves the cookies alone |
| `TokenIssuer.GenerateAuthTokens` | api/middlewares/auth.js:51-108 | a falsy `userId` gives `InternalServerError`, an unknown user `Unauthorized`, a storage error is forwarded; when every check passes and the row is written but `res.cookie` cannot sign (signed cookies, no `COOKIE_SECRET`), it forwards that error and keeps the new row; no failure sets a cookie or answers, and every other failure leaves the sessions untouched; success, exactly when all of this goes through, appends exactly one row `{userId, refresh token, now + refresh life}` after the old ones, sets the refresh cookie (shared `httpOnly` and `signed`, refresh expiry) and the access cookie (`httpOnly: false`, shared `signed`, access expiry), and answers 200 with the user, the access token and `expiresAt = now + access life` |
| `TokenIssuer.IssuedPairAuthenticates` | api/middlewares/auth.js:66-104 | issue then authenticate: after the issued row is appended, the issued access token and a verified refresh cookie pass the gate as the issued user from issue until the codec's expiry of the access token |
| `TokenIssuer.RevokedSessionRejects` | api/middlewares/auth.js:22-30 | revocation wins: with the only row holding the refresh token deleted, the gate rejects with `Unauthorized` whatever the access token |
| `TokenIssuer.ExpiredAccessTokenRejected` | api/middlewares/auth.js:31-37 | once the codec's expiry of the access token (at the latest its lifetime) has passed, the pair is rejected although its session row remains; the server never refreshes by itself |
| `TokenIssuer.RefreshTokenIsNoAccessToken` | api/middlewares/auth.js:66-75 | with distinct secrets, a refresh token presented as the bearer token never passes the gate |
| `TokenIssuer.StaleForeignSessionAdmits` | api/middlewares/auth.js:22-39 | as written, an expired row owned by another user still admits a verified access token, and the request runs as the token's user |
| `TokenIssuer.LoginThenRequest` | api/middlewares/auth.js:51-104 | the issuer answers exactly when `res.cookie` can set its cookies; a later request before the access token expires, carrying what the client then holds (the body's access token, the cookies the browser keeps), passes the gate as the issued user exactly when the cookies are signed, a cookie secret is set, and the refresh cookie has not expired, and is otherwise rejected as `Unauthorized` before any lookup |
| `Server.Whitelist` | api/app.js:19-21 | unset or empty gives `[]`; otherwise the untrimmed pieces, which are comma-free and join back to the variable |
| `Server.OriginCallback` | api/app.js:23-28 | allowed exactly when the origin is absent, empty or an exact whitelist entry; otherwise the error `'Not allowed by CORS'` |
| `Server.Pipeline` | api/app.js:14-62 | the registration order; the CORS stage exists exactly when `NODE_ENV` is `development` |
| `Server.Run` | api/app.js:14-62 | Express's dispatch: a pending error skips every route and is what the client receives, unchanged; the users are answered only by their route, for a `GET /api/users` the gate admits and whose listing does not throw; the auth router answers only its own routes, when its handler did not call `next(error)` |
| `Server.RoutesOutcome` | api/app.js:35-62 | after CORS: an auth route is answered by its handler, or ends in the error that handler passed to `next`; `/api/users` answers with the users only when the gate admits the request and the listing does not throw (otherwise that error is sent); everything else ends in `NotFound` |
| `Server.PipelineOutcome` | api/app.js:16-33 | a rejected origin ends the request with the CORS error before any route runs; an admitted preflight is answered by the cors package; any other admitted request goes on as if there were no CORS stage |
| `Server.AuthRouterErrorIsSent` | api/middlewares/auth.js:105-107 | a login handler that fails and calls `next(error)` has that error sent by the error responder |
| `Server.UsersOnlyThroughGate` | api/app.js:42 | `GET /api/users` answers with the users exactly when CORS admits the request and it is no preflight, `isAuthenticated` calls `next()` without error, and the listing does not throw |
| `Server.GateRejectionIsAnswered` | api/app.js:42 | a gate rejection on `/api/users` is the error the client receives |
| `Server.UnmatchedIsNotFound` | api/app.js:57-59 | a request no route matches ends in `NotFound` |
| `Server.ProductionIgnoresOrigin` | api/app.js:14-18 | outside development the request's origin does not change its outcome |
| `ClientApp.RequireAuth` | client/src/App.js:190-201 | splash exactly while `PENDING`; children exactly when settled and authenticated; otherwise navigate to `redirectTo` with `state.from` the current location |
| `ClientApp.ReturnPath` | client/src/App.js:210 | `location.state?.from?.pathname` is present exactly when the state has a `from` with a non-empty path |
| `ClientApp.RedirectIfLoggedIn` | client/src/App.js:203-214 | splash exactly while `PENDING`; children exactly when settled and signed out; otherwise navigate to the origin path if any, else to `redirectTo` |
| `ClientApp.GuardOf` | client/src/App.js:98-185 | the route table's guards: index, home, compose and sign-up success are members-only and send guests to `/signup`; sign-up and sign-in are guests-only and send members to `/`; the rest are open |
| `ClientApp.Render` | client/src/App.js:98-185 | a route element shows the splash exactly while a guarded screen waits for verification, the screen exactly when its guard's condition holds, and otherwise the guard's redirect |
| `ClientApp.GuestsGoToSignup` | client/src/App.js:98-161 | the index, home, compose and sign-up-success screens send settled guests to `/signup`, remembering where they were |
| `ClientApp.MembersLeaveEntryScreens` | client/src/App.js:138-153 | `/signup` and `/signin` send settled members back to their origin, or to `/` |
| `ClientApp.SignInReturnsToOrigin` | client/src/App.js:190-214 | the guards round-trip: a guest sent from a protected location to `/signup` is, once signed in, sent back to that location's path |
| `ClientApp.OnVerifyToken` | client/src/App.js:52-64 | logout exactly on an error or status 204; otherwise login with the body's `user`, `accessToken` and `expiresAt` |
| `ClientApp.IssuedReplyLogsIn` | client/src/App.js:52-64 | the issuer's 200 answer logs the client in with exactly its body's user, token and expiry |
| `ClientApp.RefreshDelay` | client/src/App.js:80 | a timer armed at `now` with this delay fires ten seconds before `expiresAt` |
| `ClientApp.ReceiveIssuedReply` | client/src/App.js:52-92 | a signed-out client receiving the issuer's answer is then authenticated with its expiry, makes one more verify-token call exactly when `login` changed identity, and has exactly one refresh timer pending, due ten seconds before the access token expires |
| `ClientApp.AtMostOnePending` | client/src/App.js:82-92 | when every pending timeout is the one the cleanup holds, at most one refresh is pending |
| `ClientApp.AuthEffects.Mount` | client/src/App.js:67-81 | on mount: one verify-token call, and a timer with delay `expiresAt - now - 10000` exactly when authenticated |
| `ClientApp.AuthEffects.Cleanup` | client/src/App.js:82-86 | the cleanup clears the timer its effect armed, leaving none pending |
| `ClientApp.AuthEffects.Rerender` | client/src/App.js:67-92 | another verify-token call exactly when `login` changed; timers untouched when neither `isAuthenticated` nor `expiresAt` changed; otherwise the old timer cleared and a new one armed only when authenticated; never more than one pending |
| `ClientApp.AuthEffects.Fire` | client/src/App.js:78-80 | a pending timer leaves the queue and makes one verify-token call |
| `DateOptions.MonthValues` | client/src/components/PostSignupForm/Form1.js:7-20 | twelve months whose values are `String(1)` to `String(12)` in calendar order |
| `DateOptions.DaysInCalendarMonth` | client/src/components/PostSignupForm/Form1.js:24 | month lengths between 28 and 31, with 29 exactly for February of a Gregorian leap year |
| `DateOptions.DayFromYearStep` | client/src/components/PostSignupForm/Form1.js:24 | ECMAScript's `DayFromYear` arithmetic gives a year 366 days exactly when the leap-year rule says so |
| `DateOptions.MonthsFillTheYear` | client/src/components/PostSignupForm/Form1.js:24 | the twelve month lengths add up to the year length of ECMAScript's day arithmetic |
| `DateOptions.DayZeroDate` | client/src/components/PostSignupForm/Form1.js:24 | `new Date(year, month, 0).getDate()` lies between 28 and 31; for months 1 to 12 it is that month's length, in 1900 plus the year for years 0 to 99; months 0 and 13 give 31 |
| `DateOptions.DayCount` | client/src/components/PostSignupForm/Form1.js:23-24 | no days for an empty or non-numeric month or year |
| `DateOptions.DayCountOfPickedDate` | client/src/components/PostSignupForm/Form1.js:24 | for a picked month and year (from 100 on), the day count is that month's length, and February's is 29 exactly in leap years |
| `DateOptions.DayCountCarries` | client/src/components/PostSignupForm/Form1.js:24 | month `"0"` means December of the year before, `"13"` January of the year after, as `Date` carries months |
| `DateOptions.TwoDigitYearsAreTwentiethCentury` | client/src/components/PostSignupForm/Form1.js:24 | `Date` reads the year `"0"` as 1900, so its February has 28 days |
| `DateOptions.DaysInMonth` | client/src/components/PostSignupForm/Form1.js:22-31 | `[]` for an empty month or year; otherwise as many entries as the day count, entry `k` having value and label `String(k + 1)` |
| `DateOptions.GetYearsInRange` | client/src/components/PostSignupForm/Form1.js:32-40 | `yearRange + 1` entries (none for a negative range), entry `k` having value and label `String(currentYear - k)` |
| `DateOptions.YearOptions` | client/src/components/PostSignupForm/Form1.js:78 | with `year_range = 120` the year picker has 121 entries, from this year down to 120 years ago |
| `SignupValidation.Require` | client/src/components/SignupForm/SignupForm.js:10-12 | adds the mandatory-field message under the field exactly when the value is blank, and nothing else |
| `SignupValidation.ValidateForm1` | client/src/components/SignupForm/SignupForm.js:8-26 | keys only among name, email, month, day, year; each key present exactly when that field is blank (white space only counts); every message is `'This is a mandatory field'` |
| `SignupValidation.ValidateForm2` | client/src/components/SignupForm/SignupForm.js:28-34 | `{password: message}` when the password is blank, `{}` otherwise |
| `SignupValidation.ValidateForm3` | client/src/components/SignupForm/SignupForm.js:36-42 | `{username: message}` when the username is blank, `{}` otherwise |
| `SignupValidation.ValidateForm4` | client/src/components/SignupForm/SignupForm.js:44-50 | `{bio: message}` when the bio is blank, `{}` otherwise |

## Left out

- JWT signing and verification: `generateJWT` (utils/auth) and jsonwebtoken are not part of this model. They are the abstract `Codec`, and `Tokens.Sound` is an idealisation that the end-to-end lemmas assume of it. That `generateJWT` passes the lifetime as `expiresIn`, which `Tokens.SecondsExpiry` describes, is not shown. Clock tolerance, `nbf` and algorithm choice are not modelled.
- AuthGate.IsAuthenticated: the verifier yields the token's `userId` claim. A verified payload without `userId`, which would make `findUnique` fail, is not modelled.
- Lifetime strings: `ms()` parsing is not modelled. Lifetimes are integers of milliseconds.
- TokenIssuer.GenerateAuthTokens: `Date.now()` is read four times in the source. The model reads one `now`, so the differences of a few milliseconds between the session expiry, the cookie expiries and `expiresAt` are not modelled.
- Prisma and PostgreSQL: the `async`/`await` around queries is not modelled, and storage is a sequential in-memory table. The schema is not part of this model, so neither is a uniqueness constraint on refresh tokens or a cascade on user deletion.
- Concurrency: concurrent requests and races between browser tabs are not modelled. For example, a user deleted between the issuer's lookup and its update is not modelled.
- Cookies: cookie-parser's signing is reduced to `Verified(value)` or `Forged`. Helmet's headers are not modelled. `COOKIE_OPTIONS` is not part of this model beyond its `httpOnly` and `signed` flags; `secure`, `sameSite`, the path and the domain are not modelled.
- TokenIssuer.SignedCookieJar: the browser's cookie store is modelled per name, by expiry only. Path, domain, `secure` and `sameSite` scoping, and cookies the user deletes, are not modelled.
- Login strategies: services/localStrategy and googleStrategy are not part of this model. They only set `req.userId`, which is an input.
- The auth router: api/routes/auth is not part of this model. Neither is the logout path, so a session row is never deleted in the model, and revocation is stated for a table without the row.
- api/routes/user.js: this route wiring to controllers is not part of this model.
- Error middlewares: `errorLogger` and `errorResponder` (middlewares/error-handler) are not part of this model. The logger passes the error on, and the responder sends it.
- Server.Run: Express's path matching (case-insensitivity, trailing slashes, `HEAD` matching `GET`) is the router's job. It becomes `Request.route`.
- Server.PipelineOutcome: the cors package's preflight answer is modelled as the end of the request; its headers are not. Outside development, Express's own automatic answer to `OPTIONS` is part of path matching, which `Request.route` abstracts.
- Server.Run: the `express.json` stage passes every request through. A malformed JSON body becoming a 400 error is not modelled.
- Server.RoutesOutcome: the users listing (`findMany` including profiles) is modelled as answering with the user table.
- React: rendering, hooks, react-query and the auth context are not modelled (contexts/auth-context is not part of this model).
  - The guards and the handler are functions returning what is rendered or done.
  - Whether `login` is a new function after a render depends on contexts/auth-context. That identity is an input: a flag passed to `Rerender` and `ReceiveIssuedReply`.
  - `STATUS` (utils/utils) is an enumeration of which only `PENDING` is told apart.
- Timers: `setTimeout` is "armed with delay d"; `ClientApp.RefreshDelay` states when such a timer is due. Real time, the browser clamping negative delays, and the network call the timer triggers are not modelled.
- Routing: react-router path matching is not modelled. Each route element is a `Screen`.
- DateOptions.DaysInMonth: `Number()` is modelled only on strings of decimal digits. Any other string (white space, a sign, hex, an exponent) is treated as `NaN`, which gives no days. Also, years outside ECMAScript's time range (about 275,000 years either side of 1970) give an Invalid Date and `[]` in the source, while the model gives the calendar length.
- SignupValidation.ValidateForm2: validators 2 to 4 take the single field they read instead of the `values` object. A missing property would throw; this is not modelled.
- `useForm` (hooks/useForm) is not part of this model. Neither are Form2 to Form4 or the rendering of the sign-up wizard.
- UI-only files: client/src/pages/Messages.js, components/Tweets/Tweet.js, Modal.js, Button.js, mobile/ChatHeader.js and SignupForm/Form3.js hold no logic that can be stated as a property.
