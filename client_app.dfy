/**
 * The authentication logic of the React client (client/src/App.js): the two route guards,
 * the handler of the `verify-token` response, and the effect that keeps one refresh timer
 * armed shortly before the access token expires.
 */
module ClientApp {
  import opened Wrappers
  import opened Store
  import TokenIssuer

  /** The auth context's status; only `PENDING` is told apart by the guards. */
  datatype Status = Idle | Pending | Resolved | Rejected

  /** What `useAuth()` exposes to the modelled code. */
  datatype AuthState = AuthState(status: Status, isAuthenticated: bool, expiresAt: int)

  /** A router location and the `state` object a `<Navigate>` attached to it. */
  datatype Location = Location(pathname: string, state: NavState)
  datatype NavState = NoState | NavState(from: Option<Location>)

  /** What a guard renders: the splash screen, its children, or a `<Navigate>`. */
  datatype View = Splash | Children | Navigate(to: string, state: NavState)

  function RequireAuth(auth: AuthState, location: Location, redirectTo: string): (v: View)
    ensures v == Splash <==> auth.status == Pending
    ensures v == Children <==> auth.status != Pending && auth.isAuthenticated
    ensures v.Navigate? ==> v == Navigate(redirectTo, NavState(Some(location)))
  {
    if auth.status == Pending then Splash
    else if auth.isAuthenticated then Children
    else Navigate(redirectTo, NavState(Some(location)))
  }

  /** `location.state?.from?.pathname`, when truthy. */
  function ReturnPath(location: Location): (p: Option<string>)
    ensures p.Some? <==> location.state.NavState? && location.state.from.Some?
                         && location.state.from.value.pathname != ""
    ensures p.Some? ==> p.value == location.state.from.value.pathname
  {
    match location.state
    case NoState => None
    case NavState(from) =>
      if from.Some? && from.value.pathname != "" then Some(from.value.pathname) else None
  }

  function RedirectIfLoggedIn(auth: AuthState, location: Location, redirectTo: string): (v: View)
    ensures v == Splash <==> auth.status == Pending
    ensures v == Children <==> auth.status != Pending && !auth.isAuthenticated
    ensures v.Navigate? ==> v.state == NoState
    ensures v.Navigate? && ReturnPath(location).Some? ==> v.to == ReturnPath(location).value
    ensures v.Navigate? && ReturnPath(location).None? ==> v.to == redirectTo
  {
    if auth.status == Pending then Splash
    else if auth.isAuthenticated then Navigate(if ReturnPath(location).Some? then ReturnPath(location).value else redirectTo, NoState)
    else Children
  }

  /** The screens of the route table, the compose modal included. */
  datatype Screen = IndexScreen | HomeScreen | ProfileScreen | FollowScreen | ComposePostScreen
                  | SignupScreen | SigninScreen | SignupSuccessScreen | NoMatchScreen

  datatype Guard = Open | SignedInOnly(redirectTo: string) | SignedOutOnly(redirectTo: string)

  /**
   * Which guard wraps each route element: the index, home, compose and signup-success
   * screens are for members and send guests to `/signup`; sign-up and sign-in are for
   * guests and send members to `/`; profile, follow and the 404 page are open.
   */
  function GuardOf(s: Screen): (g: Guard)
    ensures g.SignedInOnly? <==> s in {IndexScreen, HomeScreen, ComposePostScreen, SignupSuccessScreen}
    ensures g.SignedOutOnly? <==> s in {SignupScreen, SigninScreen}
    ensures g.SignedInOnly? ==> g.redirectTo == "/signup"
    ensures g.SignedOutOnly? ==> g.redirectTo == "/"
  {
    match s
    case IndexScreen => SignedInOnly("/signup")
    case HomeScreen => SignedInOnly("/signup")
    case ComposePostScreen => SignedInOnly("/signup")
    case SignupSuccessScreen => SignedInOnly("/signup")
    case SignupScreen => SignedOutOnly("/")
    case SigninScreen => SignedOutOnly("/")
    case _ => Open
  }

  /**
   * What a route element shows: the splash exactly while a guarded screen waits for the
   * verification, the screen itself exactly when its guard's condition holds, and
   * otherwise a redirect to the guard's target.
   */
  function Render(s: Screen, auth: AuthState, location: Location): (v: View)
    ensures v == Splash <==> !GuardOf(s).Open? && auth.status == Pending
    ensures v == Children <==>
              || GuardOf(s).Open?
              || (auth.status != Pending && GuardOf(s).SignedInOnly? && auth.isAuthenticated)
              || (auth.status != Pending && GuardOf(s).SignedOutOnly? && !auth.isAuthenticated)
    ensures v.Navigate? && GuardOf(s).SignedInOnly? ==> v == Navigate(GuardOf(s).redirectTo, NavState(Some(location)))
    ensures v.Navigate? && GuardOf(s).SignedOutOnly? ==>
              v.to == (if ReturnPath(location).Some? then ReturnPath(location).value else GuardOf(s).redirectTo)
  {
    match GuardOf(s)
    case Open => Children
    case SignedInOnly(to) => RequireAuth(auth, location, to)
    case SignedOutOnly(to) => RedirectIfLoggedIn(auth, location, to)
  }

  /** Signed-out visitors of the index, home, compose and signup-success screens are sent to `/signup`. */
  lemma GuestsGoToSignup(s: Screen, auth: AuthState, location: Location)
    requires s in {IndexScreen, HomeScreen, ComposePostScreen, SignupSuccessScreen}
    requires auth.status != Pending && !auth.isAuthenticated
    ensures Render(s, auth, location) == Navigate("/signup", NavState(Some(location)))
  {
  }

  /** Signed-in visitors of `/signup` and `/signin` go back where they came from, or to `/`. */
  lemma MembersLeaveEntryScreens(s: Screen, auth: AuthState, location: Location)
    requires s in {SignupScreen, SigninScreen}
    requires auth.status != Pending && auth.isAuthenticated
    ensures Render(s, auth, location) ==
              Navigate(if ReturnPath(location).Some? then ReturnPath(location).value else "/", NoState)
  {
  }

  /**
   * The two guards complete a round trip: a guest turned away from a protected location is
   * sent to `/signup` remembering it, and once signed in is sent back to it.
   */
  lemma SignInReturnsToOrigin(s: Screen, origin: Location, guest: AuthState, member: AuthState)
    requires GuardOf(s).SignedInOnly? && origin.pathname != ""
    requires guest.status != Pending && !guest.isAuthenticated
    requires member.status != Pending && member.isAuthenticated
    ensures Render(s, guest, origin).Navigate?
    ensures
      var landing := Location(Render(s, guest, origin).to, Render(s, guest, origin).state);
      landing.pathname == "/signup" && Render(SignupScreen, member, landing) == Navigate(origin.pathname, NoState)
  {
  }

  /** The body fields the handler destructures from `response.data`. */
  datatype ResponseData = ResponseData(user: Option<User>, accessToken: Option<string>, expiresAt: Option<int>)

  /** How the `verify-token` mutation settles. */
  datatype VerifyResult = Success(status: int, data: ResponseData) | Failure

  datatype AuthAction = Logout | Login(user: Option<User>, token: Option<string>, expiresAt: Option<int>)

  /** The `onSuccess` / `onError` pair of the `verify-token` mutation. */
  function OnVerifyToken(r: VerifyResult): (a: AuthAction)
    ensures a == Logout <==> r.Failure? || r.status == 204
    ensures a.Login? ==> a.user == r.data.user && a.token == r.data.accessToken && a.expiresAt == r.data.expiresAt
  {
    if r.Failure? || r.status == 204 then Logout
    else Login(r.data.user, r.data.accessToken, r.data.expiresAt)
  }

  /** How the client receives an answer of the token issuer. */
  function Received(reply: TokenIssuer.Reply): VerifyResult
  {
    Success(reply.status, ResponseData(Some(reply.body.user), Some(reply.body.accessToken), Some(reply.body.expiresAt)))
  }

  /** The `setTimeout` delay: a timer armed at `now` fires ten seconds before `expiresAt`. */
  function RefreshDelay(expiresAt: int, now: int): (d: int)
    ensures expiresAt - (now + d) == 10 * 1000
  {
    expiresAt - now - 10 * 1000
  }

  /** The issuer's 200 answer logs the client in with exactly the body's user, token and expiry. */
  lemma IssuedReplyLogsIn(reply: TokenIssuer.Reply)
    requires reply.status == 200
    ensures OnVerifyToken(Received(reply)) == Login(Some(reply.body.user), Some(reply.body.accessToken), Some(reply.body.expiresAt))
  {
  }

  /** When every pending timer is the one the cleanup holds, at most one is pending. */
  lemma AtMostOnePending(timers: map<nat, int>, armed: Option<nat>)
    requires forall id :: id in timers ==> armed == Some(id)
    ensures |timers| <= 1
  {
    if armed.Some? {
      assert timers.Keys <= {armed.value};
      SubsetCardinality(timers.Keys, {armed.value});
    } else {
      assert timers.Keys == {};
    }
  }

  lemma {:induction false} SubsetCardinality(a: set<nat>, b: set<nat>)
    requires a <= b
    ensures |a| <= |b|
    decreases |b|
  {
    if a != {} {
      var x :| x in a;
      SubsetCardinality(a - {x}, b - {x});
    }
  }

  /**
   * The two effects of `App`. The browser's pending timeouts are `timers` (id to delay);
   * the current timer effect saw `isAuthenticated` and `expiresAt`, and its cleanup holds
   * `armed`, the id `setTimeout` returned, if it armed one.
   */
  class AuthEffects {
    var timers: map<nat, int>
    var nextId: nat
    var armed: Option<nat>
    var isAuthenticated: bool
    var expiresAt: int
    var verifyCalls: nat

    /** Only the armed timer can be pending, and it was armed while authenticated. */
    ghost predicate Valid()
      reads this
    {
      && 0 < nextId
      && (forall id :: id in timers ==> armed == Some(id))
      && (armed.Some? ==> isAuthenticated && 0 < armed.value < nextId)
    }

    /** Both effects run on mount: one `verify-token` call, and a timer when authenticated. */
    constructor Mount(isAuthenticated: bool, expiresAt: int, now: int)
      ensures Valid() && |timers| <= 1
      ensures verifyCalls == 1
      ensures this.isAuthenticated == isAuthenticated && this.expiresAt == expiresAt
      ensures isAuthenticated ==> timers == map[1 := RefreshDelay(expiresAt, now)] && armed == Some(1)
      ensures !isAuthenticated ==> timers == map[] && armed == None
    {
      verifyCalls := 1;
      this.isAuthenticated := isAuthenticated;
      this.expiresAt := expiresAt;
      if isAuthenticated {
        timers := map[1 := RefreshDelay(expiresAt, now)];
        armed := Some(1);
      } else {
        timers := map[];
        armed := None;
      }
      nextId := 2;
    }

    /** The cleanup of the timer effect: `clearTimeout` when it armed one. */
    method Cleanup()
      requires Valid()
      modifies this
      ensures Valid() && timers == map[] && armed == None
      ensures isAuthenticated == old(isAuthenticated) && expiresAt == old(expiresAt)
      ensures nextId == old(nextId) && verifyCalls == old(verifyCalls)
    {
      if isAuthenticated && armed.Some? {
        timers := map id | id in timers && id != armed.value :: timers[id];
      }
      armed := None;
      assert timers.Keys == {};
    }

    /**
     * A re-render: the first effect runs again when `login` changed identity, the second
     * (after its cleanup) when `isAuthenticated` or `expiresAt` changed.
     */
    method Rerender(loginChanged: bool, isAuthenticated: bool, expiresAt: int, now: int)
      requires Valid()
      modifies this
      ensures Valid() && |timers| <= 1
      ensures verifyCalls == old(verifyCalls) + (if loginChanged then 1 else 0)
      ensures this.isAuthenticated == isAuthenticated && this.expiresAt == expiresAt
      ensures isAuthenticated == old(this.isAuthenticated) && expiresAt == old(this.expiresAt)
              ==> timers == old(timers) && armed == old(armed)
      ensures (isAuthenticated != old(this.isAuthenticated) || expiresAt != old(this.expiresAt)) ==>
                timers == (if isAuthenticated then map[old(nextId) := RefreshDelay(expiresAt, now)] else map[])
    {
      if loginChanged {
        verifyCalls := verifyCalls + 1;
      }
      if isAuthenticated != this.isAuthenticated || expiresAt != this.expiresAt {
        Cleanup();
        this.isAuthenticated := isAuthenticated;
        this.expiresAt := expiresAt;
        if isAuthenticated {
          timers := timers[nextId := RefreshDelay(expiresAt, now)];
          armed := Some(nextId);
          nextId := nextId + 1;
        }
      }
      AtMostOnePending(timers, armed);
    }

    /** A pending timer fires: it leaves the queue and calls `verifyToken.mutate()`. */
    method Fire(id: nat)
      requires Valid()
      modifies this
      ensures Valid() && |timers| <= 1
      ensures timers == map k | k in old(timers) && k != id :: old(timers)[k]
      ensures verifyCalls == old(verifyCalls) + (if id in old(timers) then 1 else 0)
      ensures armed == old(armed) && isAuthenticated == old(isAuthenticated) && expiresAt == old(expiresAt)
    {
      if id in timers {
        timers := map k | k in timers && k != id :: timers[k];
        verifyCalls := verifyCalls + 1;
      }
      AtMostOnePending(timers, armed);
    }
  }

  /**
   * A signed-out client receives the issuer's answer: `login` runs with the body, and the
   * re-render that follows arms exactly one refresh timer, due ten seconds before the
   * access token expires. Whether `login` is a new function after the update is up to the
   * auth context, so `loginChanged` is an input; another verify-token call follows exactly
   * when it is set.
   */
  method ReceiveIssuedReply(effects: AuthEffects, reply: TokenIssuer.Reply, loginChanged: bool, now: int)
    requires effects.Valid() && !effects.isAuthenticated && reply.status == 200
    modifies effects
    ensures effects.Valid() && effects.isAuthenticated && effects.expiresAt == reply.body.expiresAt
    ensures effects.verifyCalls == old(effects.verifyCalls) + (if loginChanged then 1 else 0)
    ensures |effects.timers| == 1
    ensures forall id :: id in effects.timers ==> now + effects.timers[id] == reply.body.expiresAt - 10 * 1000
  {
    var action := OnVerifyToken(Received(reply));
    IssuedReplyLogsIn(reply);
    effects.Rerender(loginChanged, true, action.expiresAt.value, now);
  }
}
