/** The parts of an Express request and of Express error values that the modelled code reads. */
module Http {
  import opened Wrappers
  import opened Store

  /** The errors passed to `next(error)`: the `http-errors` kinds, storage exceptions and the CORS error. */
  datatype HttpError =
    | Unauthorized
    | InternalServerError
    | NotFound
    | StorageFailure(query: Query)
    | CorsRejected(message: string)
    | SigningSecretMissing                     // res.cookie's error for a signed cookie without a cookie-parser secret

  /**
   * A signed cookie as cookie-parser leaves it in `req.signedCookies`: the unsigned value
   * when the signature checks, `false` when it does not.
   */
  datatype SignedCookie = Verified(value: string) | Forged

  /** Where Express's router sends the request; path matching itself is not modelled. */
  datatype Route = AuthRoutes | UsersList | NoRoute

  datatype Request = Request(
    authorization: Option<string>,             // req.get('Authorization')
    signedCookies: map<string, SignedCookie>,  // req.signedCookies
    userId: Option<UserId>,                    // req.userId, set by the login strategies
    origin: Option<string>,                    // the Origin header, as the cors package reads it
    route: Route,
    preflight: bool)                           // req.method === 'OPTIONS', which the cors package answers itself

  /** JavaScript truthiness of `req.userId`: `undefined` and `0` are falsy. */
  predicate IsTruthyId(id: Option<UserId>)
  {
    id.Some? && id.value != 0
  }
}
