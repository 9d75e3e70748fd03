/**
 * The user and session tables the server keeps in PostgreSQL, reduced to an in-memory
 * table. A user owns zero or more sessions; a session records one issued refresh token
 * and the instant it was meant to expire.
 */
module Store {
  type UserId = nat

  /** A user row; attributes other than the key and the username play no part in authentication. */
  datatype User = User(id: UserId, username: string)

  /** A session row: the owning user, the refresh token issued to it and its expiration time (ms). */
  datatype Session = Session(userId: UserId, refreshToken: string, expirationTime: int)

  /** The storage calls the modelled code makes; an `outage` set names those that throw. */
  datatype Query = SessionLookup | UserLookup | SessionInsert | UserListing

  /** The answer of a keyed lookup: a row, no row, or an error thrown by storage. */
  datatype Lookup<T> = Found(row: T) | Missing | Failed

  /** Some session row carries exactly this refresh token (what `session.findFirst` asks). */
  predicate HasSession(sessions: seq<Session>, refreshToken: string)
  {
    exists i :: 0 <= i < |sessions| && sessions[i].refreshToken == refreshToken
  }

  /** The two tables. Sessions are only ever appended here; nothing in the model deletes one. */
  class Database {
    var sessions: seq<Session>
    var users: map<UserId, User>

    /** Every session belongs to an existing user, and every user is stored under its own id. */
    ghost predicate Valid()
      reads this
    {
      && (forall i :: 0 <= i < |sessions| ==> sessions[i].userId in users)
      && (forall id :: id in users ==> users[id].id == id)
    }

    constructor (users: map<UserId, User>)
      requires forall id :: id in users ==> users[id].id == id
      ensures Valid()
      ensures this.users == users && sessions == []
    {
      this.users := users;
      sessions := [];
    }

    /** `prisma.user.findUnique({ where: { id } })`. */
    method FindUser(id: UserId, outage: set<Query>) returns (r: Lookup<User>)
      ensures UserLookup in outage ==> r == Failed
      ensures UserLookup !in outage && id in users ==> r == Found(users[id])
      ensures UserLookup !in outage && id !in users ==> r == Missing
    {
      if UserLookup in outage {
        r := Failed;
      } else if id in users {
        r := Found(users[id]);
      } else {
        r := Missing;
      }
    }

    /**
     * The nested `sessions: { create }` of `prisma.user.update`: appends one row owned by
     * `row.userId`, or throws and leaves the table as it was.
     */
    method CreateSession(row: Session, outage: set<Query>) returns (ok: bool)
      requires Valid() && row.userId in users
      modifies this`sessions
      ensures Valid()
      ensures ok <==> SessionInsert !in outage
      ensures sessions == if ok then old(sessions) + [row] else old(sessions)
    {
      ok := SessionInsert !in outage;
      if ok {
        sessions := sessions + [row];
      }
    }
  }
}
