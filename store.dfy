/**
 * The request/response surface and the persisted records shared by the Lambda handlers.
 * The managed document store is modelled as one map per table, held by `Db`.
 */
module Http {
  import opened Wrappers

  /** The JSON values a request body field can hold (numbers are integers here). */
  datatype Json = JNull | JBool(b: bool) | JNum(n: int) | JStr(s: string) | JArr(items: seq<Json>) | JObj

  /** JavaScript truthiness of a body field; an absent field is `undefined`, which is falsy. */
  predicate Truthy(j: Json) {
    match j
    case JNull => false
    case JBool(b) => b
    case JNum(n) => n != 0
    case JStr(s) => s != ""
    case JArr(_) => true
    case JObj => true
  }

  /** `!!field` for a string-valued field that may be absent. */
  predicate Present(f: Option<string>) {
    f.Some? && f.value != ""
  }

  /** A handler's answer: a success status with its body, or an error status with the `error` text. */
  datatype Response<T> = Ok(status: int, body: T) | Error(status: int, message: string)
}

module Store {
  import opened Wrappers

  datatype User = User(userId: string, email: Option<string>, name: Option<string>, role: string,
                       updatedAt: Option<string>)

  datatype Playgroup = Playgroup(playgroupId: string, name: string, description: string,
                                 leaderId: string, leaderEmail: string, memberIds: seq<string>,
                                 createdAt: string, updatedAt: Option<string>)

  datatype Session = Session(sessionId: string, playgroupId: string, date: string, time: string,
                             courseName: string, status: string, createdAt: string, createdBy: string)

  datatype Foursome = Foursome(foursomeId: string, sessionId: string, playerIds: seq<string>,
                               foursomeNumber: Option<int>, createdAt: string,
                               updatedAt: Option<string>, updatedBy: Option<string>)

  datatype Score = Score(foursomeId: string, playerId: string, sessionId: string, holes: seq<nat>,
                         totalScore: nat, updatedAt: string, updatedBy: string)

  /** Each table stores every record under its own id; scores under (foursomeId, playerId). */
  predicate UsersKeyed(m: map<string, User>) {
    forall k :: k in m ==> m[k].userId == k
  }

  predicate PlaygroupsKeyed(m: map<string, Playgroup>) {
    forall k :: k in m ==> m[k].playgroupId == k
  }

  predicate SessionsKeyed(m: map<string, Session>) {
    forall k :: k in m ==> m[k].sessionId == k
  }

  predicate FoursomesKeyed(m: map<string, Foursome>) {
    forall k :: k in m ==> m[k].foursomeId == k
  }

  predicate ScoresKeyed(m: map<(string, string), Score>) {
    forall k :: k in m ==> m[k].foursomeId == k.0 && m[k].playerId == k.1
  }

  /** The tables. Scores are keyed by (foursomeId, playerId). */
  class Db {
    var users: map<string, User>
    var playgroups: map<string, Playgroup>
    var sessions: map<string, Session>
    var foursomes: map<string, Foursome>
    var scores: map<(string, string), Score>

    /** Every record is stored under its own key. */
    ghost predicate Valid()
      reads this
    {
      && UsersKeyed(users) && PlaygroupsKeyed(playgroups) && SessionsKeyed(sessions)
      && FoursomesKeyed(foursomes) && ScoresKeyed(scores)
    }

    constructor ()
      ensures Valid()
      ensures users == map[] && playgroups == map[] && sessions == map[]
      ensures foursomes == map[] && scores == map[]
    {
      users, playgroups, sessions, foursomes, scores := map[], map[], map[], map[], map[];
    }
  }
}

/** The identity-token claims every handler reads, and the role rules built on them. */
module Auth {
  import opened Wrappers
  import opened Store

  const PLAYER: string := "Player"
  const GROUP_LEADER: string := "GroupLeader"
  const ADMIN: string := "Admin"

  /** `sub`, `email` and the optional `custom:role` claim of the authorizer. */
  datatype Claims = Claims(sub: string, email: string, roleClaim: Option<string>)

  datatype CurrentUser = CurrentUser(userId: string, email: string, role: string)

  /** `claims['custom:role'] || 'Player'`: a missing or empty claim reads as Player. */
  function RoleFromClaim(claim: Option<string>): (role: string)
    ensures role != ""
    ensures claim.Some? && claim.value != "" ==> role == claim.value
    ensures claim.None? || claim.value == "" ==> role == PLAYER
  {
    match claim
    case Some(r) => if r != "" then r else PLAYER
    case None => PLAYER
  }

  /** `getUserFromEvent`. */
  function UserFromClaims(c: Claims): (u: CurrentUser)
    ensures u.userId == c.sub && u.email == c.email && u.role == RoleFromClaim(c.roleClaim)
  {
    CurrentUser(c.sub, c.email, RoleFromClaim(c.roleClaim))
  }

  predicate IsAdmin(u: CurrentUser) {
    u.role == ADMIN
  }

  predicate IsGroupLeaderOrAdmin(u: CurrentUser) {
    u.role == GROUP_LEADER || u.role == ADMIN
  }

  /** Read access to a playgroup and to its sessions: a member, its leader, or an Admin. */
  predicate IsMemberLeaderOrAdmin(pg: Playgroup, u: CurrentUser) {
    u.userId in pg.memberIds || pg.leaderId == u.userId || IsAdmin(u)
  }

  /** Writes on a playgroup (new session, new member): its leader or an Admin. */
  predicate IsLeaderOrAdmin(pg: Playgroup, u: CurrentUser) {
    pg.leaderId == u.userId || IsAdmin(u)
  }
}
