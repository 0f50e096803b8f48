/**
 * Foursomes handler: reassigning the players of one foursome (GroupLeader or Admin only)
 * and listing a session's foursomes in foursome-number order.
 */
module Foursomes {
  import opened Wrappers
  import opened Http
  import opened Store
  import opened Auth

  const MAX_PLAYERS: nat := 4

  /** The body of PUT /foursomes once parsed; an absent field is None. */
  datatype FoursomeBody = FoursomeBody(foursomeId: Option<string>, playerIds: Option<Json>)

  /** The outcome of the checks that need no table: a rejection, or the id and the player list. */
  datatype Precheck = Reject(status: int, message: string) | Accept(foursomeId: string, items: seq<Json>)

  /**
   * The role gate (before the body is even parsed), then the shape of the body:
   * both fields present and truthy, the players an array of 1..4 entries.
   */
  function CheckRequest(user: CurrentUser, body: Option<FoursomeBody>): (r: Precheck)
    ensures !IsGroupLeaderOrAdmin(user) ==> r == Reject(403, "Forbidden: GroupLeader role required")
    ensures IsGroupLeaderOrAdmin(user) && body.None? ==> r == Reject(400, "Invalid JSON in request body")
    ensures IsGroupLeaderOrAdmin(user) && body.Some? ==>
      var b := body.value;
      && (!Present(b.foursomeId) || b.playerIds.None? || !Truthy(b.playerIds.value) ==>
            r == Reject(400, "foursomeId and playerIds are required"))
      && (Present(b.foursomeId) && b.playerIds.Some? && Truthy(b.playerIds.value) ==>
            && (!b.playerIds.value.JArr? ==> r == Reject(400, "playerIds must be an array"))
            && (b.playerIds.value.JArr? && !(1 <= |b.playerIds.value.items| <= MAX_PLAYERS) ==>
                  r == Reject(400, "playerIds must contain 1-4 players")))
    ensures r.Accept? <==>
      && IsGroupLeaderOrAdmin(user) && body.Some? && Present(body.value.foursomeId)
      && body.value.playerIds.Some? && body.value.playerIds.value.JArr?
      && 1 <= |body.value.playerIds.value.items| <= MAX_PLAYERS
    ensures r.Accept? ==> r.foursomeId == body.value.foursomeId.value && r.items == body.value.playerIds.value.items
  {
    if !IsGroupLeaderOrAdmin(user) then Reject(403, "Forbidden: GroupLeader role required")
    else if body.None? then Reject(400, "Invalid JSON in request body")
    else
      var b := body.value;
      if !Present(b.foursomeId) || b.playerIds.None? || !Truthy(b.playerIds.value) then
        Reject(400, "foursomeId and playerIds are required")
      else if !b.playerIds.value.JArr? then Reject(400, "playerIds must be an array")
      else if !(1 <= |b.playerIds.value.items| <= MAX_PLAYERS) then Reject(400, "playerIds must contain 1-4 players")
      else Accept(b.foursomeId.value, b.playerIds.value.items)
  }

  /** The result of looking the players up one by one. A non-string entry is not a valid user key. */
  datatype Lookup = AllFound | Missing(playerId: string) | InvalidKey

  predicate Known(users: map<string, User>, j: Json) {
    j.JStr? && j.s in users
  }

  /** The first entry, in list order, that is not a known user, if any. */
  function FirstUnknown(users: map<string, User>, items: seq<Json>): (r: Lookup)
    ensures r.AllFound? <==> forall i :: 0 <= i < |items| ==> Known(users, items[i])
    ensures !r.AllFound? ==>
      exists i :: && 0 <= i < |items| && !Known(users, items[i])
                  && (forall j :: 0 <= j < i ==> Known(users, items[j]))
                  && r == (if items[i].JStr? then Missing(items[i].s) else InvalidKey)
    decreases |items|
  {
    if items == [] then AllFound
    else if !Known(users, items[0]) then (if items[0].JStr? then Missing(items[0].s) else InvalidKey)
    else
      var r := FirstUnknown(users, items[1..]);
      assert forall i :: 1 <= i < |items| ==> items[i] == items[1..][i - 1];
      r
  }

  /** The existence loop over the players, in order, stopping at the first unknown one. */
  method FindUnknownPlayer(users: map<string, User>, items: seq<Json>) returns (r: Lookup)
    ensures r == FirstUnknown(users, items)
  {
    var i := 0;
    while i < |items|
      invariant 0 <= i <= |items|
      invariant FirstUnknown(users, items[i..]) == FirstUnknown(users, items)
    {
      if !Known(users, items[i]) {
        return if items[i].JStr? then Missing(items[i].s) else InvalidKey;
      }
      assert items[i..][1..] == items[i + 1..];
      i := i + 1;
    }
    return AllFound;
  }

  /** The answer when a lookup fails: 404 naming the player, or the handler's 500 for a bad key. */
  function LookupError(l: Lookup): Response<Foursome>
    requires !l.AllFound?
  {
    if l.Missing? then Error(404, "User " + l.playerId + " not found") else Error(500, "Failed to update foursome")
  }

  function Strings(items: seq<Json>): (ids: seq<string>)
    requires forall i :: 0 <= i < |items| ==> items[i].JStr?
    ensures |ids| == |items| && forall i :: 0 <= i < |items| ==> items[i] == JStr(ids[i])
  {
    seq(|items|, i requires 0 <= i < |items| => items[i].s)
  }

  /**
   * PUT /foursomes. After the request checks and the player lookups, an unknown foursome
   * is 404; otherwise exactly that foursome gets the new players, timestamp and editor.
   */
  method HandlePut(db: Db, user: CurrentUser, body: Option<FoursomeBody>, updatedAt: string)
    returns (r: Response<Foursome>)
    requires db.Valid()
    modifies db`foursomes
    ensures db.Valid()
    ensures var c := CheckRequest(user, body);
      && (c.Reject? ==> r == Error(c.status, c.message) && db.foursomes == old(db.foursomes))
      && (c.Accept? && !FirstUnknown(db.users, c.items).AllFound? ==>
            r == LookupError(FirstUnknown(db.users, c.items)) && db.foursomes == old(db.foursomes))
      && (c.Accept? && FirstUnknown(db.users, c.items).AllFound? ==>
            && (c.foursomeId !in old(db.foursomes) ==>
                  r == Error(404, "Foursome not found") && db.foursomes == old(db.foursomes))
            && (c.foursomeId in old(db.foursomes) ==>
                  var f := old(db.foursomes)[c.foursomeId];
                  && r.Ok? && r.status == 200
                  && r.body == f.(playerIds := Strings(c.items), updatedAt := Some(updatedAt), updatedBy := Some(user.userId))
                  && r.body.foursomeId == f.foursomeId && r.body.sessionId == f.sessionId
                  && r.body.foursomeNumber == f.foursomeNumber && r.body.createdAt == f.createdAt
                  && db.foursomes == old(db.foursomes)[c.foursomeId := r.body]))
  {
    var c := CheckRequest(user, body);
    if c.Reject? {
      return Error(c.status, c.message);
    }
    var lookup := FindUnknownPlayer(db.users, c.items);
    if !lookup.AllFound? {
      return LookupError(lookup);
    }
    if c.foursomeId !in db.foursomes {
      return Error(404, "Foursome not found");
    }
    var f := db.foursomes[c.foursomeId];
    var updated := f.(playerIds := Strings(c.items), updatedAt := Some(updatedAt), updatedBy := Some(user.userId));
    db.foursomes := db.foursomes[c.foursomeId := updated];
    r := Ok(200, updated);
  }

  /** `(foursomeNumber || 0)`: a missing number sorts as 0. */
  function SortKey(f: Foursome): int {
    f.foursomeNumber.GetOr(0)
  }

  predicate SortedByNumber(s: seq<Foursome>) {
    forall i, j :: 0 <= i < j < |s| ==> SortKey(s[i]) <= SortKey(s[j])
  }

  /** Exchanging two entries keeps the same foursomes. */
  method Swap(a: array<Foursome>, i: nat, j: nat)
    requires i < a.Length && j < a.Length
    modifies a
    ensures a[..] == old(a[..])[i := old(a[j])][j := old(a[i])]
    ensures multiset(a[..]) == multiset(old(a[..]))
  {
    a[i], a[j] := a[j], a[i];
  }

  /** Moves a[i] left past every larger key, so a[..i + 1] becomes sorted. */
  method InsertAt(a: array<Foursome>, i: nat)
    requires i < a.Length
    requires SortedByNumber(a[..i])
    modifies a
    ensures SortedByNumber(a[..i + 1])
    ensures a[i + 1..] == old(a[i + 1..])
    ensures multiset(a[..]) == multiset(old(a[..]))
  {
    var j := i;
    while j > 0 && SortKey(a[j - 1]) > SortKey(a[j])
      invariant 0 <= j <= i
      invariant a[i + 1..] == old(a[i + 1..])
      invariant multiset(a[..]) == multiset(old(a[..]))
      invariant forall p, q :: 0 <= p < q <= i && q != j ==> SortKey(a[p]) <= SortKey(a[q])
      invariant 0 < j < i ==> SortKey(a[j - 1]) <= SortKey(a[j + 1])
    {
      Swap(a, j - 1, j);
      j := j - 1;
    }
  }

  /** The in-place sort of the query result, ascending by foursome number. */
  method SortByNumber(a: array<Foursome>)
    modifies a
    ensures SortedByNumber(a[..])
    ensures multiset(a[..]) == multiset(old(a[..]))
  {
    var i := 0;
    while i < a.Length
      invariant 0 <= i <= a.Length
      invariant SortedByNumber(a[..i])
      invariant multiset(a[..]) == multiset(old(a[..]))
    {
      InsertAt(a, i);
      i := i + 1;
    }
    assert a[..i] == a[..];
  }

  /**
   * GET /foursomes: 400 without a sessionId; otherwise the foursomes the session query
   * returned (`queried`), reordered by foursome number.
   */
  method HandleGet(sessionId: Option<string>, queried: seq<Foursome>) returns (r: Response<seq<Foursome>>)
    ensures !Present(sessionId) <==> r.Error?
    ensures r.Error? ==> r == Error(400, "sessionId query parameter is required")
    ensures r.Ok? ==> r.status == 200 && SortedByNumber(r.body) && multiset(r.body) == multiset(queried)
  {
    if !Present(sessionId) {
      return Error(400, "sessionId query parameter is required");
    }
    var a := new Foursome[|queried|](i requires 0 <= i < |queried| => queried[i]);
    assert a[..] == queried;
    SortByNumber(a);
    r := Ok(200, a[..]);
  }
}
