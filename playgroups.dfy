/**
 * Playgroups handler: reading one playgroup or the caller's list, creating a playgroup,
 * and adding a member, with the access rules each applies.
 */
module Playgroups {
  import opened Wrappers
  import opened Seqs
  import opened Selection
  import opened Http
  import opened Store
  import opened Auth

  /** GET /playgroups?playgroupId=…: 404 for an unknown id, then the read rule. */
  function GetPlaygroup(user: CurrentUser, playgroupId: string, playgroups: map<string, Playgroup>): (r: Response<Playgroup>)
    ensures playgroupId !in playgroups ==> r == Error(404, "Playgroup not found")
    ensures playgroupId in playgroups ==>
      && (r.Ok? <==> IsMemberLeaderOrAdmin(playgroups[playgroupId], user))
      && (r.Ok? ==> r == Ok(200, playgroups[playgroupId]))
      && (r.Error? ==> r.status == 403)
  {
    if playgroupId !in playgroups then Error(404, "Playgroup not found")
    else
      var pg := playgroups[playgroupId];
      if !IsMemberLeaderOrAdmin(pg, user) then Error(403, "Forbidden: You are not a member of this playgroup")
      else Ok(200, pg)
  }

  predicate DistinctIds(s: seq<Playgroup>) {
    forall i, j :: 0 <= i < j < |s| ==> s[i].playgroupId != s[j].playgroupId
  }

  function Ids(s: seq<Playgroup>): set<string> {
    set g | g in s :: g.playgroupId
  }

  /** g is the last entry of s with its id. */
  predicate LastWithId(s: seq<Playgroup>, g: Playgroup) {
    exists i :: 0 <= i < |s| && s[i] == g && forall j :: i < j < |s| ==> s[j].playgroupId != g.playgroupId
  }

  /**
   * The merge after the first i groups: `keys` lists each id once in first-seen order, and
   * `vals` holds, under each id seen, the last group with that id.
   */
  ghost predicate Merged(groups: seq<Playgroup>, i: nat, keys: seq<string>, vals: map<string, Playgroup>)
    requires i <= |groups|
  {
    && (forall a, b :: 0 <= a < b < |keys| ==> keys[a] != keys[b])
    && (forall id :: id in vals <==> id in keys)
    && (forall id :: id in vals ==> vals[id].playgroupId == id)
    && (forall j :: 0 <= j < i ==> groups[j].playgroupId in vals)
    && (forall id :: id in vals ==>
          exists j :: 0 <= j < i && groups[j] == vals[id] && forall l :: j < l < i ==> groups[l].playgroupId != id)
  }

  /** Setting the next group under its id extends the merge by one group. */
  lemma MergeStep(groups: seq<Playgroup>, i: nat, keys: seq<string>, vals: map<string, Playgroup>)
    requires i < |groups| && Merged(groups, i, keys, vals)
    ensures var g := groups[i];
      Merged(groups, i + 1, if g.playgroupId in vals then keys else keys + [g.playgroupId], vals[g.playgroupId := g])
  {
    var g := groups[i];
    var vals' := vals[g.playgroupId := g];
    forall id | id in vals'
      ensures exists j :: 0 <= j < i + 1 && groups[j] == vals'[id] && forall l :: j < l < i + 1 ==> groups[l].playgroupId != id
    {
      if id != g.playgroupId {
        var j :| 0 <= j < i && groups[j] == vals[id] && forall l :: j < l < i ==> groups[l].playgroupId != id;
        assert groups[j] == vals'[id];
      } else {
        assert groups[i] == vals'[id];
      }
    }
  }

  /**
   * The keyed merge: each group is set under its id in an insertion-ordered map, so an id
   * keeps the position of its first occurrence and the value of its last.
   */
  method DedupById(groups: seq<Playgroup>) returns (r: seq<Playgroup>)
    ensures DistinctIds(r)
    ensures forall k :: 0 <= k < |r| ==> LastWithId(groups, r[k])
    ensures Ids(r) == Ids(groups)
  {
    var keys: seq<string> := [];
    var vals: map<string, Playgroup> := map[];
    var i := 0;
    while i < |groups|
      invariant 0 <= i <= |groups|
      invariant Merged(groups, i, keys, vals)
    {
      var g := groups[i];
      MergeStep(groups, i, keys, vals);
      if g.playgroupId !in vals {
        keys := keys + [g.playgroupId];
      }
      vals := vals[g.playgroupId := g];
      i := i + 1;
    }
    r := seq(|keys|, k requires 0 <= k < |keys| => vals[keys[k]]);
    DedupResult(groups, keys, vals, r);
  }

  /** What the merged map holds once every group is set, read back in key order. */
  lemma DedupResult(groups: seq<Playgroup>, keys: seq<string>, vals: map<string, Playgroup>, r: seq<Playgroup>)
    requires Merged(groups, |groups|, keys, vals)
    requires |r| == |keys| && forall k :: 0 <= k < |keys| ==> r[k] == vals[keys[k]]
    ensures DistinctIds(r)
    ensures forall k :: 0 <= k < |r| ==> LastWithId(groups, r[k])
    ensures Ids(r) == Ids(groups)
  {
    forall id | id in Ids(groups)
      ensures id in Ids(r)
    {
      var g :| g in groups && g.playgroupId == id;
      assert id in keys;
      var k :| 0 <= k < |keys| && keys[k] == id;
      assert r[k] in r && r[k].playgroupId == id;
    }
    forall id | id in Ids(r)
      ensures id in Ids(groups)
    {
      var g :| g in r && g.playgroupId == id;
      var k :| 0 <= k < |r| && r[k] == g;
      var j :| 0 <= j < |groups| && groups[j] == vals[keys[k]];
      assert groups[j] in groups;
    }
  }

  /**
   * GET /playgroups without an id: the groups the caller leads (`led`, the leader-index
   * query) followed by the scanned groups (`scanned`) that list the caller as a member,
   * merged by id. When `led` holds exactly the stored groups keyed by the caller as leader
   * and `scanned` every stored group, the result is exactly the groups the caller leads or
   * belongs to, each once.
   */
  method ListPlaygroups(user: CurrentUser, led: seq<Playgroup>, scanned: seq<Playgroup>, ghost table: map<string, Playgroup>)
    returns (r: seq<Playgroup>)
    requires PlaygroupsKeyed(table)
    requires forall g :: g in led <==> g in table.Values && g.leaderId == user.userId
    requires forall g :: g in scanned <==> g in table.Values
    ensures DistinctIds(r)
    ensures forall g :: g in r <==> g in table.Values && (g.leaderId == user.userId || user.userId in g.memberIds)
    ensures forall g :: g in r ==> g in led || (g in scanned && user.userId in g.memberIds)
    ensures forall g :: g in led || (g in scanned && user.userId in g.memberIds) ==> g.playgroupId in Ids(r)
    ensures (forall g, h :: g in led + scanned && h in led + scanned && g.playgroupId == h.playgroupId ==> g == h) ==>
      forall g :: g in r <==> g in led || (g in scanned && user.userId in g.memberIds)
  {
    var members := Filter(scanned, (g: Playgroup) => user.userId in g.memberIds);
    var all := led + members;
    r := DedupById(all);
    forall g | g in r
      ensures g in all
    {
      var k :| 0 <= k < |r| && r[k] == g;
      assert LastWithId(all, r[k]);
    }
    forall g | g in led || (g in scanned && user.userId in g.memberIds)
      ensures g.playgroupId in Ids(r)
    {
      assert g in members || g in led;
      assert g in all;
    }
    forall g, h | g in led + scanned && h in led + scanned && g.playgroupId == h.playgroupId
      ensures g == h
    {
      var kg :| kg in table && table[kg] == g;
      var kh :| kh in table && table[kh] == h;
    }
  }

  /** The body of POST /playgroups once parsed; an absent field is None. */
  datatype PlaygroupBody = PlaygroupBody(action: Option<string>, name: Option<string>, description: Option<string>,
                                         playgroupId: Option<string>, userId: Option<string>)

  /** Creating a playgroup: the role gate before the name check, then the new record. */
  function NewPlaygroup(user: CurrentUser, b: PlaygroupBody, playgroupId: string, createdAt: string): (r: Response<Playgroup>)
    ensures !IsGroupLeaderOrAdmin(user) ==> r == Error(403, "Forbidden: GroupLeader role required")
    ensures IsGroupLeaderOrAdmin(user) && !Present(b.name) ==> r == Error(400, "name is required")
    ensures r.Ok? <==> IsGroupLeaderOrAdmin(user) && Present(b.name)
    ensures r.Ok? ==>
      && r.status == 201
      && r.body.playgroupId == playgroupId && r.body.name == b.name.value
      && r.body.description == (if Present(b.description) then b.description.value else "")
      && r.body.leaderId == user.userId && r.body.leaderEmail == user.email
      && r.body.memberIds == [] && r.body.createdAt == createdAt && r.body.updatedAt == None
  {
    if !IsGroupLeaderOrAdmin(user) then Error(403, "Forbidden: GroupLeader role required")
    else if !Present(b.name) then Error(400, "name is required")
    else
      var description := if Present(b.description) then b.description.value else "";
      Ok(201, Playgroup(playgroupId, b.name.value, description, user.userId, user.email, [], createdAt, None))
  }

  /** Adding a member: the checks in their order, then the group with the user appended. */
  function AddMember(user: CurrentUser, b: PlaygroupBody, playgroups: map<string, Playgroup>,
                     users: map<string, User>, updatedAt: string): (r: Response<Playgroup>)
    ensures !Present(b.playgroupId) || !Present(b.userId) ==> r == Error(400, "playgroupId and userId are required")
    ensures Present(b.playgroupId) && Present(b.userId) ==>
      var pid := b.playgroupId.value;
      var uid := b.userId.value;
      && (pid !in playgroups ==> r == Error(404, "Playgroup not found"))
      && (pid in playgroups && !IsLeaderOrAdmin(playgroups[pid], user) ==> r.Error? && r.status == 403)
      && (pid in playgroups && IsLeaderOrAdmin(playgroups[pid], user) && uid in playgroups[pid].memberIds ==>
            r == Error(400, "User is already a member of this playgroup"))
      && ((pid in playgroups && IsLeaderOrAdmin(playgroups[pid], user) && uid !in playgroups[pid].memberIds
           && uid !in users) ==> r == Error(404, "User not found"))
      && (r.Ok? <==> pid in playgroups && IsLeaderOrAdmin(playgroups[pid], user)
                     && uid !in playgroups[pid].memberIds && uid in users)
      && (r.Ok? ==>
            var old_ := playgroups[pid];
            && r.status == 200
            && r.body.memberIds == old_.memberIds + [uid]
            && |r.body.memberIds| == |old_.memberIds| + 1
            && r.body.memberIds[..|old_.memberIds|] == old_.memberIds
            && r.body.leaderId == old_.leaderId && r.body.playgroupId == old_.playgroupId
            && r.body.name == old_.name && r.body.description == old_.description
            && r.body.updatedAt == Some(updatedAt))
  {
    if !Present(b.playgroupId) || !Present(b.userId) then Error(400, "playgroupId and userId are required")
    else
      var pid := b.playgroupId.value;
      var uid := b.userId.value;
      if pid !in playgroups then Error(404, "Playgroup not found")
      else
        var pg := playgroups[pid];
        if !IsLeaderOrAdmin(pg, user) then Error(403, "Forbidden: Only the playgroup leader can add members")
        else if uid in pg.memberIds then Error(400, "User is already a member of this playgroup")
        else if uid !in users then Error(404, "User not found")
        else Ok(200, pg.(memberIds := pg.memberIds + [uid], updatedAt := Some(updatedAt)))
  }

  /** Adding a member to a group whose members are distinct keeps them distinct. */
  lemma AddMemberKeepsMembersDistinct(user: CurrentUser, b: PlaygroupBody, playgroups: map<string, Playgroup>,
                                      users: map<string, User>, updatedAt: string)
    requires Present(b.playgroupId) && b.playgroupId.value in playgroups
    requires NoDuplicates(playgroups[b.playgroupId.value].memberIds)
    ensures var r := AddMember(user, b, playgroups, users, updatedAt);
      r.Ok? ==> NoDuplicates(r.body.memberIds)
  {
    var r := AddMember(user, b, playgroups, users, updatedAt);
    if r.Ok? {
      var m := playgroups[b.playgroupId.value].memberIds;
      var uid := b.userId.value;
      assert r.body.memberIds == m + [uid];
      forall i, j | 0 <= i < j < |m| + 1
        ensures (m + [uid])[i] != (m + [uid])[j]
      {
        if j == |m| {
          assert (m + [uid])[i] == m[i];
        }
      }
    }
  }

  /**
   * POST /playgroups: invalid JSON is 400; an `action` of exactly "addMember" adds a
   * member, anything else creates a playgroup under the fresh id `newId`.
   */
  method HandlePost(db: Db, user: CurrentUser, body: Option<PlaygroupBody>, newId: string, now: string)
    returns (r: Response<Playgroup>)
    requires db.Valid()
    modifies db`playgroups
    ensures db.Valid()
    ensures body.None? ==> r == Error(400, "Invalid JSON in request body") && db.playgroups == old(db.playgroups)
    ensures body.Some? && body.value.action == Some("addMember") ==>
      && r == AddMember(user, body.value, old(db.playgroups), db.users, now)
      && (r.Ok? ==> db.playgroups == old(db.playgroups)[body.value.playgroupId.value := r.body])
      && (r.Error? ==> db.playgroups == old(db.playgroups))
    ensures body.Some? && body.value.action != Some("addMember") ==>
      && r == NewPlaygroup(user, body.value, newId, now)
      && (r.Ok? ==> db.playgroups == old(db.playgroups)[newId := r.body])
      && (r.Error? ==> db.playgroups == old(db.playgroups))
  {
    if body.None? {
      return Error(400, "Invalid JSON in request body");
    }
    var b := body.value;
    if b.action == Some("addMember") {
      r := AddMember(user, b, db.playgroups, db.users, now);
      if r.Ok? {
        db.playgroups := db.playgroups[b.playgroupId.value := r.body];
      }
    } else {
      r := NewPlaygroup(user, b, newId, now);
      if r.Ok? {
        db.playgroups := db.playgroups[newId := r.body];
      }
    }
  }
}
