/**
 * The foursome editor: dragging a player from one foursome onto another, and the payload
 * the save button sends.
 */
module EditFoursomes {
  import opened Wrappers
  import opened Seqs

  datatype Player = Player(userId: string, name: string)

  /** A foursome as the page holds it: its id and its players, in order. */
  datatype Group = Group(foursomeId: string, players: seq<Player>)

  /** The drag in progress: the player picked up and the foursome it was picked from. */
  datatype Drag = Drag(player: Player, fromFoursomeId: string)

  datatype EditState = EditState(groups: seq<Group>, drag: Option<Drag>)

  /** `handleDragStart`. */
  function DragStart(st: EditState, player: Player, foursomeId: string): (r: EditState)
    ensures r.groups == st.groups && r.drag == Some(Drag(player, foursomeId))
  {
    st.(drag := Some(Drag(player, foursomeId)))
  }

  /** Keeps the players whose userId differs from `uid`. */
  function Keeps(uid: string): Player -> bool {
    (p: Player) => p.userId != uid
  }

  /** One foursome after the move: the source loses the dragged user, the target gains the player at its end. */
  function MoveIn(g: Group, player: Player, from: string, to: string): Group {
    if g.foursomeId == from then g.(players := Filter(g.players, Keeps(player.userId)))
    else if g.foursomeId == to then g.(players := g.players + [player])
    else g
  }

  /** `prev.map(...)` of `handleDrop`. */
  function MoveAll(gs: seq<Group>, player: Player, from: string, to: string): (r: seq<Group>)
    ensures |r| == |gs|
    ensures forall i :: 0 <= i < |gs| ==> r[i] == MoveIn(gs[i], player, from, to)
  {
    if gs == [] then [] else [MoveIn(gs[0], player, from, to)] + MoveAll(gs[1..], player, from, to)
  }

  /**
   * `handleDrop(to)`: nothing happens without a drag; a drop onto the source foursome only
   * clears the drag; otherwise every foursome is moved as MoveIn says and the drag is cleared.
   */
  function Drop(st: EditState, to: string): (r: EditState)
    ensures st.drag.None? ==> r == st
    ensures st.drag.Some? ==> r.drag.None?
    ensures st.drag.Some? && st.drag.value.fromFoursomeId == to ==> r.groups == st.groups
    ensures |r.groups| == |st.groups|
    ensures forall i :: 0 <= i < |st.groups| ==> r.groups[i].foursomeId == st.groups[i].foursomeId
    ensures st.drag.Some? && st.drag.value.fromFoursomeId != to ==>
      var player := st.drag.value.player;
      var from := st.drag.value.fromFoursomeId;
      forall i :: 0 <= i < |st.groups| ==>
        var g := st.groups[i];
        && (g.foursomeId == from ==>
              && r.groups[i].players == Filter(g.players, Keeps(player.userId))
              && IsSubsequence(r.groups[i].players, g.players)
              && (forall p :: p in r.groups[i].players <==> p in g.players && p.userId != player.userId))
        && (g.foursomeId == to ==> r.groups[i].players == g.players + [player])
        && (g.foursomeId != from && g.foursomeId != to ==> r.groups[i] == g)
  {
    match st.drag
    case None => st
    case Some(d) =>
      if d.fromFoursomeId == to then EditState(st.groups, None)
      else
        var r := EditState(MoveAll(st.groups, d.player, d.fromFoursomeId, to), None);
        forall i | 0 <= i < |st.groups| && st.groups[i].foursomeId == d.fromFoursomeId
          ensures IsSubsequence(r.groups[i].players, st.groups[i].players)
        {
          FilterIsSubsequence(st.groups[i].players, Keeps(d.player.userId));
        }
        r
  }

  /** How many players the foursomes hold together. */
  function PlayerCount(gs: seq<Group>): nat {
    if gs == [] then 0 else |gs[0].players| + PlayerCount(gs[1..])
  }

  /** How many of `ps` have the given userId. */
  function Occurrences(ps: seq<Player>, uid: string): nat {
    if ps == [] then 0 else (if ps[0].userId == uid then 1 else 0) + Occurrences(ps[1..], uid)
  }

  /** The entries with userId `uid` in the foursomes whose id is `from`. */
  function Removed(gs: seq<Group>, from: string, uid: string): nat {
    if gs == [] then 0
    else (if gs[0].foursomeId == from then Occurrences(gs[0].players, uid) else 0) + Removed(gs[1..], from, uid)
  }

  /** How many foursomes have the id `to`. */
  function Targets(gs: seq<Group>, to: string): nat {
    if gs == [] then 0 else (if gs[0].foursomeId == to then 1 else 0) + Targets(gs[1..], to)
  }

  lemma {:induction false} FilterOccurrences(ps: seq<Player>, uid: string)
    ensures |Filter(ps, Keeps(uid))| + Occurrences(ps, uid) == |ps|
  {
    if ps != [] {
      FilterOccurrences(ps[1..], uid);
    }
  }

  /** A move removes the dragged user's entries from the sources and adds one player per target. */
  lemma {:induction false} MoveAllCount(gs: seq<Group>, player: Player, from: string, to: string)
    requires from != to
    ensures PlayerCount(MoveAll(gs, player, from, to)) + Removed(gs, from, player.userId)
         == PlayerCount(gs) + Targets(gs, to)
  {
    if gs != [] {
      MoveAllCount(gs[1..], player, from, to);
      var r := MoveAll(gs, player, from, to);
      assert r[1..] == MoveAll(gs[1..], player, from, to);
      if gs[0].foursomeId == from {
        FilterOccurrences(gs[0].players, player.userId);
      }
    }
  }

  predicate DistinctIds(gs: seq<Group>) {
    forall i, j :: 0 <= i < j < |gs| ==> gs[i].foursomeId != gs[j].foursomeId
  }

  /** With distinct ids, the entries removed are those of the one source foursome. */
  lemma {:induction false} RemovedFromOne(gs: seq<Group>, k: nat, uid: string)
    requires DistinctIds(gs) && k < |gs|
    ensures Removed(gs, gs[k].foursomeId, uid) == Occurrences(gs[k].players, uid)
    ensures Targets(gs, gs[k].foursomeId) == 1
  {
    if k == 0 {
      NoneWithId(gs[1..], gs[0].foursomeId, uid);
    } else {
      RemovedFromOne(gs[1..], k - 1, uid);
    }
  }

  lemma {:induction false} NoneWithId(gs: seq<Group>, id: string, uid: string)
    requires forall i :: 0 <= i < |gs| ==> gs[i].foursomeId != id
    ensures Removed(gs, id, uid) == 0 && Targets(gs, id) == 0
  {
    if gs != [] {
      NoneWithId(gs[1..], id, uid);
    }
  }

  /**
   * With distinct foursome ids, a source in which the dragged user appears once and an
   * existing target, a drop keeps the number of players. No size cap is applied.
   */
  lemma DropPreservesPlayerCount(st: EditState, to: string, src: nat, dst: nat)
    requires st.drag.Some? && DistinctIds(st.groups)
    requires src < |st.groups| && st.groups[src].foursomeId == st.drag.value.fromFoursomeId
    requires dst < |st.groups| && st.groups[dst].foursomeId == to
    requires Occurrences(st.groups[src].players, st.drag.value.player.userId) == 1
    ensures PlayerCount(Drop(st, to).groups) == PlayerCount(st.groups)
  {
    var d := st.drag.value;
    if d.fromFoursomeId != to {
      MoveAllCount(st.groups, d.player, d.fromFoursomeId, to);
      RemovedFromOne(st.groups, src, d.player.userId);
      RemovedFromOne(st.groups, dst, d.player.userId);
    }
  }

  /** A full foursome can receive a fifth player. */
  lemma TargetMayExceedFour()
    ensures var p := Player("u1", "A");
      var st := EditState([Group("f1", [p]),
                           Group("f2", [Player("u2", "B"), Player("u3", "C"), Player("u4", "D"), Player("u5", "E")])],
                          Some(Drag(p, "f1")));
      |Drop(st, "f2").groups[1].players| == 5
  {
  }

  /** One entry of the save request. */
  datatype Update = Update(foursomeId: string, playerIds: seq<string>)

  function UserIds(ps: seq<Player>): (ids: seq<string>)
    ensures |ids| == |ps| && forall k :: 0 <= k < |ps| ==> ids[k] == ps[k].userId
  {
    seq(|ps|, k requires 0 <= k < |ps| => ps[k].userId)
  }

  /** `handleSave`'s payload: one entry per foursome, in order, with its players' userIds in order. */
  function SavePayload(gs: seq<Group>): (r: seq<Update>)
    ensures |r| == |gs|
    ensures forall i :: 0 <= i < |gs| ==> r[i].foursomeId == gs[i].foursomeId && r[i].playerIds == UserIds(gs[i].players)
  {
    seq(|gs|, i requires 0 <= i < |gs| => Update(gs[i].foursomeId, UserIds(gs[i].players)))
  }
}
