/**
 * Scores handler: the score-submission validation chain, the computed total, the
 * score table keyed by (foursomeId, playerId), and the query-parameter precedence of reads.
 */
module Scores {
  import opened Wrappers
  import opened Http
  import opened Store
  import opened Auth

  const HOLE_COUNT: nat := 18

  /** `calculateTotalScore`: the holes added from the first to the last. */
  function Sum(holes: seq<nat>): nat
    decreases |holes|
  {
    if holes == [] then 0 else Sum(holes[..|holes| - 1]) + holes[|holes| - 1]
  }

  /** Splitting off the first hole instead of the last gives the same total. */
  lemma {:induction false} SumFromFirst(holes: seq<nat>)
    requires holes != []
    ensures Sum(holes) == holes[0] + Sum(holes[1..])
    decreases |holes|
  {
    var init := holes[..|holes| - 1];
    if init != [] {
      SumFromFirst(init);
      assert init[1..] == holes[1..][..|holes| - 2];
    }
  }

  lemma {:induction false} SumAppend(a: seq<nat>, b: seq<nat>)
    ensures Sum(a + b) == Sum(a) + Sum(b)
    decreases |b|
  {
    if b == [] {
      assert a + b == a;
    } else {
      assert (a + b)[..|a + b| - 1] == a + b[..|b| - 1];
      SumAppend(a, b[..|b| - 1]);
    }
  }

  /** Every hole is bounded by the total, and the total is zero only when every hole is. */
  lemma {:induction false} SumBounds(holes: seq<nat>)
    ensures forall i :: 0 <= i < |holes| ==> holes[i] <= Sum(holes)
    ensures Sum(holes) == 0 <==> forall i :: 0 <= i < |holes| ==> holes[i] == 0
    decreases |holes|
  {
    if holes != [] {
      var init := holes[..|holes| - 1];
      SumBounds(init);
      assert Sum(holes) == Sum(init) + holes[|holes| - 1];
      assert forall i :: 0 <= i < |init| ==> holes[i] == init[i];
    }
  }

  /** The total of n holes of equal score v. */
  lemma {:induction false} SumConstant(n: nat, v: nat)
    ensures Sum(seq(n, _ => v)) == n * v
  {
    if n > 0 {
      assert seq(n, _ => v)[..n - 1] == seq(n - 1, _ => v);
      SumConstant(n - 1, v);
    }
  }

  /** `pairs` repetitions of the holes (a, b). */
  function Alternating(a: nat, b: nat, pairs: nat): (r: seq<nat>)
    ensures |r| == 2 * pairs
  {
    if pairs == 0 then [] else Alternating(a, b, pairs - 1) + [a, b]
  }

  lemma {:induction false} SumAlternating(a: nat, b: nat, pairs: nat)
    ensures Sum(Alternating(a, b, pairs)) == pairs * (a + b)
  {
    if pairs > 0 {
      SumAlternating(a, b, pairs - 1);
      SumAppend(Alternating(a, b, pairs - 1), [a, b]);
      assert [a][..0] == [];
      assert Sum([a]) == a;
      assert [a, b][..1] == [a];
      assert Sum([a, b]) == a + b;
    }
  }

  /** The fixture cards: eighteen 4s total 72, nine (3, 4) pairs total 63, eighteen 5s total 90. */
  lemma FixtureTotals()
    ensures Sum(seq(HOLE_COUNT, _ => 4)) == 72
    ensures |Alternating(3, 4, 9)| == HOLE_COUNT && Sum(Alternating(3, 4, 9)) == 63
    ensures Sum(seq(HOLE_COUNT, _ => 5)) == 90
  {
    SumConstant(HOLE_COUNT, 4);
    SumAlternating(3, 4, 9);
    SumConstant(HOLE_COUNT, 5);
  }

  /** The body of PUT /scores once parsed; an absent field is None. */
  datatype ScoreBody = ScoreBody(foursomeId: Option<string>, playerId: Option<string>, holes: Option<Json>)

  predicate HasRequired(b: ScoreBody) {
    Present(b.foursomeId) && Present(b.playerId) && b.holes.Some? && Truthy(b.holes.value)
  }

  predicate IsEighteenArray(j: Json) {
    j.JArr? && |j.items| == HOLE_COUNT
  }

  /** `typeof score === 'number' && score >= 0`. */
  predicate IsHoleScore(j: Json) {
    j.JNum? && j.n >= 0
  }

  predicate AllHoleScores(js: seq<Json>) {
    forall i :: 0 <= i < |js| ==> IsHoleScore(js[i])
  }

  function HoleValues(js: seq<Json>): (r: seq<nat>)
    requires AllHoleScores(js)
    ensures |r| == |js| && forall i :: 0 <= i < |js| ==> r[i] == js[i].n
  {
    seq(|js|, i requires 0 <= i < |js| => js[i].n as nat)
  }

  /** Scores may be entered by a player of the foursome, by any GroupLeader, or by an Admin. */
  predicate MayEnterScores(f: Foursome, u: CurrentUser) {
    u.userId in f.playerIds || u.role == GROUP_LEADER || u.role == ADMIN
  }

  /**
   * PUT /scores up to the write: the checks in their order, each failure deciding the
   * answer, and on success the record to store. `body` is None when the body is not JSON.
   */
  function ScoreDecision(user: CurrentUser, body: Option<ScoreBody>, foursomes: map<string, Foursome>,
                         updatedAt: string): (r: Response<Score>)
    ensures body.None? ==> r == Error(400, "Invalid JSON in request body")
    ensures body.Some? ==>
      var b := body.value;
      && (!HasRequired(b) ==> r == Error(400, "foursomeId, playerId, and holes are required"))
      && (HasRequired(b) && !IsEighteenArray(b.holes.value) ==>
            r == Error(400, "holes must be an array of exactly 18 scores"))
      && (HasRequired(b) && IsEighteenArray(b.holes.value) && !AllHoleScores(b.holes.value.items) ==>
            r == Error(400, "All hole scores must be non-negative numbers"))
      && (HasRequired(b) && IsEighteenArray(b.holes.value) && AllHoleScores(b.holes.value.items) ==>
            && (b.foursomeId.value !in foursomes ==> r == Error(404, "Foursome not found"))
            && (b.foursomeId.value in foursomes ==>
                  var f := foursomes[b.foursomeId.value];
                  && (!MayEnterScores(f, user) ==> r.Error? && r.status == 403)
                  && (MayEnterScores(f, user) && b.playerId.value !in f.playerIds ==>
                        r == Error(400, "Player is not in this foursome"))))
    ensures r.Ok? <==>
      && body.Some? && HasRequired(body.value) && IsEighteenArray(body.value.holes.value)
      && AllHoleScores(body.value.holes.value.items) && body.value.foursomeId.value in foursomes
      && MayEnterScores(foursomes[body.value.foursomeId.value], user)
      && body.value.playerId.value in foursomes[body.value.foursomeId.value].playerIds
    ensures r.Ok? ==>
      && body.Some? && HasRequired(body.value)
      && r.status == 200
      && r.body.foursomeId == body.value.foursomeId.value && r.body.foursomeId in foursomes
      && r.body.playerId == body.value.playerId.value
      && r.body.playerId in foursomes[r.body.foursomeId].playerIds
      && MayEnterScores(foursomes[r.body.foursomeId], user)
      && r.body.sessionId == foursomes[r.body.foursomeId].sessionId
      && |r.body.holes| == HOLE_COUNT
      && (forall i :: 0 <= i < HOLE_COUNT ==> JNum(r.body.holes[i]) == body.value.holes.value.items[i])
      && r.body.totalScore == Sum(r.body.holes)
      && r.body.updatedAt == updatedAt && r.body.updatedBy == user.userId
  {
    if body.None? then Error(400, "Invalid JSON in request body")
    else
      var b := body.value;
      if !HasRequired(b) then Error(400, "foursomeId, playerId, and holes are required")
      else if !IsEighteenArray(b.holes.value) then Error(400, "holes must be an array of exactly 18 scores")
      else if !AllHoleScores(b.holes.value.items) then Error(400, "All hole scores must be non-negative numbers")
      else if b.foursomeId.value !in foursomes then Error(404, "Foursome not found")
      else
        var f := foursomes[b.foursomeId.value];
        if !MayEnterScores(f, user) then Error(403, "Forbidden: You must be in the foursome to enter scores")
        else if b.playerId.value !in f.playerIds then Error(400, "Player is not in this foursome")
        else
          var holes := HoleValues(b.holes.value.items);
          Ok(200, Score(b.foursomeId.value, b.playerId.value, f.sessionId, holes, Sum(holes), updatedAt, user.userId))
  }

  /** Every stored score has 18 holes, the total of its holes, and sits under its own key. */
  predicate ScoresConsistent(scores: map<(string, string), Score>) {
    forall k :: k in scores ==>
      && scores[k].foursomeId == k.0 && scores[k].playerId == k.1
      && |scores[k].holes| == HOLE_COUNT && scores[k].totalScore == Sum(scores[k].holes)
  }

  /**
   * PUT /scores: on success the record replaces whatever was stored for
   * (foursomeId, playerId), last write wins; on any error nothing is written.
   */
  method HandlePut(db: Db, user: CurrentUser, body: Option<ScoreBody>, updatedAt: string)
    returns (r: Response<Score>)
    requires db.Valid()
    modifies db`scores
    ensures db.Valid()
    ensures r == ScoreDecision(user, body, old(db.foursomes), updatedAt)
    ensures r.Error? ==> db.scores == old(db.scores)
    ensures r.Ok? ==> db.scores == old(db.scores)[(r.body.foursomeId, r.body.playerId) := r.body]
    ensures ScoresConsistent(old(db.scores)) ==> ScoresConsistent(db.scores)
  {
    r := ScoreDecision(user, body, db.foursomes, updatedAt);
    if r.Ok? {
      db.scores := db.scores[(r.body.foursomeId, r.body.playerId) := r.body];
    }
  }

  /** GET /scores query parameters. */
  datatype ScoreQuery = ScoreQuery(foursomeId: Option<string>, sessionId: Option<string>, playerId: Option<string>)

  /** Which attribute the read filters on: foursomeId, else sessionId, else playerId. */
  datatype ScoreFilter = ByFoursome(foursomeId: string) | BySession(sessionId: string) | ByPlayer(playerId: string)

  function SelectFilter(q: ScoreQuery): (r: Option<ScoreFilter>)
    ensures Present(q.foursomeId) ==> r == Some(ByFoursome(q.foursomeId.value))
    ensures !Present(q.foursomeId) && Present(q.sessionId) ==> r == Some(BySession(q.sessionId.value))
    ensures !Present(q.foursomeId) && !Present(q.sessionId) && Present(q.playerId) ==> r == Some(ByPlayer(q.playerId.value))
    ensures r.None? <==> !Present(q.foursomeId) && !Present(q.sessionId) && !Present(q.playerId)
  {
    if Present(q.foursomeId) then Some(ByFoursome(q.foursomeId.value))
    else if Present(q.sessionId) then Some(BySession(q.sessionId.value))
    else if Present(q.playerId) then Some(ByPlayer(q.playerId.value))
    else None
  }

  predicate Matches(f: ScoreFilter, s: Score) {
    match f
    case ByFoursome(id) => s.foursomeId == id
    case BySession(id) => s.sessionId == id
    case ByPlayer(id) => s.playerId == id
  }

  /** GET /scores: no access check; the stored scores matching the chosen filter, or 400. */
  function GetScores(q: ScoreQuery, scores: map<(string, string), Score>): (r: Response<set<Score>>)
    ensures r.Error? <==> SelectFilter(q).None?
    ensures r.Error? ==> r.status == 400
    ensures r.Ok? ==> r.status == 200 && forall s :: s in r.body <==> s in scores.Values && Matches(SelectFilter(q).value, s)
  {
    match SelectFilter(q)
    case None => Error(400, "foursomeId, sessionId, or playerId query parameter required")
    case Some(f) => Ok(200, set s | s in scores.Values && Matches(f, s))
  }

  /** A foursome's scores hold at most one record per player. */
  lemma {:induction false} OneScorePerPlayer(q: ScoreQuery, scores: map<(string, string), Score>)
    requires ScoresKeyed(scores)
    requires Present(q.foursomeId)
    ensures var r := GetScores(q, scores);
      r.Ok? && forall a, b :: a in r.body && b in r.body && a.playerId == b.playerId ==> a == b
  {
    var r := GetScores(q, scores);
    forall a, b | a in r.body && b in r.body && a.playerId == b.playerId
      ensures a == b
    {
      var ka :| ka in scores && scores[ka] == a;
      var kb :| kb in scores && scores[kb] == b;
      assert ka == kb;
    }
  }
}
