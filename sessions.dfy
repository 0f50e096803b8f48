/**
 * Sessions handler: creating a session for a playgroup, partitioning its roster
 * into foursomes, writing those in batches, and reading sessions back.
 */
module Sessions {
  import opened Wrappers
  import opened Seqs
  import opened Http
  import opened Store
  import opened Auth

  const GROUP_SIZE: nat := 4
  /** The store accepts at most this many items per batch write. */
  const BATCH_LIMIT: nat := 25
  const DEFAULT_COURSE: string := "Default Course"
  const SCHEDULED: string := "scheduled"

  function Min(a: int, b: int): int {
    if a <= b then a else b
  }

  /** The player lists of the foursomes, in order. */
  function Groups(fs: seq<Foursome>): (gs: seq<seq<string>>)
    ensures |gs| == |fs|
    ensures forall k :: 0 <= k < |fs| ==> gs[k] == fs[k].playerIds
  {
    seq(|fs|, k requires 0 <= k < |fs| => fs[k].playerIds)
  }

  /** The group starting at element 4c is the c-th. */
  lemma GroupIndex(c: nat)
    ensures (GROUP_SIZE * c) / GROUP_SIZE == c
  {
  }

  lemma GroupsAppend(fs: seq<Foursome>, f: Foursome)
    ensures Groups(fs + [f]) == Groups(fs) + [f.playerIds]
  {
  }

  /**
   * The random reordering of the roster. `picks` stands for the random source: at each
   * step the pick chooses the next player among those left (an out-of-range pick, or a
   * missing one, chooses the first).
   */
  function Shuffle(s: seq<string>, picks: seq<nat>): (r: seq<string>)
    ensures |r| == |s|
    ensures picks == [] ==> r == s
    decreases |s|
  {
    if s == [] then []
    else
      var k := if picks != [] && picks[0] < |s| then picks[0] else 0;
      var rest := s[..k] + s[k + 1..];
      assert k == 0 ==> rest == s[1..] && [s[0]] + rest == s;
      [s[k]] + Shuffle(rest, if picks == [] then [] else picks[1..])
  }

  /** Removing the element at k removes one occurrence of it. */
  lemma RemoveAt(s: seq<string>, k: nat)
    requires k < |s|
    ensures multiset(s[..k] + s[k + 1..]) == multiset(s) - multiset{s[k]}
  {
    assert s == s[..k] + [s[k]] + s[k + 1..];
  }

  /** Putting the element at k in front of a reordering of the others reorders the whole. */
  lemma PutBack(s: seq<string>, k: nat, u: seq<string>)
    requires k < |s| && multiset(u) == multiset(s[..k] + s[k + 1..])
    ensures multiset([s[k]] + u) == multiset(s)
  {
    RemoveAt(s, k);
    assert s[k] in multiset(s);
  }

  /** The shuffle only reorders: every player keeps their number of places. */
  lemma {:induction false} ShufflePermutes(s: seq<string>, picks: seq<nat>)
    ensures multiset(Shuffle(s, picks)) == multiset(s)
    decreases |s|
  {
    if s != [] {
      var k := if picks != [] && picks[0] < |s| then picks[0] else 0;
      var rest := s[..k] + s[k + 1..];
      var tail := if picks == [] then [] else picks[1..];
      assert Shuffle(s, picks) == [s[k]] + Shuffle(rest, tail);
      ShufflePermutes(rest, tail);
      PutBack(s, k, Shuffle(rest, tail));
    }
  }

  lemma ShuffleCons(s: seq<string>, k: nat, tail: seq<nat>)
    requires k < |s|
    ensures Shuffle(s, [k] + tail) == [s[k]] + Shuffle(s[..k] + s[k + 1..], tail)
  {
    assert ([k] + tail)[1..] == tail;
  }

  lemma Find(s: seq<string>, x: string) returns (k: nat)
    requires x in s
    ensures k < |s| && s[k] == x
  {
    k :| 0 <= k < |s| && s[k] == x;
  }

  /** Every ordering of the roster is one that some random source produces. */
  lemma {:induction false} ShuffleReachesEveryOrder(s: seq<string>, t: seq<string>)
    returns (picks: seq<nat>)
    requires multiset(t) == multiset(s)
    ensures Shuffle(s, picks) == t
    decreases |s|
  {
    if s == [] {
      assert |t| == |multiset(t)| == 0;
      picks := [];
    } else {
      assert |t| == |multiset(t)| == |s|;
      assert t[0] in multiset(s);
      var k := Find(s, t[0]);
      RemoveAt(s, k);
      assert t == [t[0]] + t[1..];
      assert multiset(t[1..]) == multiset(t) - multiset{t[0]};
      var tail := ShuffleReachesEveryOrder(s[..k] + s[k + 1..], t[1..]);
      picks := [k] + tail;
      ShuffleCons(s, k, tail);
    }
  }

  /** The roster of a session: the playgroup's leader followed by its members. */
  function Roster(pg: Playgroup): (r: seq<string>)
    ensures |r| == 1 + |pg.memberIds| && r[0] == pg.leaderId && r[1..] == pg.memberIds
  {
    [pg.leaderId] + pg.memberIds
  }

  /**
   * `generateFoursomes`: consecutive groups of four of the shuffled roster, numbered from 1.
   * `foursomeId(k)` is the identifier drawn for the k-th group.
   */
  method GenerateFoursomes(sessionId: string, playerIds: seq<string>, picks: seq<nat>,
                           foursomeId: nat -> string, createdAt: string)
    returns (foursomes: seq<Foursome>)
    ensures Groups(foursomes) == Chunks(Shuffle(playerIds, picks), GROUP_SIZE)
    ensures forall k :: 0 <= k < |foursomes| ==>
      && foursomes[k].foursomeId == foursomeId(k)
      && foursomes[k].sessionId == sessionId
      && foursomes[k].foursomeNumber == Some(k + 1)
      && foursomes[k].createdAt == createdAt
      && foursomes[k].updatedAt == None && foursomes[k].updatedBy == None
  {
    var shuffled := Shuffle(playerIds, picks);
    var n := |shuffled|;
    foursomes := [];
    var i := 0;
    while i < n
      invariant i == GROUP_SIZE * |foursomes|
      invariant Chunks(shuffled, GROUP_SIZE) == Groups(foursomes) + Chunks(shuffled[Min(i, n)..], GROUP_SIZE)
      invariant forall k :: 0 <= k < |foursomes| ==>
        foursomes[k] == Foursome(foursomeId(k), sessionId, foursomes[k].playerIds, Some(k + 1), createdAt, None, None)
    {
      var j := Min(i + GROUP_SIZE, n);
      var group := shuffled[i..j];
      GroupIndex(|foursomes|);
      var f := Foursome(foursomeId(i / GROUP_SIZE), sessionId, group, Some(i / GROUP_SIZE + 1), createdAt, None, None);
      ChunksAdvance(shuffled, GROUP_SIZE, i, Groups(foursomes));
      GroupsAppend(foursomes, f);
      foursomes := foursomes + [f];
      i := i + GROUP_SIZE;
    }
    assert shuffled[Min(i, n)..] == [];
  }

  /** What the partition promises: ceil(|players| / 4) groups of 1..4 players, all but
      the last of exactly 4, keeping exactly the players in order. */
  lemma PartitionFacts(shuffled: seq<string>, playerIds: seq<string>)
    requires multiset(shuffled) == multiset(playerIds)
    ensures var c := Chunks(shuffled, GROUP_SIZE);
      && |c| == (|playerIds| + GROUP_SIZE - 1) / GROUP_SIZE
      && (forall k :: 0 <= k < |c| ==> 1 <= |c[k]| <= GROUP_SIZE)
      && (forall k :: 0 <= k < |c| - 1 ==> |c[k]| == GROUP_SIZE)
      && Flatten(c) == shuffled
      && multiset(Flatten(c)) == multiset(playerIds)
  {
    ChunksFlatten(shuffled, GROUP_SIZE);
    ChunksCount(shuffled, GROUP_SIZE);
    ChunksSizes(shuffled, GROUP_SIZE);
    assert |shuffled| == |multiset(shuffled)| == |multiset(playerIds)| == |playerIds|;
  }

  /** The store after putting each foursome under its id, in order (a later put replaces an earlier one). */
  function PutAll(m: map<string, Foursome>, fs: seq<Foursome>): map<string, Foursome>
    decreases |fs|
  {
    if fs == [] then m else PutAll(m[fs[0].foursomeId := fs[0]], fs[1..])
  }

  /** Putting foursomes, each under its own id, keeps a table keyed by id. */
  lemma {:induction false} PutAllKeyed(m: map<string, Foursome>, fs: seq<Foursome>)
    requires FoursomesKeyed(m)
    ensures FoursomesKeyed(PutAll(m, fs))
    decreases |fs|
  {
    if fs != [] {
      PutAllKeyed(m[fs[0].foursomeId := fs[0]], fs[1..]);
    }
  }

  lemma {:induction false} PutAllAppend(m: map<string, Foursome>, a: seq<Foursome>, b: seq<Foursome>)
    ensures PutAll(m, a + b) == PutAll(PutAll(m, a), b)
    decreases |a|
  {
    if a == [] {
      assert a + b == b;
    } else {
      assert (a + b)[0] == a[0] && (a + b)[1..] == a[1..] + b;
      PutAllAppend(m[a[0].foursomeId := a[0]], a[1..], b);
    }
  }

  /** Putting the prefix up to i and then the slice from i to j puts the prefix up to j. */
  lemma PutAllPrefix(m: map<string, Foursome>, fs: seq<Foursome>, i: nat, j: nat)
    requires i <= j <= |fs|
    ensures PutAll(PutAll(m, fs[..i]), fs[i..j]) == PutAll(m, fs[..j])
  {
    PutAllAppend(m, fs[..i], fs[i..j]);
    assert fs[..i] + fs[i..j] == fs[..j];
  }

  predicate DistinctIds(fs: seq<Foursome>) {
    forall i, j :: 0 <= i < j < |fs| ==> fs[i].foursomeId != fs[j].foursomeId
  }

  /** With distinct ids every foursome is stored as generated and nothing else changes. */
  lemma {:induction false} PutAllStores(m: map<string, Foursome>, fs: seq<Foursome>)
    requires DistinctIds(fs)
    ensures forall k :: 0 <= k < |fs| ==> fs[k].foursomeId in PutAll(m, fs) && PutAll(m, fs)[fs[k].foursomeId] == fs[k]
    ensures forall id :: (forall k :: 0 <= k < |fs| ==> fs[k].foursomeId != id) ==>
      (id in PutAll(m, fs) <==> id in m) && (id in m ==> PutAll(m, fs)[id] == m[id])
    decreases |fs|
  {
    if fs != [] {
      var m' := m[fs[0].foursomeId := fs[0]];
      PutAllStores(m', fs[1..]);
      forall k | 1 <= k < |fs| ensures fs[1..][k - 1] == fs[k] {}
    }
  }

  /** The batch loop: consecutive batches of at most 25 puts, each applied to the foursome table. */
  method WriteFoursomes(db: Db, fs: seq<Foursome>) returns (batches: seq<seq<Foursome>>)
    requires db.Valid()
    modifies db`foursomes
    ensures batches == Chunks(fs, BATCH_LIMIT)
    ensures db.foursomes == PutAll(old(db.foursomes), fs)
    ensures db.Valid()
  {
    var n := |fs|;
    ghost var start := db.foursomes;
    batches := [];
    var i := 0;
    while i < n
      invariant 0 <= i
      invariant Chunks(fs, BATCH_LIMIT) == batches + Chunks(fs[Min(i, n)..], BATCH_LIMIT)
      invariant db.foursomes == PutAll(start, fs[..Min(i, n)])
    {
      var j := Min(i + BATCH_LIMIT, n);
      var batch := fs[i..j];
      ChunksStep(fs, i, BATCH_LIMIT);
      PutAllPrefix(start, fs, i, j);
      db.foursomes := PutAll(db.foursomes, batch);
      batches := batches + [batch];
      i := i + BATCH_LIMIT;
    }
    assert fs[Min(i, n)..] == [];
    assert fs[..Min(i, n)] == fs;
    PutAllKeyed(start, fs);
  }

  /** The body of POST /sessions once parsed. */
  datatype SessionBody = SessionBody(playgroupId: Option<string>, date: Option<string>,
                                     time: Option<string>, courseName: Option<string>)

  predicate HasRequired(b: SessionBody) {
    Present(b.playgroupId) && Present(b.date) && Present(b.time)
  }

  /**
   * The checks of POST /sessions before anything is written, and the session record
   * it creates. `body` is None when the request body is not valid JSON.
   */
  function NewSession(user: CurrentUser, body: Option<SessionBody>, playgroups: map<string, Playgroup>,
                      sessionId: string, createdAt: string): (r: Response<Session>)
    ensures r.Error? && r.status == 400 <==> body.None? || !HasRequired(body.value)
    ensures r.Error? && r.status == 404 <==>
      body.Some? && HasRequired(body.value) && body.value.playgroupId.value !in playgroups
    ensures r.Error? && r.status == 403 <==>
      && body.Some? && HasRequired(body.value) && body.value.playgroupId.value in playgroups
      && !IsLeaderOrAdmin(playgroups[body.value.playgroupId.value], user)
    ensures r.Ok? <==>
      && body.Some? && HasRequired(body.value) && body.value.playgroupId.value in playgroups
      && IsLeaderOrAdmin(playgroups[body.value.playgroupId.value], user)
    ensures r.Ok? ==> && r.status == 201
                      && r.body.sessionId == sessionId
                      && r.body.playgroupId == body.value.playgroupId.value
                      && r.body.playgroupId in playgroups
                      && IsLeaderOrAdmin(playgroups[r.body.playgroupId], user)
                      && r.body.date == body.value.date.value
                      && r.body.time == body.value.time.value
                      && r.body.status == SCHEDULED
                      && r.body.courseName == (if Present(body.value.courseName) then body.value.courseName.value else DEFAULT_COURSE)
                      && r.body.courseName != ""
                      && r.body.createdAt == createdAt && r.body.createdBy == user.userId
  {
    if body.None? then Error(400, "Invalid JSON in request body")
    else
      var b := body.value;
      if !HasRequired(b) then Error(400, "playgroupId, date, and time are required")
      else if b.playgroupId.value !in playgroups then Error(404, "Playgroup not found")
      else
        var pg := playgroups[b.playgroupId.value];
        if !IsLeaderOrAdmin(pg, user) then Error(403, "Forbidden: Only the playgroup leader can create sessions")
        else
          var course := if Present(b.courseName) then b.courseName.value else DEFAULT_COURSE;
          Ok(201, Session(sessionId, b.playgroupId.value, b.date.value, b.time.value, course, SCHEDULED, createdAt, user.userId))
  }

  datatype Created = Created(session: Session, foursomes: seq<Foursome>)

  /**
   * POST /sessions: validate, store the session, partition the roster (leader first, then
   * members) and write the foursomes in batches. `sessionId`, `foursomeId`, `createdAt`
   * and `picks` stand for the UUIDs, the clock and the random source.
   */
  method HandlePost(db: Db, user: CurrentUser, body: Option<SessionBody>, sessionId: string,
                    createdAt: string, foursomeId: nat -> string, picks: seq<nat>)
    returns (r: Response<Created>, batches: seq<seq<Foursome>>)
    requires db.Valid()
    modifies db
    ensures db.Valid()
    ensures var d := NewSession(user, body, old(db.playgroups), sessionId, createdAt);
      && (d.Error? ==> r == Error(d.status, d.message) && db.sessions == old(db.sessions)
                       && db.foursomes == old(db.foursomes) && batches == [])
      && (d.Ok? ==>
            var roster := Roster(old(db.playgroups)[d.body.playgroupId]);
            && r.Ok? && r.status == 201 && r.body.session == d.body
            && Groups(r.body.foursomes) == Chunks(Shuffle(roster, picks), GROUP_SIZE)
            && (forall k :: 0 <= k < |r.body.foursomes| ==>
                  r.body.foursomes[k].sessionId == sessionId && r.body.foursomes[k].foursomeNumber == Some(k + 1))
            && db.sessions == old(db.sessions)[sessionId := d.body]
            && db.foursomes == PutAll(old(db.foursomes), r.body.foursomes)
            && batches == Chunks(r.body.foursomes, BATCH_LIMIT))
    ensures db.users == old(db.users) && db.playgroups == old(db.playgroups) && db.scores == old(db.scores)
  {
    var d := NewSession(user, body, db.playgroups, sessionId, createdAt);
    if d.Error? {
      return Error(d.status, d.message), [];
    }
    var session := d.body;
    db.sessions := db.sessions[sessionId := session];
    var roster := Roster(db.playgroups[session.playgroupId]);
    var foursomes := GenerateFoursomes(sessionId, roster, picks, foursomeId, createdAt);
    batches := [];
    if |foursomes| > 0 {
      batches := WriteFoursomes(db, foursomes);
    }
    r := Ok(201, Created(session, foursomes));
  }

  /** GET /sessions query parameters. */
  datatype SessionQuery = SessionQuery(sessionId: Option<string>, playgroupId: Option<string>)

  datatype SessionsBody = OneSession(session: Session) | SessionList(sessions: set<Session>)

  /**
   * GET /sessions. By sessionId: the session, for a member, the leader or an Admin of its
   * playgroup. Otherwise by playgroupId: that playgroup's sessions, with no membership check.
   */
  function GetSessions(user: CurrentUser, q: SessionQuery, sessions: map<string, Session>,
                       playgroups: map<string, Playgroup>): (r: Response<SessionsBody>)
    ensures Present(q.sessionId) ==>
      var sid := q.sessionId.value;
      && (sid !in sessions ==> r == Error(404, "Session not found"))
      && (sid in sessions && sessions[sid].playgroupId !in playgroups ==> r == Error(404, "Playgroup not found"))
      && (sid in sessions && sessions[sid].playgroupId in playgroups ==>
            && (r.Ok? <==> IsMemberLeaderOrAdmin(playgroups[sessions[sid].playgroupId], user))
            && (r.Ok? ==> r.status == 200 && r.body == OneSession(sessions[sid]))
            && (r.Error? ==> r.status == 403))
    ensures !Present(q.sessionId) && Present(q.playgroupId) ==>
      && r.Ok? && r.status == 200 && r.body.SessionList?
      && forall s :: s in r.body.sessions <==> s in sessions.Values && s.playgroupId == q.playgroupId.value
    ensures !Present(q.sessionId) && !Present(q.playgroupId) ==> r.Error? && r.status == 400
  {
    if Present(q.sessionId) then
      var sid := q.sessionId.value;
      if sid !in sessions then Error(404, "Session not found")
      else if sessions[sid].playgroupId !in playgroups then Error(404, "Playgroup not found")
      else if !IsMemberLeaderOrAdmin(playgroups[sessions[sid].playgroupId], user) then
        Error(403, "Forbidden: You are not a member of this playgroup")
      else Ok(200, OneSession(sessions[sid]))
    else if Present(q.playgroupId) then
      Ok(200, SessionList(set s | s in sessions.Values && s.playgroupId == q.playgroupId.value))
    else Error(400, "sessionId or playgroupId query parameter required")
  }

  /** A session roster always yields at least one foursome, and its foursomes hold every
      roster entry exactly as often as the roster does. */
  lemma RosterPartition(pg: Playgroup, picks: seq<nat>)
    ensures var c := Chunks(Shuffle(Roster(pg), picks), GROUP_SIZE);
      && |c| == (|pg.memberIds| + GROUP_SIZE) / GROUP_SIZE
      && |c| >= 1
      && multiset(Flatten(c)) == multiset(Roster(pg))
  {
    ShufflePermutes(Roster(pg), picks);
    PartitionFacts(Shuffle(Roster(pg), picks), Roster(pg));
  }
}
