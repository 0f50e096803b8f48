/**
 * The session summary page: the leaderboard of submitted scorecards ordered by total,
 * its low score, and the per-foursome view of the scorecards.
 */
module SessionSummary {
  import opened Wrappers
  import opened Seqs
  import opened Cards

  const SUBMITTED: string := "submitted"

  /** The fields of a scorecard the page reads. */
  datatype Scorecard = Scorecard(userId: string, status: string, scores: seq<Entry>)

  /** A leaderboard row: the scorecard with its total attached. */
  datatype Row = Row(card: Scorecard, total: int)

  predicate IsSubmitted(c: Scorecard) {
    c.status == SUBMITTED
  }

  function WithTotals(cs: seq<Scorecard>): (rs: seq<Row>)
    ensures |rs| == |cs| && forall i :: 0 <= i < |cs| ==> rs[i] == Row(cs[i], Total(cs[i].scores))
  {
    seq(|cs|, i requires 0 <= i < |cs| => Row(cs[i], Total(cs[i].scores)))
  }

  function CardsOf(rs: seq<Row>): (cs: seq<Scorecard>)
    ensures |cs| == |rs| && forall i :: 0 <= i < |rs| ==> cs[i] == rs[i].card
  {
    seq(|rs|, i requires 0 <= i < |rs| => rs[i].card)
  }

  predicate SortedByTotal(rs: seq<Row>) {
    forall i, j :: 0 <= i < j < |rs| ==> rs[i].total <= rs[j].total
  }

  predicate SortedByCardTotal(cs: seq<Scorecard>) {
    forall i, j :: 0 <= i < j < |cs| ==> Total(cs[i].scores) <= Total(cs[j].scores)
  }

  /** Inserts a card before the first card whose total is not smaller. */
  function Insert(x: Scorecard, cs: seq<Scorecard>): seq<Scorecard>
    decreases |cs|
  {
    if cs == [] then [x]
    else if Total(x.scores) <= Total(cs[0].scores) then [x] + cs
    else [cs[0]] + Insert(x, cs[1..])
  }

  lemma {:induction false} InsertPermutes(x: Scorecard, cs: seq<Scorecard>)
    ensures multiset(Insert(x, cs)) == multiset(cs) + multiset{x}
    decreases |cs|
  {
    if cs != [] && Total(x.scores) > Total(cs[0].scores) {
      InsertPermutes(x, cs[1..]);
      assert cs == [cs[0]] + cs[1..];
    }
  }

  lemma {:induction false} InsertSorted(x: Scorecard, cs: seq<Scorecard>)
    requires SortedByCardTotal(cs)
    ensures SortedByCardTotal(Insert(x, cs))
    decreases |cs|
  {
    if cs != [] && Total(x.scores) > Total(cs[0].scores) {
      InsertSorted(x, cs[1..]);
      InsertPermutes(x, cs[1..]);
      var rest := Insert(x, cs[1..]);
      forall k | 0 <= k < |rest|
        ensures Total(cs[0].scores) <= Total(rest[k].scores)
      {
        assert rest[k] in multiset(rest);
        assert rest[k] == x || rest[k] in multiset(cs[1..]);
      }
    }
  }

  /** The ordering by total: stable insertion, like the array sort it models. */
  function SortByTotal(cs: seq<Scorecard>): (r: seq<Scorecard>)
    ensures SortedByCardTotal(r)
    ensures multiset(r) == multiset(cs)
    decreases |cs|
  {
    if cs == [] then []
    else
      var rest := SortByTotal(cs[1..]);
      assert cs == [cs[0]] + cs[1..];
      InsertPermutes(cs[0], rest);
      InsertSorted(cs[0], rest);
      Insert(cs[0], rest)
  }

  /**
   * `getSortedLeaderboard`: the submitted scorecards, each with its total, by nondecreasing
   * total. (Attaching the totals before or after ordering gives the same rows.)
   */
  function Leaderboard(cards: seq<Scorecard>): (r: seq<Row>)
    ensures SortedByTotal(r)
    ensures multiset(CardsOf(r)) == multiset(Filter(cards, IsSubmitted))
    ensures forall i :: 0 <= i < |r| ==> r[i].total == Total(r[i].card.scores)
  {
    var sorted := SortByTotal(Filter(cards, IsSubmitted));
    var r := WithTotals(sorted);
    assert CardsOf(r) == sorted;
    r
  }

  /** The leaderboard holds exactly the submitted scorecards. */
  lemma LeaderboardMembers(cards: seq<Scorecard>)
    ensures forall c :: c in CardsOf(Leaderboard(cards)) <==> c in cards && IsSubmitted(c)
  {
    var cs := CardsOf(Leaderboard(cards));
    var f := Filter(cards, IsSubmitted);
    forall c
      ensures c in cs <==> c in cards && IsSubmitted(c)
    {
      assert c in cs <==> c in multiset(cs);
      assert c in f <==> c in multiset(f);
    }
  }

  /** The "Low Score" figure, leaderboard[0].total, is the least total among the submitted cards. */
  lemma LowScoreIsMinimum(cards: seq<Scorecard>)
    requires Leaderboard(cards) != []
    ensures var lb := Leaderboard(cards);
      && (forall c :: c in cards && IsSubmitted(c) ==> lb[0].total <= Total(c.scores))
      && exists c :: c in cards && IsSubmitted(c) && lb[0].total == Total(c.scores)
  {
    var lb := Leaderboard(cards);
    LeaderboardMembers(cards);
    forall c | c in cards && IsSubmitted(c)
      ensures lb[0].total <= Total(c.scores)
    {
      assert c in CardsOf(lb);
      var k :| 0 <= k < |lb| && CardsOf(lb)[k] == c;
    }
    assert CardsOf(lb)[0] in CardsOf(lb);
  }

  /** The player ids of one foursome as the page holds them; `None` when the foursome has no player list. */
  function ForFoursome(cards: seq<Scorecard>, players: Option<seq<string>>): (r: seq<Scorecard>)
    ensures IsSubsequence(r, cards)
    ensures forall c :: c in r <==> c in cards && IsSubmitted(c) && players.Some? && c.userId in players.value
  {
    var keep := (c: Scorecard) => players.Some? && c.userId in players.value && IsSubmitted(c);
    FilterIsSubsequence(cards, keep);
    Filter(cards, keep)
  }
}
