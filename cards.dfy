/**
 * The 18-slot score array the scorecard pages work on, and its sums. A slot holds what
 * the page stores in it: null, the empty string, a parsed integer, or NaN (a failed parse).
 */
module Cards {
  const HOLE_COUNT: nat := 18
  const NINE: nat := 9

  datatype Entry = Null | Blank | Num(n: int) | NaN

  /** `score || 0`: null, '', 0 and NaN all count as 0. */
  function Value(e: Entry): (v: int)
    ensures e.Num? ==> v == e.n
    ensures !e.Num? ==> v == 0
  {
    if e.Num? then e.n else 0
  }

  /** The sum of the slots, each read through `Value` (integer addition, so the fold order is immaterial). */
  function Total(s: seq<Entry>): int
    decreases |s|
  {
    if s == [] then 0 else Value(s[0]) + Total(s[1..])
  }

  lemma {:induction false} TotalAppend(a: seq<Entry>, b: seq<Entry>)
    ensures Total(a + b) == Total(a) + Total(b)
    decreases |a|
  {
    if a == [] {
      assert a + b == b;
    } else {
      assert (a + b)[1..] == a[1..] + b;
      TotalAppend(a[1..], b);
    }
  }

  /** `reduce` adds from the left: the total is the total of all but the last slot plus the last. */
  lemma TotalFromLast(s: seq<Entry>)
    requires s != []
    ensures Total(s) == Total(s[..|s| - 1]) + Value(s[|s| - 1])
  {
    assert s == s[..|s| - 1] + [s[|s| - 1]];
    TotalAppend(s[..|s| - 1], [s[|s| - 1]]);
  }

  /** Changing one slot changes the total by the difference of the two values. */
  lemma {:induction false} TotalAfterChange(s: seq<Entry>, i: nat, e: Entry)
    requires i < |s|
    ensures Total(s[i := e]) == Total(s) - Value(s[i]) + Value(e)
  {
    assert s == s[..i] + [s[i]] + s[i + 1..];
    assert s[i := e] == s[..i] + [e] + s[i + 1..];
    TotalAppend(s[..i] + [s[i]], s[i + 1..]);
    TotalAppend(s[..i] + [e], s[i + 1..]);
    TotalAppend(s[..i], [s[i]]);
    TotalAppend(s[..i], [e]);
  }

  /** A card of empty slots totals 0. */
  lemma {:induction false} EmptyCardTotal(n: nat)
    ensures Total(seq(n, _ => Null)) == 0
  {
    if n > 0 {
      assert seq(n, _ => Null)[1..] == seq(n - 1, _ => Null);
      EmptyCardTotal(n - 1);
    }
  }

  function Min(a: int, b: int): int {
    if a <= b then a else b
  }

  /** `s.slice(start, end)` for non-negative bounds: both are clamped to the length. */
  function Slice(s: seq<Entry>, start: nat, end: nat): (r: seq<Entry>)
    ensures start <= end <= |s| ==> r == s[start..end]
    ensures |s| <= start ==> r == []
    ensures start <= end && start <= |s| ==> r == s[start..Min(end, |s|)]
    ensures end <= start ==> r == []
  {
    var a := Min(start, |s|);
    var b := Min(end, |s|);
    if a <= b then s[a..b] else []
  }

  /**
   * `calculateNineTotal(start)`: the total of the nine slots from `start`, which is the
   * difference of two running totals of the card; nothing past the end counts.
   */
  function NineTotal(s: seq<Entry>, start: nat): (t: int)
    ensures |s| <= start ==> t == 0
    ensures t == Total(s[..Min(start + NINE, |s|)]) - Total(s[..Min(start, |s|)])
  {
    var a := Min(start, |s|);
    var b := Min(start + NINE, |s|);
    assert s[..b] == s[..a] + s[a..b];
    TotalAppend(s[..a], s[a..b]);
    Total(Slice(s, start, start + NINE))
  }

  /** Out plus In is the card total, for any card of at most 18 slots. */
  lemma FrontPlusBack(s: seq<Entry>)
    requires |s| <= HOLE_COUNT
    ensures NineTotal(s, 0) + NineTotal(s, NINE) == Total(s)
  {
    if |s| <= NINE {
      assert Slice(s, 0, NINE) == s;
      assert Slice(s, NINE, 2 * NINE) == [];
    } else {
      assert Slice(s, 0, NINE) == s[..NINE];
      assert Slice(s, NINE, 2 * NINE) == s[NINE..];
      assert s == s[..NINE] + s[NINE..];
      TotalAppend(s[..NINE], s[NINE..]);
    }
  }

  /** A slot the final submission treats as not filled in: `s === null || s === ''`. */
  predicate IsEmptySlot(e: Entry) {
    e == Null || e == Blank
  }

  predicate HasEmptySlot(s: seq<Entry>) {
    exists i :: 0 <= i < |s| && IsEmptySlot(s[i])
  }
}
