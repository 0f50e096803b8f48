/**
 * List operations shared by the backend and the pages: `Array.prototype.filter`,
 * concatenation of a list of lists, and slicing a list into consecutive chunks
 * (`for (i = 0; i < n; i += size) slice(i, i + size)`).
 */
module Seqs {

  /** `r` keeps some of the elements of `s`, in their original order. */
  predicate IsSubsequence<T(==)>(r: seq<T>, s: seq<T>)
    decreases |s|
  {
    || r == []
    || (s != [] && ((r[0] == s[0] && IsSubsequence(r[1..], s[1..])) || IsSubsequence(r, s[1..])))
  }

  /** `s.filter(p)`. */
  function Filter<T(!new)>(s: seq<T>, p: T -> bool): (r: seq<T>)
    ensures |r| <= |s|
    ensures forall x :: x in r <==> x in s && p(x)
  {
    if s == [] then []
    else
      var rest := Filter(s[1..], p);
      assert s == [s[0]] + s[1..];
      if p(s[0]) then [s[0]] + rest else rest
  }

  /** Filtering keeps every copy of an element that passes and none of one that fails. */
  lemma {:induction false} FilterMultiset<T(!new)>(s: seq<T>, p: T -> bool)
    ensures forall x :: multiset(Filter(s, p))[x] == if p(x) then multiset(s)[x] else 0
  {
    if s != [] {
      FilterMultiset(s[1..], p);
      assert s == [s[0]] + s[1..];
    }
  }

  lemma {:induction false} FilterIsSubsequence<T(!new)>(s: seq<T>, p: T -> bool)
    ensures IsSubsequence(Filter(s, p), s)
  {
    if s != [] {
      FilterIsSubsequence(s[1..], p);
    }
  }

  /** Filtering by two predicates one after the other keeps the same elements in either order. */
  lemma {:induction false} FilterCommutes<T(!new)>(s: seq<T>, p: T -> bool, q: T -> bool)
    ensures Filter(Filter(s, p), q) == Filter(Filter(s, q), p)
  {
    if s != [] {
      FilterCommutes(s[1..], p, q);
    }
  }

  /** Nothing is left after filtering exactly when no element passes. */
  lemma FilterEmpty<T(!new)>(s: seq<T>, p: T -> bool)
    ensures Filter(s, p) == [] <==> forall x :: x in s ==> !p(x)
  {
    var r := Filter(s, p);
    if r != [] {
      assert r[0] in r;
    }
  }

  /** Filtering a list that starts with x: x if it passes, then the filtered rest. */
  lemma FilterCons<T(!new)>(x: T, s: seq<T>, p: T -> bool)
    ensures Filter([x] + s, p) == (if p(x) then [x] else []) + Filter(s, p)
  {
    assert ([x] + s)[0] == x && ([x] + s)[1..] == s;
  }

  /** After the kept elements `done` of a prefix, filtering from i keeps s[i] if it passes, then the rest. */
  lemma FilterAdvance<T(!new)>(s: seq<T>, i: nat, p: T -> bool, done: seq<T>)
    requires i < |s|
    ensures done + Filter(s[i..], p) == (if p(s[i]) then done + [s[i]] else done) + Filter(s[i + 1..], p)
  {
    assert s[i..] == [s[i]] + s[i + 1..];
    FilterCons(s[i], s[i + 1..], p);
    var rest := Filter(s[i + 1..], p);
    assert done + ([s[i]] + rest) == (done + [s[i]]) + rest;
  }

  /** The concatenation of a list of lists. */
  function Flatten<T>(ss: seq<seq<T>>): seq<T> {
    if ss == [] then [] else ss[0] + Flatten(ss[1..])
  }

  lemma {:induction false} FlattenAppend<T>(a: seq<seq<T>>, b: seq<seq<T>>)
    ensures Flatten(a + b) == Flatten(a) + Flatten(b)
  {
    if a != [] {
      assert (a + b)[0] == a[0] && (a + b)[1..] == a[1..] + b;
      FlattenAppend(a[1..], b);
      calc {
        Flatten(a + b);
        (a + b)[0] + Flatten((a + b)[1..]);
        a[0] + Flatten(a[1..] + b);
        a[0] + (Flatten(a[1..]) + Flatten(b));
        (a[0] + Flatten(a[1..])) + Flatten(b);
      }
    } else {
      assert a + b == b;
    }
  }

  /** Consecutive slices of at most `size` elements, in order. */
  function Chunks<T>(s: seq<T>, size: nat): seq<seq<T>>
    requires size > 0
    decreases |s|
  {
    if s == [] then []
    else if |s| <= size then [s]
    else [s[..size]] + Chunks(s[size..], size)
  }

  /** The chunks of a suffix: the slice from i of up to `size` elements, then the chunks after it. */
  lemma ChunksStep<T>(s: seq<T>, i: nat, size: nat)
    requires size > 0 && i < |s|
    ensures var j := if i + size <= |s| then i + size else |s|;
      Chunks(s[i..], size) == [s[i..j]] + Chunks(s[j..], size)
  {
    var j := if i + size <= |s| then i + size else |s|;
    var rest := s[i..];
    if |rest| > size {
      assert rest[..size] == s[i..j];
      assert rest[size..] == s[j..];
    } else {
      assert rest == s[i..j];
      assert s[j..] == [];
    }
  }

  /** After the chunks `done` of a prefix, the chunks from i are the slice at i and those after it. */
  lemma ChunksAdvance<T>(s: seq<T>, size: nat, i: nat, done: seq<seq<T>>)
    requires size > 0 && i < |s|
    ensures var j := if i + size <= |s| then i + size else |s|;
      done + Chunks(s[i..], size) == (done + [s[i..j]]) + Chunks(s[j..], size)
  {
    var j := if i + size <= |s| then i + size else |s|;
    ChunksStep(s, i, size);
    assert done + ([s[i..j]] + Chunks(s[j..], size)) == (done + [s[i..j]]) + Chunks(s[j..], size);
  }

  /** The chunks together are exactly the original list: nothing lost, nothing repeated, order kept. */
  lemma {:induction false} ChunksFlatten<T>(s: seq<T>, size: nat)
    requires size > 0
    ensures Flatten(Chunks(s, size)) == s
    decreases |s|
  {
    if |s| > size {
      ChunksFlatten(s[size..], size);
      assert s == s[..size] + s[size..];
    }
  }

  /** There are ceil(|s| / size) chunks: none for the empty list, otherwise the least
      count c with |s| <= c * size. */
  lemma {:induction false} ChunksCount<T>(s: seq<T>, size: nat)
    requires size > 0
    ensures s == [] <==> |Chunks(s, size)| == 0
    ensures s != [] ==> |s| <= |Chunks(s, size)| * size < |s| + size
    decreases |s|
  {
    if |s| > size {
      ChunksCount(s[size..], size);
      var c := |Chunks(s[size..], size)|;
      assert |Chunks(s, size)| == c + 1;
      assert (c + 1) * size == c * size + size;
    }
  }

  /** Every chunk holds 1..size elements, and every chunk but the last holds exactly size. */
  lemma {:induction false} ChunksSizes<T>(s: seq<T>, size: nat)
    requires size > 0
    ensures forall k :: 0 <= k < |Chunks(s, size)| ==> 1 <= |Chunks(s, size)[k]| <= size
    ensures forall k :: 0 <= k < |Chunks(s, size)| - 1 ==> |Chunks(s, size)[k]| == size
    decreases |s|
  {
    if |s| > size {
      ChunksSizes(s[size..], size);
      var c := Chunks(s, size);
      assert c == [s[..size]] + Chunks(s[size..], size);
      forall k | 1 <= k < |c| ensures c[k] == Chunks(s[size..], size)[k - 1] {}
    }
  }
}

/** Checkbox-style selection lists: toggling an id removes it when selected and appends it otherwise. */
module Selection {
  import opened Seqs

  function Toggle<T(==,!new)>(s: seq<T>, x: T): (r: seq<T>)
    ensures x in r <==> x !in s
    ensures forall y :: y != x ==> (y in r <==> y in s)
    ensures x in s ==> IsSubsequence(r, s) && forall y :: y != x ==> multiset(r)[y] == multiset(s)[y]
    ensures x !in s ==> r == s + [x]
  {
    if x in s then
      FilterIsSubsequence(s, y => y != x);
      FilterMultiset(s, y => y != x);
      Filter(s, y => y != x)
    else s + [x]
  }

  /** Toggling an id that is not selected, and then toggling it again, restores the selection. */
  lemma {:induction false} ToggleTwiceRestores<T(!new)>(s: seq<T>, x: T)
    requires x !in s
    ensures Toggle(Toggle(s, x), x) == s
  {
    FilterAppendAbsent(s, x);
  }

  lemma {:induction false} FilterAppendAbsent<T(!new)>(s: seq<T>, x: T)
    requires x !in s
    ensures Filter(s + [x], y => y != x) == s
  {
    if s != [] {
      assert (s + [x])[1..] == s[1..] + [x];
      FilterAppendAbsent(s[1..], x);
    }
  }

  predicate NoDuplicates<T(==)>(s: seq<T>) {
    forall i, j :: 0 <= i < j < |s| ==> s[i] != s[j]
  }

  /** A selection without duplicates stays without duplicates. */
  lemma ToggleKeepsNoDuplicates<T(!new)>(s: seq<T>, x: T)
    requires NoDuplicates(s)
    ensures NoDuplicates(Toggle(s, x))
  {
    if x in s {
      FilterKeepsNoDuplicates(s, y => y != x);
    }
  }

  lemma {:induction false} FilterKeepsNoDuplicates<T(!new)>(s: seq<T>, p: T -> bool)
    requires NoDuplicates(s)
    ensures NoDuplicates(Filter(s, p))
  {
    if s != [] {
      FilterKeepsNoDuplicates(s[1..], p);
      assert s[0] !in s[1..];
    }
  }
}
