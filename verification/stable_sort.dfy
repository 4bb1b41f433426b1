/** A stable insertion sort of strings by an integer rank, with the facts that
    make it a faithful stand-in for Java's `Arrays.sort` on objects (a stable
    merge sort): the result is a permutation of the input, runs in
    non-decreasing rank, keeps keys of equal rank in input order, and is the
    only sequence with those properties. */
module StableSort {

  /** No element has a lower rank than the one before it. */
  predicate SortedBy(s: seq<string>, rank: string -> int) {
    forall i :: 0 < i < |s| ==> rank(s[i - 1]) <= rank(s[i])
  }

  /** The elements of rank `k`, in the order they appear in `s`. */
  function FilterRank(s: seq<string>, rank: string -> int, k: int): seq<string>
    decreases |s|
  {
    if |s| == 0 then []
    else (if rank(s[0]) == k then [s[0]] else []) + FilterRank(s[1..], rank, k)
  }

  /** Puts `x` in front of the first element whose rank is not lower, so `x`
      stays ahead of the elements of its own rank that came after it. */
  function Insert(x: string, s: seq<string>, rank: string -> int): (r: seq<string>)
    ensures |r| > 0 && (r[0] == x || (|s| > 0 && r[0] == s[0]))
    ensures SortedBy(s, rank) ==> SortedBy(r, rank)
    decreases |s|
  {
    if |s| == 0 then [x]
    else if rank(x) <= rank(s[0]) then [x] + s
    else [s[0]] + Insert(x, s[1..], rank)
  }

  /** Inserting adds `x` and loses nothing. */
  lemma {:induction false} InsertPermutes(x: string, s: seq<string>, rank: string -> int)
    ensures multiset(Insert(x, s, rank)) == multiset(s) + multiset{x}
    decreases |s|
  {
    if |s| > 0 && rank(x) > rank(s[0]) {
      InsertPermutes(x, s[1..], rank);
      assert s == [s[0]] + s[1..];
      assert multiset(s) == multiset{s[0]} + multiset(s[1..]);
    }
  }

  /** Insertion sort by rank: a permutation of the input in non-decreasing rank. */
  function SortBy(s: seq<string>, rank: string -> int): (r: seq<string>)
    ensures multiset(r) == multiset(s)
    ensures SortedBy(r, rank)
    decreases |s|
  {
    if |s| == 0 then []
    else
      var rest := SortBy(s[1..], rank);
      InsertPermutes(s[0], rest, rank);
      assert s == [s[0]] + s[1..];
      assert multiset(s) == multiset{s[0]} + multiset(s[1..]);
      Insert(s[0], rest, rank)
  }

  lemma FilterRankCons(x: string, t: seq<string>, rank: string -> int, k: int)
    ensures FilterRank([x] + t, rank, k) == (if rank(x) == k then [x] else []) + FilterRank(t, rank, k)
  {
    assert ([x] + t)[1..] == t;
  }

  lemma {:induction false} FilterRankInsert(x: string, s: seq<string>, rank: string -> int, k: int)
    requires SortedBy(s, rank)
    ensures FilterRank(Insert(x, s, rank), rank, k)
         == (if rank(x) == k then [x] else []) + FilterRank(s, rank, k)
    decreases |s|
  {
    if |s| == 0 {
      FilterRankCons(x, [], rank, k);
    } else if rank(x) <= rank(s[0]) {
      FilterRankCons(x, s, rank, k);
    } else {
      var t := s[1..];
      assert s == [s[0]] + t;
      SortedTail(s, rank);
      FilterRankCons(s[0], Insert(x, t, rank), rank, k);
      FilterRankInsert(x, t, rank, k);
      FilterRankCons(s[0], t, rank, k);
    }
  }

  /** Stability: for every rank, the elements of that rank leave the sort in
      the order they entered it. */
  lemma {:induction false} SortIsStable(s: seq<string>, rank: string -> int, k: int)
    ensures FilterRank(SortBy(s, rank), rank, k) == FilterRank(s, rank, k)
    decreases |s|
  {
    if |s| > 0 {
      SortIsStable(s[1..], rank, k);
      FilterRankInsert(s[0], SortBy(s[1..], rank), rank, k);
      assert s == [s[0]] + s[1..];
      FilterRankCons(s[0], s[1..], rank, k);
    }
  }

  /** In a sorted sequence with some element of rank `k`, the first element
      has rank at most `k`. */
  lemma {:induction false} FilterRankNonEmptyBound(t: seq<string>, rank: string -> int, k: int)
    requires SortedBy(t, rank)
    requires FilterRank(t, rank, k) != []
    ensures |t| > 0 && rank(t[0]) <= k
    decreases |t|
  {
    if |t| > 0 && rank(t[0]) != k {
      SortedTail(t, rank);
      FilterRankNonEmptyBound(t[1..], rank, k);
    }
  }

  lemma SortedTail(t: seq<string>, rank: string -> int)
    requires |t| > 0 && SortedBy(t, rank)
    ensures SortedBy(t[1..], rank)
  {
    forall i | 0 < i < |t| - 1
      ensures rank(t[1..][i - 1]) <= rank(t[1..][i])
    {
      assert t[1..][i - 1] == t[i] && t[1..][i] == t[i + 1];
    }
  }

  /** Two sorted sequences with the same elements of every rank in the same
      order are equal: sortedness plus stability pin the result down. */
  lemma {:induction false} SortedStableUnique(t1: seq<string>, t2: seq<string>, rank: string -> int)
    requires SortedBy(t1, rank) && SortedBy(t2, rank)
    requires forall k :: FilterRank(t1, rank, k) == FilterRank(t2, rank, k)
    ensures t1 == t2
    decreases |t1|
  {
    if |t1| == 0 && |t2| == 0 {
    } else if |t1| == 0 {
      var k := rank(t2[0]);
      assert t2 == [t2[0]] + t2[1..];
      FilterRankCons(t2[0], t2[1..], rank, k);
    } else if |t2| == 0 {
      var k := rank(t1[0]);
      assert t1 == [t1[0]] + t1[1..];
      FilterRankCons(t1[0], t1[1..], rank, k);
    } else {
      var x1, x2 := t1[0], t2[0];
      var u1, u2 := t1[1..], t2[1..];
      assert t1 == [x1] + u1;
      assert t2 == [x2] + u2;
      FilterRankCons(x1, u1, rank, rank(x1));
      FilterRankCons(x2, u2, rank, rank(x2));
      assert FilterRank(t2, rank, rank(x1)) != [];
      FilterRankNonEmptyBound(t2, rank, rank(x1));
      assert FilterRank(t1, rank, rank(x2)) != [];
      FilterRankNonEmptyBound(t1, rank, rank(x2));
      var r := rank(x1);
      assert rank(x2) == r;
      assert FilterRank(t1, rank, r) == [x1] + FilterRank(u1, rank, r);
      assert FilterRank(t2, rank, r) == [x2] + FilterRank(u2, rank, r);
      assert ([x1] + FilterRank(u1, rank, r))[0] == x1;
      assert ([x2] + FilterRank(u2, rank, r))[0] == x2;
      assert x1 == x2;
      forall k
        ensures FilterRank(u1, rank, k) == FilterRank(u2, rank, k)
      {
        FilterRankCons(x1, u1, rank, k);
        FilterRankCons(x2, u2, rank, k);
        if k == r {
          assert [x1] + FilterRank(u1, rank, k) == [x2] + FilterRank(u2, rank, k);
          assert ([x1] + FilterRank(u1, rank, k))[1..] == FilterRank(u1, rank, k);
          assert ([x2] + FilterRank(u2, rank, k))[1..] == FilterRank(u2, rank, k);
        } else {
          assert FilterRank(t1, rank, k) == FilterRank(u1, rank, k);
        }
      }
      SortedTail(t1, rank);
      SortedTail(t2, rank);
      SortedStableUnique(u1, u2, rank);
    }
  }

  /** Whatever stable sort orders the elements by rank produces exactly `SortBy`. */
  lemma AnyStableSortIsSortBy(s: seq<string>, t: seq<string>, rank: string -> int)
    requires SortedBy(t, rank)
    requires forall k :: FilterRank(t, rank, k) == FilterRank(s, rank, k)
    ensures t == SortBy(s, rank)
  {
    forall k
      ensures FilterRank(SortBy(s, rank), rank, k) == FilterRank(t, rank, k)
    {
      SortIsStable(s, rank, k);
    }
    SortedStableUnique(SortBy(s, rank), t, rank);
  }
}
