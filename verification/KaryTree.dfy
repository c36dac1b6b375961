/** The k-ary tree of ranks rooted at rank 0 on which every collective runs. */
module KaryTree {
  import opened Common

  /** Rank of the parent of a non-root rank in a tree of width `k`. */
  function Parent(c: nat, k: nat): (p: nat)
    requires 0 < c && 0 < k
    ensures p < c
  {
    ParentBracket(c, k, (c - 1) / k);
    (c - 1) / k
  }

  /** Number of children of rank `r` among `n` ranks. */
  function ChildCount(r: nat, k: nat, n: nat): nat
    requires 0 < k
  {
    if r * k + 1 < n then
      (if r * k + k >= n then n - 1 else r * k + k) - (r * k + 1) + 1
    else 0
  }

  /** The children of `r` are the consecutive ranks from `r * k + 1` on. */
  function Children(r: nat, k: nat, n: nat): (s: seq<nat>)
    requires 0 < k
  {
    seq(ChildCount(r, k, n), i requires 0 <= i => r * k + 1 + i)
  }

  /** The ranks that name `r` as their parent. */
  ghost function ChildSet(r: nat, k: nat, n: nat): set<nat>
    requires 0 < k
  {
    set c: nat | 0 < c < n && Parent(c, k) == r
  }

  lemma MulGap(x: nat, y: nat, k: nat)
    requires x < y
    ensures x * k + k <= y * k
  {
    assert y * k == x * k + (y - x) * k;
    assert (y - x) * k == (y - x - 1) * k + k;
  }

  lemma DivBracket(a: nat, k: nat, r: nat)
    requires 0 < k
    ensures a / k == r <==> r * k <= a < r * k + k
  {
    var q := a / k;
    assert q * k <= a < q * k + k;
    if r < q { MulGap(r, q, k); }
    if q < r { MulGap(q, r, k); }
  }

  lemma ParentBracket(c: nat, k: nat, r: nat)
    requires 0 < c && 0 < k
    ensures (c - 1) / k == r <==> r * k + 1 <= c <= r * k + k
    ensures (c - 1) / k == r ==> r < c
  {
    DivBracket(c - 1, k, r);
    if r > 0 { MulGap(0, k, r); }
    assert r <= r * k;
  }

  /** A rank is listed as a child of `r` exactly when `r` is its parent. */
  lemma ChildrenAreThoseWithParent(r: nat, k: nat, n: nat, c: nat)
    requires 0 < k
    ensures c in Children(r, k, n) <==> 0 < c < n && Parent(c, k) == r
  {
    var s := Children(r, k, n);
    if 0 < c < n && Parent(c, k) == r {
      ParentBracket(c, k, r);
      assert s[c - (r * k + 1)] == c;
    }
    if c in s {
      var i :| 0 <= i < |s| && s[i] == c;
      ParentBracket(c, k, r);
    }
  }

  function FirstChild(r: nat, k: nat): nat {
    r * k + 1
  }

  /** The children of `r` are those of its list, which starts at `FirstChild`. */
  lemma ChildAt(r: nat, k: nat, n: nat, i: nat)
    requires 0 < k && i < ChildCount(r, k, n)
    ensures var c := FirstChild(r, k) + i; c < n && Parent(c, k) == r && Children(r, k, n)[i] == c
  {
    ParentBracket(FirstChild(r, k) + i, k, r);
  }

  lemma {:induction false} DistinctSize(s: seq<nat>, t: set<nat>)
    requires forall i, j | 0 <= i < j < |s| :: s[i] != s[j]
    requires forall c :: c in t <==> c in s
    ensures |t| == |s|
  {
    if s == [] {
      assert t == {};
    } else {
      var last := s[|s| - 1];
      DistinctSize(s[..|s| - 1], t - {last});
    }
  }

  /** The children of `r` number `ChildCount(r)` and are pairwise distinct. */
  lemma ChildSetSize(r: nat, k: nat, n: nat)
    requires 0 < k
    ensures |ChildSet(r, k, n)| == ChildCount(r, k, n)
  {
    forall c ensures c in ChildSet(r, k, n) <==> c in Children(r, k, n) {
      if c in Children(r, k, n) { assert c >= 0; }
      if c >= 0 { ChildrenAreThoseWithParent(r, k, n, c); }
    }
    DistinctSize(Children(r, k, n), ChildSet(r, k, n));
  }

  /** Every non-root rank occurs in exactly one child list, and there exactly once. */
  lemma EveryRankHasOneParent(k: nat, n: nat, c: nat)
    requires 0 < k && 0 < c < n
    ensures forall r: nat :: c in Children(r, k, n) <==> r == Parent(c, k)
    ensures multiset(Children(Parent(c, k), k, n))[c] == 1
  {
    forall r: nat ensures c in Children(r, k, n) <==> r == Parent(c, k) {
      ChildrenAreThoseWithParent(r, k, n, c);
    }
    OccursExactlyOnce(Children(Parent(c, k), k, n), c);
  }

  lemma OccursExactlyOnce<T>(s: seq<T>, c: T)
    requires c in s && forall i, j | 0 <= i < j < |s| :: s[i] != s[j]
    ensures multiset(s)[c] == 1
  {
    var i: nat :| i < |s| && s[i] == c;
    var a, b := s[..i], s[i + 1..];
    assert c !in a && c !in b;
    NotAmong(a, c);
    NotAmong(b, c);
    assert s == a + [c] + b;
    assert multiset(a + [c] + b) == multiset(a) + multiset{c} + multiset(b);
  }

  lemma NotAmong<T>(s: seq<T>, c: T)
    requires c !in s
    ensures multiset(s)[c] == 0
  {
  }

  /** The chain of parents from `c`, which ends at the root. */
  function PathToRoot(c: nat, k: nat): (path: seq<nat>)
    requires 0 < k
    ensures |path| > 0 && path[0] == c && path[|path| - 1] == 0
    ensures forall i | 0 <= i < |path| - 1 :: 0 < path[i] && path[i + 1] == Parent(path[i], k) < path[i]
  {
    if c == 0 then [0] else [c] + PathToRoot(Parent(c, k), k)
  }

  lemma FewChildren(r: nat, k: nat, n: nat)
    requires 0 < k
    ensures ChildCount(r, k, n) <= k
  {
  }

  lemma ChildrenInOrder(s: seq<int>, r: nat, k: nat, n: nat, left: nat)
    requires 0 < k && left == r * k + 1 && |s| == ChildCount(r, k, n) && forall j | 0 <= j < |s| :: s[j] == left + j
    ensures s == Children(r, k, n)
  {
  }

  /** The value that marks an absent parent or an unused child slot. */
  const PROC_NULL: int := -2

  /** What a rank remembers about its place in the tree. */
  class TreeState {
    var rank: nat
    var nranks: nat
    var parentRank: int
    var nchildren: nat
    var childrenRanks: array<int>
    var maxChildren: nat

    ghost predicate Valid()
      reads this, childrenRanks
    {
      && 0 < maxChildren == childrenRanks.Length
      && rank < nranks
      && parentRank == (if rank == 0 then PROC_NULL else Parent(rank, maxChildren))
      && nchildren == ChildCount(rank, maxChildren, nranks) <= maxChildren
      && childrenRanks[..nchildren] == Children(rank, maxChildren, nranks)
      && forall i | nchildren <= i < maxChildren :: childrenRanks[i] == PROC_NULL
    }

    constructor (rank_: nat, nranks_: nat, maxChildren_: nat)
      requires 0 < maxChildren_ && rank_ < nranks_
      ensures Valid() && fresh(childrenRanks)
      ensures rank == rank_ && nranks == nranks_ && maxChildren == maxChildren_
    {
      rank, nranks, maxChildren := rank_, nranks_, maxChildren_;
      parentRank := PROC_NULL;
      nchildren := 0;
      childrenRanks := new int[maxChildren_];
      new;
      for i := 0 to maxChildren
        invariant maxChildren == maxChildren_ == childrenRanks.Length && fresh(childrenRanks)
        invariant rank == rank_ && nranks == nranks_ && parentRank == PROC_NULL && nchildren == 0
        invariant forall j | 0 <= j < i :: childrenRanks[j] == PROC_NULL
      {
        childrenRanks[i] := PROC_NULL;
      }
      if rank > 0 {
        parentRank := (rank - 1) / maxChildren;
      }
      ghost var p, count := parentRank, ChildCount(rank_, maxChildren_, nranks_);
      assert p == if rank_ == 0 then PROC_NULL else Parent(rank_, maxChildren_);
      FewChildren(rank_, maxChildren_, nranks_);
      var left := rank * maxChildren + 1;
      var right := rank * maxChildren + maxChildren;
      if left < nranks {
        if right >= nranks {
          right := nranks - 1;
        }
        nchildren := right - left + 1;
        for i := 0 to nchildren
          invariant maxChildren == maxChildren_ == childrenRanks.Length && fresh(childrenRanks)
          invariant rank == rank_ && nranks == nranks_ && parentRank == p && nchildren == count <= maxChildren
          invariant forall j | 0 <= j < i :: childrenRanks[j] == left + j
          invariant forall j | nchildren <= j < maxChildren :: childrenRanks[j] == PROC_NULL
        {
          childrenRanks[i] := left + i;
        }
      }
      ChildrenInOrder(childrenRanks[..nchildren], rank_, maxChildren_, nranks_, left);
    }
  }
}
