/** The final, synchronous reduction over the whole tree. */
module FinalReduce {
  import opened Common
  import opened KaryTree
  import opened Folding

  /** Ranks in the order in which their values are combined: a rank, then its subtrees in turn. */
  function Preorder(r: nat, k: nat, n: nat): (s: seq<nat>)
    requires 0 < k && r < n
    ensures s != []
    decreases n - r, 0, 0
  {
    [r] + if ChildCount(r, k, n) == 0 then [] else
      FirstChildIsLarger(r, k, n);
      Forest(r * k + 1, r * k + 1 + ChildCount(r, k, n), k, n)
  }

  function Forest(lo: nat, hi: nat, k: nat, n: nat): seq<nat>
    requires 0 < k && lo <= hi <= n
    decreases n - lo, 1, hi - lo
  {
    if lo == hi then [] else Preorder(lo, k, n) + Forest(lo + 1, hi, k, n)
  }

  lemma FirstChildIsLarger(r: nat, k: nat, n: nat)
    requires 0 < k && ChildCount(r, k, n) > 0
    ensures r < r * k + 1 && r * k + 1 + ChildCount(r, k, n) <= n
  {
    assert r <= r * k;
  }

  /** What rank `r` holds after hearing from all its children in order. */
  function SyncValue(op: Op, vals: seq<Item>, r: nat, k: nat): Item
    requires 0 < k && r < |vals|
    decreases |vals| - r, 0, 0
  {
    if ChildCount(r, k, |vals|) == 0 then vals[r] else
      FirstChildIsLarger(r, k, |vals|);
      SyncFrom(op, vals, vals[r], r * k + 1, r * k + 1 + ChildCount(r, k, |vals|), k)
  }

  /** `acc` combined with the values of the children from `lo` up to `hi`. */
  function SyncFrom(op: Op, vals: seq<Item>, acc: Item, lo: nat, hi: nat, k: nat): Item
    requires 0 < k && lo <= hi <= |vals|
    decreases |vals| - lo, 1, hi - lo
  {
    if lo == hi then acc
    else SyncFrom(op, vals, op(acc, SyncValue(op, vals, lo, k)), lo + 1, hi, k)
  }

  function SyncCount(counts: seq<int>, r: nat, k: nat): int
    requires 0 < k && r < |counts|
    decreases |counts| - r, 0, 0
  {
    if ChildCount(r, k, |counts|) == 0 then counts[r] else
      FirstChildIsLarger(r, k, |counts|);
      SyncCountFrom(counts, counts[r], r * k + 1, r * k + 1 + ChildCount(r, k, |counts|), k)
  }

  function SyncCountFrom(counts: seq<int>, acc: int, lo: nat, hi: nat, k: nat): int
    requires 0 < k && lo <= hi <= |counts|
    decreases |counts| - lo, 1, hi - lo
  {
    if lo == hi then acc
    else SyncCountFrom(counts, acc + SyncCount(counts, lo, k), lo + 1, hi, k)
  }

  lemma {:induction false} PreorderInRange(r: nat, k: nat, n: nat)
    requires 0 < k && r < n
    ensures forall x | x in Preorder(r, k, n) :: x < n
    decreases n - r, 0, 0
  {
    if ChildCount(r, k, n) > 0 {
      FirstChildIsLarger(r, k, n);
      ForestInRange(r * k + 1, r * k + 1 + ChildCount(r, k, n), k, n);
    }
  }

  lemma {:induction false} ForestInRange(lo: nat, hi: nat, k: nat, n: nat)
    requires 0 < k && lo <= hi <= n
    ensures forall x | x in Forest(lo, hi, k, n) :: x < n
    decreases n - lo, 1, hi - lo
  {
    if lo < hi {
      PreorderInRange(lo, k, n);
      ForestInRange(lo + 1, hi, k, n);
    }
  }

  // ---------------------------------------------------------------- values

  /** A rank with children, from `lo` up to `hi`. */
  predicate Inner(r: nat, k: nat, n: nat, lo: nat, hi: nat) {
    0 < k && r < lo < hi <= n && lo == r * k + 1 && hi == lo + ChildCount(r, k, n)
  }

  lemma ChildRange(r: nat, k: nat, n: nat) returns (lo: nat, hi: nat)
    requires 0 < k && ChildCount(r, k, n) > 0
    ensures Inner(r, k, n, lo, hi)
  {
    FirstChildIsLarger(r, k, n);
    lo := r * k + 1;
    hi := lo + ChildCount(r, k, n);
  }

  lemma PreorderOfInner(r: nat, k: nat, n: nat, lo: nat, hi: nat)
    requires Inner(r, k, n, lo, hi)
    ensures Preorder(r, k, n) == [r] + Forest(lo, hi, k, n)
  {
  }

  lemma ValueOfInner(op: Op, vals: seq<Item>, r: nat, k: nat, lo: nat, hi: nat)
    requires Inner(r, k, |vals|, lo, hi)
    ensures SyncValue(op, vals, r, k) == SyncFrom(op, vals, vals[r], lo, hi, k)
  {
  }

  lemma ValueOfLeaf(op: Op, vals: seq<Item>, r: nat, k: nat)
    requires 0 < k && r < |vals| && ChildCount(r, k, |vals|) == 0
    ensures SyncValue(op, vals, r, k) == Fold(op, Pick(vals, [], Preorder(r, k, |vals|)))
  {
    FoldOfOne(op, vals, r);
    assert Preorder(r, k, |vals|) == [r];
  }

  /** The user buffer is the fold of all values in preorder; only associativity is needed. */
  lemma {:induction false} ValueIsPreorderFold(op: Op, vals: seq<Item>, r: nat, k: nat)
    requires Associative(op) && 0 < k && r < |vals|
    ensures SyncValue(op, vals, r, k) == Fold(op, Pick(vals, [], Preorder(r, k, |vals|)))
    decreases |vals| - r, 0, 0
  {
    if ChildCount(r, k, |vals|) == 0 {
      ValueOfLeaf(op, vals, r, k);
    } else {
      var lo, hi := ChildRange(r, k, |vals|);
      FoldOfOne(op, vals, r);
      FromIsFold(op, vals, vals[r], [r], lo, hi, k);
      PreorderOfInner(r, k, |vals|, lo, hi);
      ValueOfInner(op, vals, r, k, lo, hi);
    }
  }

  /** Combining the children one after the other appends their preorders to what is there. */
  lemma {:induction false} FromIsFold(op: Op, vals: seq<Item>, acc: Item, before: seq<nat>, lo: nat, hi: nat, k: nat)
    requires Associative(op) && 0 < k && lo <= hi <= |vals|
    requires before != [] && acc == Fold(op, Pick(vals, [], before))
    ensures SyncFrom(op, vals, acc, lo, hi, k) == Fold(op, Pick(vals, [], before + Forest(lo, hi, k, |vals|)))
    decreases |vals| - lo, 1, hi - lo
  {
    var n := |vals|;
    if lo == hi {
      assert before + Forest(lo, hi, k, n) == before;
    } else {
      var p := Preorder(lo, k, n);
      ValueIsPreorderFold(op, vals, lo, k);
      JoinPicks(op, vals, before, p);
      FromIsFold(op, vals, op(acc, SyncValue(op, vals, lo, k)), before + p, lo + 1, hi, k);
      ForestFromFront(before, lo, hi, k, n);
    }
  }

  lemma {:induction false} ForestFromFront(before: seq<nat>, lo: nat, hi: nat, k: nat, n: nat)
    requires 0 < k && lo < hi <= n
    ensures before + Forest(lo, hi, k, n) == before + Preorder(lo, k, n) + Forest(lo + 1, hi, k, n)
  {
    Reassociate(before, Preorder(lo, k, n), Forest(lo + 1, hi, k, n));
  }

  // ---------------------------------------------------------------- counts

  function SumOver(counts: seq<int>, order: seq<nat>): int {
    Sum(Pick(counts, 0, order))
  }

  lemma SumOverAppend(counts: seq<int>, a: seq<nat>, b: seq<nat>)
    ensures SumOver(counts, a + b) == SumOver(counts, a) + SumOver(counts, b)
  {
    PickAppend(counts, 0, a, b);
    SumAppend(Pick(counts, 0, a), Pick(counts, 0, b));
  }

  lemma SumOverOne(counts: seq<int>, r: nat)
    ensures SumOver(counts, [r]) == At(counts, 0, r)
  {
    var p := Pick(counts, 0, [r]);
    assert p[..|p| - 1] == [] && Sum(p[..|p| - 1]) == 0 && p[|p| - 1] == At(counts, 0, r);
  }

  lemma {:induction false} CountIsPreorderSum(counts: seq<int>, r: nat, k: nat)
    requires 0 < k && r < |counts|
    ensures SyncCount(counts, r, k) == SumOver(counts, Preorder(r, k, |counts|))
    decreases |counts| - r, 0, 0
  {
    var n := |counts|;
    SumOverOne(counts, r);
    if ChildCount(r, k, n) == 0 {
      assert Preorder(r, k, n) == [r];
    } else {
      FirstChildIsLarger(r, k, n);
      CountFromIsSum(counts, [r], r * k + 1, r * k + 1 + ChildCount(r, k, n), k);
    }
  }

  lemma {:induction false} CountFromIsSum(counts: seq<int>, before: seq<nat>, lo: nat, hi: nat, k: nat)
    requires 0 < k && lo <= hi <= |counts|
    ensures SyncCountFrom(counts, SumOver(counts, before), lo, hi, k)
         == SumOver(counts, before + Forest(lo, hi, k, |counts|))
    decreases |counts| - lo, 1, hi - lo
  {
    var n := |counts|;
    if lo == hi {
      assert before + Forest(lo, hi, k, n) == before;
    } else {
      var p := Preorder(lo, k, n);
      CountIsPreorderSum(counts, lo, k);
      SumOverAppend(counts, before, p);
      CountFromIsSum(counts, before + p, lo + 1, hi, k);
      ForestFromFront(before, lo, hi, k, n);
    }
  }

  // ---------------------------------------------------------------- every rank exactly once

  /** `r` lies on the way from `x` to the root. */
  predicate Under(x: nat, r: nat, k: nat)
    requires 0 < k
  {
    x == r || (x > 0 && Under(Parent(x, k), r, k))
  }

  lemma {:induction false} UnderIsAbove(x: nat, r: nat, k: nat)
    requires 0 < k && Under(x, r, k)
    ensures r <= x
  {
    if x != r { UnderIsAbove(Parent(x, k), r, k); }
  }

  lemma {:induction false} AllUnderRoot(x: nat, k: nat)
    requires 0 < k
    ensures Under(x, 0, k)
  {
    if x > 0 { AllUnderRoot(Parent(x, k), k); }
  }

  /** The way to the root is a single chain. */
  lemma {:induction false} Chain(x: nat, a: nat, b: nat, k: nat)
    requires 0 < k && Under(x, a, k) && Under(x, b, k) && a <= b
    ensures Under(b, a, k)
  {
    if x != b {
      if x == a { UnderIsAbove(Parent(x, k), b, k); }
      Chain(Parent(x, k), a, b, k);
    }
  }

  lemma SiblingsAreApart(x: nat, a: nat, b: nat, k: nat)
    requires 0 < k && 0 < a < b && Parent(a, k) == Parent(b, k) && Under(x, a, k)
    ensures !Under(x, b, k)
  {
    if Under(x, b, k) {
      Chain(x, a, b, k);
      UnderIsAbove(Parent(b, k), a, k);
    }
  }

  lemma {:induction false} UnderSomeChild(x: nat, r: nat, k: nat) returns (c: nat)
    requires 0 < k && Under(x, r, k) && x != r
    ensures 0 < c <= x && Parent(c, k) == r && Under(x, c, k)
  {
    if Parent(x, k) == r { c := x; } else { c := UnderSomeChild(Parent(x, k), r, k); }
  }

  lemma {:induction false} UnderTrans(x: nat, c: nat, r: nat, k: nat)
    requires 0 < k && 0 < c && Under(x, c, k) && Parent(c, k) == r
    ensures Under(x, r, k)
  {
    if x != c { UnderTrans(Parent(x, k), c, r, k); }
  }

  /** Some rank in the range lies on the way from `x` to the root. */
  ghost predicate UnderAny(x: nat, lo: nat, hi: nat, k: nat)
    requires 0 < k
  {
    exists c: nat :: lo <= c < hi && Under(x, c, k)
  }

  lemma RangeIsChildren(r: nat, k: nat, n: nat, c: nat)
    requires 0 < k && r < n && r * k + 1 <= c < r * k + 1 + ChildCount(r, k, n)
    ensures Parent(c, k) == r
  {
    ParentBracket(c, k, r);
  }

  lemma ChildInRange(r: nat, k: nat, n: nat, c: nat)
    requires 0 < k && 0 < c < n && Parent(c, k) == r
    ensures r * k + 1 <= c < r * k + 1 + ChildCount(r, k, n)
  {
    ParentBracket(c, k, r);
  }

  lemma UnderIsUnderChild(r: nat, k: nat, n: nat, x: nat)
    requires 0 < k && r < n && x < n && Under(x, r, k) && x != r
    ensures UnderAny(x, r * k + 1, r * k + 1 + ChildCount(r, k, n), k)
  {
    var c := UnderSomeChild(x, r, k);
    ChildInRange(r, k, n, c);
  }

  lemma UnderChildIsUnder(r: nat, k: nat, n: nat, x: nat)
    requires 0 < k && r < n && UnderAny(x, r * k + 1, r * k + 1 + ChildCount(r, k, n), k)
    ensures Under(x, r, k) && x != r
  {
    var c: nat :| r * k + 1 <= c < r * k + 1 + ChildCount(r, k, n) && Under(x, c, k);
    RangeIsChildren(r, k, n, c);
    UnderTrans(x, c, r, k);
    UnderIsAbove(x, c, k);
  }

  /** Below `n`, `x` is under `r` exactly if it is `r` or under one of its children. */
  lemma UnderByChild(r: nat, k: nat, n: nat, x: nat)
    requires 0 < k && r < n && x < n
    ensures ChildCount(r, k, n) == 0 ==> (Under(x, r, k) <==> x == r)
    ensures var lo, hi := r * k + 1, r * k + 1 + ChildCount(r, k, n);
      && (forall c: nat | lo <= c < hi :: Parent(c, k) == r)
      && (Under(x, r, k) <==> x == r || UnderAny(x, lo, hi, k))
      && !UnderAny(r, lo, hi, k)
  {
    var lo, hi := r * k + 1, r * k + 1 + ChildCount(r, k, n);
    forall c: nat | lo <= c < hi ensures Parent(c, k) == r { RangeIsChildren(r, k, n, c); }
    if Under(x, r, k) && x != r { UnderIsUnderChild(r, k, n, x); }
    if UnderAny(x, lo, hi, k) { UnderChildIsUnder(r, k, n, x); }
    if UnderAny(r, lo, hi, k) { UnderChildIsUnder(r, k, n, r); }
  }

  /** A rank below `n` occurs in the preorder of `r` once if `r` is on its way to the root, else never. */
  lemma {:induction false} OccursOnce(r: nat, k: nat, n: nat, x: nat)
    requires 0 < k && r < n && x < n
    ensures multiset(Preorder(r, k, n))[x] == if Under(x, r, k) then 1 else 0
    decreases n - r, 0, 0
  {
    UnderByChild(r, k, n, x);
    if ChildCount(r, k, n) == 0 {
      assert Preorder(r, k, n) == [r];
    } else {
      FirstChildIsLarger(r, k, n);
      var lo, hi := r * k + 1, r * k + 1 + ChildCount(r, k, n);
      ForestOccurs(lo, hi, k, n, x, r);
      assert Preorder(r, k, n) == [r] + Forest(lo, hi, k, n);
    }
  }

  lemma {:induction false} ForestOccurs(lo: nat, hi: nat, k: nat, n: nat, x: nat, p: nat)
    requires 0 < k && 0 < lo <= hi <= n && x < n
    requires forall c: nat | lo <= c < hi :: Parent(c, k) == p
    ensures multiset(Forest(lo, hi, k, n))[x] == if UnderAny(x, lo, hi, k) then 1 else 0
    decreases n - lo, 1, hi - lo
  {
    if lo < hi {
      OccursOnce(lo, k, n, x);
      ForestOccurs(lo + 1, hi, k, n, x, p);
      assert multiset(Forest(lo, hi, k, n))[x]
          == multiset(Preorder(lo, k, n))[x] + multiset(Forest(lo + 1, hi, k, n))[x];
      FirstOrLater(lo, hi, k, x, p);
    }
  }

  lemma FirstOrLater(lo: nat, hi: nat, k: nat, x: nat, p: nat)
    requires 0 < k && 0 < lo < hi
    requires forall c: nat | lo <= c < hi :: Parent(c, k) == p
    ensures UnderAny(x, lo, hi, k) <==> Under(x, lo, k) || UnderAny(x, lo + 1, hi, k)
    ensures Under(x, lo, k) ==> !UnderAny(x, lo + 1, hi, k)
  {
    if Under(x, lo, k) {
      forall c: nat | lo < c < hi ensures !Under(x, c, k) { SiblingsAreApart(x, lo, c, k); }
    }
  }

  /** Taking one element out of a bag of ranks, wherever it stands in the list. */
  lemma TakeOut(f: seq<int>, b: seq<nat>, x: nat) returns (rest: seq<nat>)
    requires x in multiset(b)
    ensures multiset(rest) == multiset(b) - multiset{x} && |rest| == |b| - 1
    ensures SumOver(f, b) == SumOver(f, rest) + At(f, 0, x)
  {
    var l, r := SplitAt(b, x);
    rest := l + r;
    SumOverAppend(f, l + [x], r);
    SumOverAppend(f, l, [x]);
    SumOverAppend(f, l, r);
    SumOverOne(f, x);
  }

  lemma {:induction false} SumOverReordering(f: seq<int>, a: seq<nat>, b: seq<nat>)
    requires multiset(a) == multiset(b)
    ensures SumOver(f, a) == SumOver(f, b)
    decreases |a|
  {
    if a == [] {
      assert |multiset(b)| == 0;
    } else {
      var x := a[0];
      assert x in multiset(a);
      var a' := TakeOut(f, a, x);
      var b' := TakeOut(f, b, x);
      SumOverReordering(f, a', b');
    }
  }

  /** The preorder from the root lists every rank exactly once. */
  lemma PreorderIsPermutation(k: nat, n: nat)
    requires 0 < k && 0 < n
    ensures multiset(Preorder(0, k, n)) == multiset(UpTo(n))
  {
    PreorderInRange(0, k, n);
    forall x: nat ensures multiset(Preorder(0, k, n))[x] == multiset(UpTo(n))[x] {
      UpToOnce(n, x);
      if x < n {
        AllUnderRoot(x, k);
        OccursOnce(0, k, n, x);
      } else {
        assert x !in Preorder(0, k, n);
      }
    }
  }

  /** The root delivers the sum of all counts. */
  lemma RootCountIsTotal(counts: seq<int>, k: nat)
    requires 0 < k && counts != []
    ensures SyncCount(counts, 0, k) == Sum(counts)
  {
    CountIsPreorderSum(counts, 0, k);
    PreorderIsPermutation(k, |counts|);
    SumOverReordering(counts, Preorder(0, k, |counts|), UpTo(|counts|));
    assert Pick(counts, 0, UpTo(|counts|)) == counts;
  }

  // ---------------------------------------------------------------- one rank's loop over its children

  /** Values received from the children are combined in the order of the child list. */
  function CombineInOrder(op: Op, acc: Item, received: seq<Item>): Item {
    if received == [] then acc else op(CombineInOrder(op, acc, received[..|received| - 1]), received[|received| - 1])
  }

  lemma {:induction false} CombineCons(op: Op, acc: Item, x: Item, rest: seq<Item>)
    ensures CombineInOrder(op, acc, [x] + rest) == CombineInOrder(op, op(acc, x), rest)
  {
    var all := [x] + rest;
    if rest == [] {
      assert all[..0] == [] && CombineInOrder(op, acc, []) == acc;
    } else {
      var m := |rest| - 1;
      assert all[..|all| - 1] == [x] + rest[..m] && all[|all| - 1] == rest[m];
      CombineCons(op, acc, x, rest[..m]);
    }
  }

  /** The results of the ranks from `lo` up to `hi`. */
  function Results(op: Op, vals: seq<Item>, lo: nat, hi: nat, k: nat): seq<Item>
    requires 0 < k && lo <= hi <= |vals|
  {
    seq(hi - lo, i requires 0 <= i < hi - lo => SyncValue(op, vals, lo + i, k))
  }

  lemma {:induction false} FromIsCombine(op: Op, vals: seq<Item>, acc: Item, lo: nat, hi: nat, k: nat)
    requires 0 < k && lo <= hi <= |vals|
    ensures SyncFrom(op, vals, acc, lo, hi, k) == CombineInOrder(op, acc, Results(op, vals, lo, hi, k))
    decreases hi - lo
  {
    if lo < hi {
      var x := SyncValue(op, vals, lo, k);
      FromIsCombine(op, vals, op(acc, x), lo + 1, hi, k);
      CombineCons(op, acc, x, Results(op, vals, lo + 1, hi, k));
      assert Results(op, vals, lo, hi, k) == [x] + Results(op, vals, lo + 1, hi, k);
    }
  }

  /** What the children of `r` send it, in the order in which it waits for them. */
  function ChildValues(op: Op, vals: seq<Item>, r: nat, k: nat): seq<Item>
    requires 0 < k && r < |vals|
  {
    if ChildCount(r, k, |vals|) == 0 then [] else
      FirstChildIsLarger(r, k, |vals|);
      Results(op, vals, r * k + 1, r * k + 1 + ChildCount(r, k, |vals|), k)
  }

  /** A rank that hears its children's results in order ends with its own result. */
  lemma LoopComputesResult(op: Op, vals: seq<Item>, r: nat, k: nat)
    requires 0 < k && r < |vals|
    ensures CombineInOrder(op, vals[r], ChildValues(op, vals, r, k)) == SyncValue(op, vals, r, k)
  {
    if ChildCount(r, k, |vals|) > 0 {
      FirstChildIsLarger(r, k, |vals|);
      FromIsCombine(op, vals, vals[r], r * k + 1, r * k + 1 + ChildCount(r, k, |vals|), k);
    }
  }

  function CountResults(counts: seq<int>, lo: nat, hi: nat, k: nat): seq<int>
    requires 0 < k && lo <= hi <= |counts|
  {
    seq(hi - lo, i requires 0 <= i < hi - lo => SyncCount(counts, lo + i, k))
  }

  lemma {:induction false} CountFromIsPlain(counts: seq<int>, acc: int, lo: nat, hi: nat, k: nat)
    requires 0 < k && lo <= hi <= |counts|
    ensures SyncCountFrom(counts, acc, lo, hi, k) == acc + Sum(CountResults(counts, lo, hi, k))
    decreases hi - lo
  {
    if lo < hi {
      var x := SyncCount(counts, lo, k);
      var results := CountResults(counts, lo, hi, k);
      CountFromIsPlain(counts, acc + x, lo + 1, hi, k);
      SumTail(results);
      assert results[0] == x && results[1..] == CountResults(counts, lo + 1, hi, k);
    }
  }

  function ChildCounts(counts: seq<int>, r: nat, k: nat): seq<int>
    requires 0 < k && r < |counts|
  {
    if ChildCount(r, k, |counts|) == 0 then [] else
      FirstChildIsLarger(r, k, |counts|);
      CountResults(counts, r * k + 1, r * k + 1 + ChildCount(r, k, |counts|), k)
  }

  lemma LoopComputesCount(counts: seq<int>, r: nat, k: nat)
    requires 0 < k && r < |counts|
    ensures counts[r] + Sum(ChildCounts(counts, r, k)) == SyncCount(counts, r, k)
  {
    if ChildCount(r, k, |counts|) > 0 {
      FirstChildIsLarger(r, k, |counts|);
      CountFromIsPlain(counts, counts[r], r * k + 1, r * k + 1 + ChildCount(r, k, |counts|), k);
    }
  }
}
