/** Folding a user-supplied reduce operation over the values of many ranks. */
module Folding {
  import opened Common

  type Op = (Item, Item) -> Item

  ghost predicate Associative(op: Op) {
    forall a, b, c :: op(op(a, b), c) == op(a, op(b, c))
  }

  ghost predicate Commutative(op: Op) {
    forall a, b :: op(a, b) == op(b, a)
  }

  /** The left fold of a non-empty list of values. */
  function Fold(op: Op, s: seq<Item>): Item
    requires s != []
  {
    if |s| == 1 then s[0] else op(Fold(op, s[..|s| - 1]), s[|s| - 1])
  }

  lemma {:induction false} FoldAppend(op: Op, s: seq<Item>, t: seq<Item>)
    requires Associative(op) && s != [] && t != []
    ensures Fold(op, s + t) == op(Fold(op, s), Fold(op, t))
  {
    assert (s + t)[|s + t| - 1] == t[|t| - 1];
    if |t| == 1 {
      assert (s + t)[..|s + t| - 1] == s;
    } else {
      assert (s + t)[..|s + t| - 1] == s + t[..|t| - 1];
      FoldAppend(op, s, t[..|t| - 1]);
    }
  }

  // ---------------------------------------------------------------- values of ranks

  /** The entry of rank `r`; `d` stands for ranks outside the table. */
  function At<T>(s: seq<T>, d: T, r: nat): T {
    if r < |s| then s[r] else d
  }

  /** The entries of the ranks in `order`. */
  function Pick<T>(s: seq<T>, d: T, order: seq<nat>): (p: seq<T>)
    ensures |p| == |order|
  {
    seq(|order|, i requires 0 <= i < |order| => At(s, d, order[i]))
  }

  lemma PickAppend<T>(s: seq<T>, d: T, a: seq<nat>, b: seq<nat>)
    ensures Pick(s, d, a + b) == Pick(s, d, a) + Pick(s, d, b)
  {
  }

  lemma FoldOfOne(op: Op, vals: seq<Item>, r: nat)
    requires r < |vals|
    ensures Fold(op, Pick(vals, [], [r])) == vals[r]
  {
    assert Pick(vals, [], [r]) == [vals[r]];
  }

  lemma JoinPicks(op: Op, vals: seq<Item>, a: seq<nat>, b: seq<nat>)
    requires Associative(op) && a != [] && b != []
    ensures Fold(op, Pick(vals, [], a + b)) == op(Fold(op, Pick(vals, [], a)), Fold(op, Pick(vals, [], b)))
  {
    PickAppend(vals, [], a, b);
    FoldAppend(op, Pick(vals, [], a), Pick(vals, [], b));
  }

  /** The ranks below `n` in their own order. */
  function UpTo(n: nat): (s: seq<nat>)
    ensures |s| == n
  {
    seq(n, i requires 0 <= i => i)
  }

  lemma {:induction false} UpToOnce(n: nat, x: nat)
    ensures multiset(UpTo(n))[x] == if x < n then 1 else 0
  {
    if n > 0 {
      UpToOnce(n - 1, x);
      assert UpTo(n) == UpTo(n - 1) + [n - 1];
    }
  }

  // ---------------------------------------------------------------- combinations

  /** How a value was put together: one rank's own, or two values combined, the second into the first. */
  datatype Combination = Own(rank: nat) | Joined(first: Combination, second: Combination)

  /** The ranks whose values went in, from left to right. */
  function Ranks(c: Combination): (s: seq<nat>)
    ensures s != []
  {
    match c
    case Own(r) => [r]
    case Joined(a, b) => Ranks(a) + Ranks(b)
  }

  function Combined(op: Op, vals: seq<Item>, c: Combination): Item {
    match c
    case Own(r) => At(vals, [], r)
    case Joined(a, b) => op(Combined(op, vals, a), Combined(op, vals, b))
  }

  /** Only the values of the ranks that went in matter. */
  lemma {:induction false} CombinedFrame(op: Op, vals: seq<Item>, vals': seq<Item>, c: Combination)
    requires forall r | r in Ranks(c) :: At(vals', [], r) == At(vals, [], r)
    ensures Combined(op, vals', c) == Combined(op, vals, c)
  {
    if c.Own? {
      assert c.rank in Ranks(c);
    } else {
      CombinedFrame(op, vals, vals', c.first);
      CombinedFrame(op, vals, vals', c.second);
    }
  }

  /** For an associative operation the grouping does not matter. */
  lemma {:induction false} CombinedIsFold(op: Op, vals: seq<Item>, c: Combination)
    requires Associative(op)
    ensures Combined(op, vals, c) == Fold(op, Pick(vals, [], Ranks(c)))
  {
    if c.Joined? {
      CombinedIsFold(op, vals, c.first);
      CombinedIsFold(op, vals, c.second);
      JoinPicks(op, vals, Ranks(c.first), Ranks(c.second));
    }
  }

  /** One value can be taken out of a fold and combined last. */
  lemma FoldLast(op: Op, vals: seq<Item>, l: seq<nat>, x: nat, r: seq<nat>)
    requires Associative(op) && Commutative(op) && l + r != []
    ensures Fold(op, Pick(vals, [], l + [x] + r)) == Fold(op, Pick(vals, [], l + r + [x]))
  {
    if r == [] {
      assert l + [x] + r == l + r + [x];
    } else {
      JoinPicks(op, vals, [x], r);
      JoinPicks(op, vals, r, [x]);
      if l == [] {
        assert l + [x] + r == [x] + r && l + r + [x] == r + [x];
      } else {
        Reassociate(l, [x], r);
        Reassociate(l, r, [x]);
        JoinPicks(op, vals, l, [x] + r);
        JoinPicks(op, vals, l, r + [x]);
      }
    }
  }

  /** Where `x` stands in the list, and what is left without it. */
  lemma SplitAt(b: seq<nat>, x: nat) returns (l: seq<nat>, r: seq<nat>)
    requires x in multiset(b)
    ensures b == l + [x] + r && multiset(l + r) == multiset(b) - multiset{x}
  {
    var i: nat :| i < |b| && b[i] == x;
    l, r := b[..i], b[i + 1..];
    assert b == l + [x] + r;
  }

  lemma FrontOf(a: seq<nat>) returns (front: seq<nat>, x: nat)
    requires a != []
    ensures a == front + [x] && |front| == |a| - 1 && x in multiset(a) && multiset(front) == multiset(a) - multiset{x}
  {
    front, x := a[..|a| - 1], a[|a| - 1];
    assert a == front + [x];
  }

  lemma SameBag(a: seq<nat>, b: seq<nat>)
    requires multiset(a) == multiset(b)
    ensures |a| == |b|
  {
    assert |multiset(a)| == |multiset(b)|;
  }

  /** For a commutative operation as well the order does not matter either. */
  lemma {:induction false} FoldReordering(op: Op, vals: seq<Item>, a: seq<nat>, b: seq<nat>)
    requires Associative(op) && Commutative(op) && a != [] && b != [] && multiset(a) == multiset(b)
    ensures Fold(op, Pick(vals, [], a)) == Fold(op, Pick(vals, [], b))
    decreases |a|
  {
    var front, x := FrontOf(a);
    var l, r := SplitAt(b, x);
    SameBag(front, l + r);
    if front == [] {
      assert a == b == [x];
    } else {
      FoldReordering(op, vals, front, l + r);
      FoldLast(op, vals, l, x, r);
      JoinPicks(op, vals, front, [x]);
      JoinPicks(op, vals, l + r, [x]);
    }
  }
}
