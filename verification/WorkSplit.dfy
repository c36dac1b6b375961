/** Dividing a queue among requestors, and the packets that carry the parts. */
module WorkSplit {
  import opened Common
  import opened Packing

  /** The `i`-th of `ranks` shares of `count`; the first ones take the remainder. */
  function Share(ranks: nat, count: nat, i: nat): nat
    requires 0 < ranks
  {
    count / ranks + if i < count % ranks then 1 else 0
  }

  function Shares(ranks: nat, count: nat, m: nat): seq<nat>
    requires 0 < ranks
  {
    seq(m, i requires 0 <= i => Share(ranks, count, i))
  }

  lemma {:induction false} SharesUpTo(ranks: nat, count: nat, m: nat)
    requires 0 < ranks && m <= ranks
    ensures Sum(Shares(ranks, count, m)) == count / ranks * m + if m < count % ranks then m else count % ranks
  {
    if m > 0 {
      SharesUpTo(ranks, count, m - 1);
      assert Shares(ranks, count, m)[..m - 1] == Shares(ranks, count, m - 1);
      assert count / ranks * m == count / ranks * (m - 1) + count / ranks;
    }
  }

  /** The shares use up the whole count and differ by at most one, the larger ones first. */
  lemma SharesAreFair(ranks: nat, count: nat)
    requires 0 < ranks
    ensures Sum(Shares(ranks, count, ranks)) == count
    ensures forall i, j | 0 <= i <= j < ranks ::
      Share(ranks, count, j) <= Share(ranks, count, i) <= Share(ranks, count, j) + 1
  {
    SharesUpTo(ranks, count, ranks);
    assert count == count / ranks * ranks + count % ranks;
  }

  /** How many items a random split sends in all, if the random number drawn is `pick`. */
  function RandomTotal(count: nat, pick: nat): nat
    requires 0 < count
  {
    var sent := pick % count + 1;
    if sent == count then sent - 1 else sent
  }

  /** How many items to keep (first entry) and how many each of `rcount` requestors gets. */
  function Sizes(splitEqual: bool, count: nat, rcount: nat, pick: nat): seq<nat>
    requires 0 < count && 0 < rcount
  {
    if splitEqual then Shares(rcount + 1, count, rcount + 1)
    else [count - RandomTotal(count, pick)] + Shares(rcount, RandomTotal(count, pick), rcount)
  }

  /** One entry for the sender and one per requestor; the later ones are no larger, and by one at most. */
  predicate Fair(sizes: seq<nat>, count: nat, rcount: nat, splitEqual: bool) {
    && |sizes| == rcount + 1 && sizes[0] >= 1 && sizes[0] + Sum(sizes[1..]) == count
    && forall i, j | (if splitEqual then 0 else 1) <= i <= j <= rcount :: sizes[j] <= sizes[i] <= sizes[j] + 1
  }

  /**
   * Either split keeps at least one item, uses up the count and is fair among requestors, the equal one
   * among all ranks.  A random one sends the number drawn from 1 to `count`, or one less if that is all.
   */
  lemma SizesAreFair(splitEqual: bool, count: nat, rcount: nat, pick: nat)
    requires 0 < count && 0 < rcount
    ensures var sizes := Sizes(splitEqual, count, rcount, pick);
      && Fair(sizes, count, rcount, splitEqual)
      && (!splitEqual ==> Sum(sizes[1..]) == if pick % count + 1 < count then pick % count + 1 else count - 1)
  {
    var sizes := Sizes(splitEqual, count, rcount, pick);
    if splitEqual {
      SharesAreFair(rcount + 1, count);
      FirstShareIsPositive(rcount + 1, count);
      SumTail(sizes);
    } else {
      SharesAreFair(rcount, RandomTotal(count, pick));
      assert sizes[1..] == Shares(rcount, RandomTotal(count, pick), rcount);
    }
  }

  lemma RandomSplitBounds(count: nat, rcount: nat, pick: nat)
    requires 0 < count && 0 < rcount
    ensures var sent := Sum(Sizes(false, count, rcount, pick)[1..]);
      if count == 1 then sent == 0 else 1 <= sent < count
  {
    SizesAreFair(false, count, rcount, pick);
  }

  lemma RandomSplitDraws(count: nat, rcount: nat, total: nat)
    requires 0 < rcount && 1 <= total < count
    ensures Sum(Sizes(false, count, rcount, total - 1)[1..]) == total
  {
    SizesAreFair(false, count, rcount, total - 1);
    SmallRemainder(total - 1, count);
  }

  lemma SmallRemainder(a: nat, b: nat)
    requires a < b
    ensures a % b == a
  {
  }

  /** From two items on a random split sends at least one, and every number that leaves one can be drawn. */
  lemma RandomSplitSendsAny(count: nat, rcount: nat, total: nat)
    requires 0 < count && 0 < rcount
    ensures (exists pick: nat :: Sum(Sizes(false, count, rcount, pick)[1..]) == total)
      <==> (if count == 1 then total == 0 else 1 <= total < count)
  {
    if pick: nat :| Sum(Sizes(false, count, rcount, pick)[1..]) == total {
      RandomSplitBounds(count, rcount, pick);
    }
    if count == 1 && total == 0 {
      RandomSplitBounds(count, rcount, 0);
    } else if 1 <= total < count {
      RandomSplitDraws(count, rcount, total);
    }
  }

  lemma FirstShareIsPositive(ranks: nat, count: nat)
    requires 0 < ranks && 0 < count
    ensures Share(ranks, count, 0) >= 1
  {
    if count / ranks == 0 { assert count % ranks == count; }
  }

  /** Quotient and remainder, the remainder found by subtracting. */
  method Divide(count: nat, ranks: nat) returns (base: nat, extra: nat)
    requires 0 < ranks
    ensures base == count / ranks && extra == count % ranks && extra < ranks
  {
    base := count / ranks;
    extra := count - base * ranks;
  }

  /** Writes `base` to `sizes[lo..lo + ranks)`, one more in the first `extra` places. */
  method WriteShares(sizes: array<nat>, lo: nat, ranks: nat, base: nat, extra: nat)
    requires extra <= ranks && lo + ranks <= sizes.Length
    modifies sizes
    ensures forall i | lo <= i < lo + ranks :: sizes[i] == base + if i - lo < extra then 1 else 0
    ensures forall i | 0 <= i < sizes.Length && (i < lo || lo + ranks <= i) :: sizes[i] == old(sizes[i])
  {
    var i := 0;
    while i < extra
      invariant 0 <= i <= extra
      invariant forall j | lo <= j < lo + i :: sizes[j] == base + 1
      invariant forall j | 0 <= j < sizes.Length && (j < lo || lo + ranks <= j) :: sizes[j] == old(sizes[j])
    {
      sizes[lo + i] := base + 1;
      i := i + 1;
    }
    while i < ranks
      invariant extra <= i <= ranks
      invariant forall j | lo <= j < lo + i :: sizes[j] == base + if j - lo < extra then 1 else 0
      invariant forall j | 0 <= j < sizes.Length && (j < lo || lo + ranks <= j) :: sizes[j] == old(sizes[j])
    {
      sizes[lo + i] := base;
      i := i + 1;
    }
  }

  /** Writes the shares of `count` to `sizes[lo..lo + ranks)`. */
  method SpreadCounts(sizes: array<nat>, lo: nat, ranks: nat, count: nat)
    requires 0 < ranks && lo + ranks <= sizes.Length
    modifies sizes
    ensures forall i | lo <= i < lo + ranks :: sizes[i] == Share(ranks, count, i - lo)
    ensures forall i | 0 <= i < sizes.Length && (i < lo || lo + ranks <= i) :: sizes[i] == old(sizes[i])
  {
    var base, extra := Divide(count, ranks);
    WriteShares(sizes, lo, ranks, base, extra);
  }

  /** A work reply: item count, byte count and offsets, then the bytes; or the single integer 0. */
  datatype Packet = Packet(ints: seq<int>, bytes: Item)

  const NO_WORK: Packet := Packet([0], [])

  /** The packet carries exactly these items. */
  ghost predicate Ships(p: Packet, items: seq<Item>) {
    if items == [] then p == NO_WORK else
      exists offsets: seq<nat> :: ShipsAt(p, items, offsets)
  }

  predicate ShipsAt(p: Packet, items: seq<Item>, offsets: seq<nat>) {
    && p.ints == [|offsets|, |p.bytes|] + offsets
    && Packed(offsets, |p.bytes|)
    && Unpack(p.bytes, offsets, |p.bytes|) == items
  }

  /** A packet determines the items it carries. */
  lemma ShipsOneList(p: Packet, a: seq<Item>, b: seq<Item>)
    requires Ships(p, a) && Ships(p, b)
    ensures a == b
  {
    if a != [] && b != [] {
      var x :| ShipsAt(p, a, x);
      var y :| ShipsAt(p, b, y);
      assert p.ints[2..] == x && p.ints[2..] == y;
    }
  }

  /** What is kept below the blocks that were cut off the top, first block first. */
  function Stacked(kept: seq<Item>, blocks: seq<seq<Item>>): seq<Item> {
    if blocks == [] then kept else Stacked(kept, blocks[1..]) + blocks[0]
  }

  lemma {:induction false} StackedAppend(kept: seq<Item>, cut: seq<Item>, blocks: seq<seq<Item>>)
    ensures Stacked(kept, blocks + [cut]) == Stacked(kept + cut, blocks)
  {
    if blocks == [] {
      assert blocks + [cut] == [cut] && [cut][1..] == [];
    } else {
      assert (blocks + [cut])[1..] == blocks[1..] + [cut];
      StackedAppend(kept, cut, blocks[1..]);
    }
  }

  /** Nothing is lost or duplicated by stacking. */
  lemma {:induction false} StackedKeepsItems(kept: seq<Item>, blocks: seq<seq<Item>>)
    ensures multiset(Stacked(kept, blocks)) == multiset(kept) + Union(BlockBags(blocks))
  {
    if blocks == [] {
      assert BlockBags(blocks) == [];
    } else {
      StackedKeepsItems(kept, blocks[1..]);
      UnionHead(BlockBags(blocks));
      assert BlockBags(blocks)[1..] == BlockBags(blocks[1..]);
    }
  }

  function BlockBags(blocks: seq<seq<Item>>): seq<multiset<Item>> {
    seq(|blocks|, i requires 0 <= i < |blocks| => multiset(blocks[i]))
  }

  lemma {:induction false} UnionHead(s: seq<multiset<Item>>)
    requires s != []
    ensures Union(s) == s[0] + Union(s[1..])
  {
    var m := |s| - 1;
    if m == 0 {
      assert s[..0] == [] && s[1..] == [];
    } else {
      UnionHead(s[..m]);
      assert s[..m][1..] == s[1..][..m - 1];
      assert s[1..][m - 1] == s[m];
    }
  }
}
