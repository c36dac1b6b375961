/** The background reduction delivers a correct sum, or is marked invalid. */
module ReduceSum {
  import opened Common
  import opened KaryTree
  import opened Folding
  import opened BackgroundReduce

  function FrameCount(box: seq<Frame>): int {
    if box != [] && box[0].Header? then box[0].count else 0
  }

  function FrameData(box: seq<Frame>): Item {
    if Parses(box) then AnswerData(box) else []
  }

  /** The part of the count each rank is answerable for. */
  ghost function HeldCounts(n: nat, x: Reduction): (s: seq<int>)
    requires Shaped(n, x)
    ensures |s| == n
  {
    seq(n, r requires 0 <= r < n => (if x.out[r] then x.total[r] else 0) + FrameCount(x.up[r]))
  }

  ghost function Snapshots(n: nat, x: Reduction): (s: seq<int>)
    requires Shaped(n, x)
    ensures |s| == n
  {
    seq(n, r requires 0 <= r < n => if x.counted[r].Some? then x.counted[r].value else 0)
  }

  /** The ranks whose user values each rank is answerable for. */
  ghost function HeldRanks(n: nat, x: Reduction): (s: seq<multiset<nat>>)
    requires Shaped(n, x)
    ensures |s| == n
  {
    seq(n, r requires 0 <= r < n => if x.out[r] || x.up[r] != [] then multiset(Ranks(x.built[r])) else multiset{})
  }

  /** The ranks that take part in this round so far. */
  ghost function Takers(given: seq<Option<Item>>): set<nat> {
    set r: nat | r < |given| && given[r].Some?
  }

  ghost function Taking(given: seq<Option<Item>>): multiset<nat> {
    multiset(Takers(given))
  }

  /** The values given so far. */
  function Givens(given: seq<Option<Item>>): (s: seq<Item>)
    ensures |s| == |given|
  {
    seq(|given|, r requires 0 <= r < |given| => if given[r].Some? then given[r].value else [])
  }

  /** `r` comes first, and every other rank comes after its parent. */
  predicate ParentsFirst(s: seq<nat>, k: nat, r: nat)
    requires 0 < k
  {
    && s != [] && s[0] == r
    && forall i | 0 < i < |s| :: s[i] > 0 && Parent(s[i], k) in s[..i]
  }

  /** What `r` holds is the combination it has built, and what it has sent is what it holds. */
  predicate BuiltAt(k: nat, op: Op, x: Reduction, r: nat)
    requires 0 < k && r < |x.given| == |x.built| == |x.acc| == |x.up|
  {
    && (x.given[r].Some? ==>
          && ParentsFirst(Ranks(x.built[r]), k, r)
          && (forall q | q in Ranks(x.built[r]) :: q < |x.given| && x.given[q].Some?)
          && x.acc[r] == Combined(op, Givens(x.given), x.built[r]))
    && (x.up[r] != [] ==> FrameData(x.up[r]) == x.acc[r])
  }

  ghost predicate Built(n: nat, k: nat, op: Op, x: Reduction)
    requires 0 < k && Shaped(n, x)
  {
    forall r: nat | r < n :: BuiltAt(k, op, x, r)
  }

  /** Nothing at `r` is marked invalid. */
  predicate CleanAt(x: Reduction, r: nat)
    requires r < |x.out| == |x.valid| == |x.up|
  {
    (x.out[r] ==> x.valid[r]) && (x.up[r] != [] ==> x.up[r][0].Header? && x.up[r][0].valid)
  }

  /** An invalid mark is on its way to the root, or there already. */
  predicate TaintedAt(x: Reduction, r: nat)
    requires r < |x.out| == |x.valid| == |x.up|
  {
    (x.out[r] && !x.valid[r]) || (x.up[r] != [] && x.up[r][0].Header? && !x.up[r][0].valid)
  }

  ghost predicate Tainted(n: nat, x: Reduction)
    requires Shaped(n, x)
  {
    exists r: nat :: r < n && TaintedAt(x, r)
  }

  predicate HistoryAt(x: Reduction, r: nat)
    requires r < |x.out| == |x.given| == |x.counted|
  {
    && (x.out[r] <==> x.given[r].Some? && x.counted[r].None?)
    && (x.counted[r].Some? ==> x.given[r].Some?)
  }

  predicate HistoryEdge(x: Reduction, c: nat, p: nat)
    requires c < |x.out| == |x.given| == |x.counted| == |x.start| && p < |x.out|
  {
    && (x.given[p].None? ==> x.given[c].None?)
    && (x.counted[p].Some? ==> x.counted[c].Some?)
    && (x.start[c] == 1 ==> x.given[c].None?)
    && (x.out[p] && x.start[c] == 0 ==> x.given[c].Some?)
  }

  ghost predicate History(n: nat, k: nat, x: Reduction)
    requires 0 < k && Shaped(n, x)
  {
    && (forall r: nat | r < n :: CleanAt(x, r) && HistoryAt(x, r))
    && (forall c: nat | 0 < c < n :: HistoryEdge(x, c, Parent(c, k)))
  }

  ghost predicate Balanced(n: nat, x: Reduction)
    requires Shaped(n, x)
  {
    && Sum(HeldCounts(n, x)) == Sum(Snapshots(n, x))
    && Union(HeldRanks(n, x)) == Taking(x.given)
  }

  ghost predicate ReduceInv(n: nat, k: nat, op: Op, x: Reduction) {
    && Framed(n, k, x)
    && (!x.refused ==> History(n, k, x) && Built(n, k, op, x))
    && (!x.refused && x.out[0] ==> Balanced(n, x))
    && (x.refused && x.out[0] ==> Tainted(n, x))
  }

  lemma InitEstablishes(n: nat, k: nat, op: Op, x: Reduction)
    requires 0 < n && 0 < k && Init(n, x)
    ensures ReduceInv(n, k, op, x)
  {
    assert forall c: nat | 0 < c < n :: x.up[c] == [] && x.start[c] == 0;
  }

  /** While the root is idle no other rank can take part, so a step below the root implies a live round. */
  lemma LiveBelow(n: nat, k: nat, x: Reduction, c: nat)
    requires Framed(n, k, x) && 0 < c < n && (x.out[c] || x.start[c] > 0 || x.up[c] != [])
    ensures x.out[0]
  {
    if !x.out[0] { BelowIsIdle(n, k, x, c); }
  }

  lemma RootBeginStartsHistory(n: nat, k: nat, x: Reduction, val: Item)
    requires Framed(n, k, x) && CanBegin(n, x, 0)
    requires forall c: nat | 0 < c < n :: Done(x, c)
    ensures History(n, k, Begin(n, k, x, 0, val))
  {
    var x' := Begin(n, k, x, 0, val);
    forall r: nat | r < n ensures CleanAt(x', r) && HistoryAt(x', r) {
      if r > 0 { assert Done(x, r); }
    }
    forall c: nat | 0 < c < n ensures HistoryEdge(x', c, Parent(c, k)) {
      assert Done(x, c) && (Parent(c, k) > 0 ==> Done(x, Parent(c, k)));
    }
  }

  lemma RootBeginBuilds(n: nat, k: nat, op: Op, x: Reduction, val: Item)
    requires Framed(n, k, x) && CanBegin(n, x, 0)
    requires forall c: nat | 0 < c < n :: Done(x, c)
    ensures Built(n, k, op, Begin(n, k, x, 0, val))
  {
    var x' := Begin(n, k, x, 0, val);
    forall r: nat | r < n ensures BuiltAt(k, op, x', r) {
      if r > 0 { assert Done(x, r); }
    }
  }

  lemma RootBeginBalances(n: nat, k: nat, x: Reduction, val: Item)
    requires Framed(n, k, x) && CanBegin(n, x, 0)
    requires forall c: nat | 0 < c < n :: Done(x, c)
    ensures Balanced(n, Begin(n, k, x, 0, val))
  {
    var x' := Begin(n, k, x, 0, val);
    forall r: nat | r < n
      ensures HeldCounts(n, x')[r] == 0 && HeldRanks(n, x')[r] == if r == 0 then multiset{0} else multiset{}
    {
      if r > 0 { assert Done(x, r); }
    }
    SumOfZeros(HeldCounts(n, x'));
    SumOfZeros(Snapshots(n, x'));
    OnlyFirst(HeldCounts(n, x'), HeldRanks(n, x'));
    assert Taking(x'.given) == multiset{0};
  }

  lemma RootBeginKeeps(n: nat, k: nat, op: Op, x: Reduction, val: Item)
    requires ReduceInv(n, k, op, x) && CanBegin(n, x, 0)
    ensures ReduceInv(n, k, op, Begin(n, k, x, 0, val))
  {
    BeginKeepsFraming(n, k, x, 0, val);
    forall c: nat | 0 < c < n ensures Done(x, c) { BelowIsIdle(n, k, x, c); }
    RootBeginStartsHistory(n, k, x, val);
    RootBeginBuilds(n, k, op, x, val);
    RootBeginBalances(n, k, x, val);
  }

  lemma BeginKeepsHistory(n: nat, k: nat, op: Op, x: Reduction, r: nat, val: Item)
    requires ReduceInv(n, k, op, x) && CanBegin(n, x, r) && r > 0 && !x.refused
    ensures History(n, k, Begin(n, k, x, r, val))
    ensures x.given[r] == None
  {
    var x' := Begin(n, k, x, r, val);
    assert EdgeOk(x, r, Parent(r, k)) && HistoryEdge(x, r, Parent(r, k));
    forall q: nat | q < n ensures CleanAt(x', q) && HistoryAt(x', q) {
      assert CleanAt(x, q) && HistoryAt(x, q);
    }
    assert HistoryAt(x, Parent(r, k));
    forall c: nat | 0 < c < n ensures HistoryEdge(x', c, Parent(c, k)) {
      assert HistoryEdge(x, c, Parent(c, k)) && EdgeOk(x, c, Parent(c, k));
    }
  }

  lemma BeginMoves(n: nat, k: nat, x: Reduction, r: nat, val: Item)
    requires Framed(n, k, x) && CanBegin(n, x, r) && r > 0
    ensures var x' := Begin(n, k, x, r, val);
      && HeldCounts(n, x') == HeldCounts(n, x) && Snapshots(n, x') == Snapshots(n, x)
      && HeldRanks(n, x)[r] == multiset{} && HeldRanks(n, x') == HeldRanks(n, x)[r := multiset{r}]
  {
    assert EdgeOk(x, r, Parent(r, k));
  }

  lemma BeginKeepsBalance(n: nat, k: nat, x: Reduction, r: nat, val: Item)
    requires Framed(n, k, x) && CanBegin(n, x, r) && r > 0 && x.given[r] == None
    requires Balanced(n, x)
    ensures Balanced(n, Begin(n, k, x, r, val))
  {
    BeginMoves(n, k, x, r, val);
    OneMoreTakes(x.given, r, val);
    FillUnion(HeldRanks(n, x), r, multiset{r});
  }

  lemma OneMoreTakes(given: seq<Option<Item>>, r: nat, val: Item)
    requires r < |given| && given[r] == None
    ensures Taking(given[r := Some(val)]) == Taking(given) + multiset{r}
  {
    assert Takers(given[r := Some(val)]) == Takers(given) + {r};
  }

  /** What has been built stays as it is when another rank joins in. */
  lemma JoiningKeepsBuilt(k: nat, op: Op, given: seq<Option<Item>>, r: nat, val: Item, c: Combination)
    requires r < |given| && given[r] == None
    requires forall q | q in Ranks(c) :: q < |given| && given[q].Some?
    ensures forall q | q in Ranks(c) :: given[r := Some(val)][q].Some?
    ensures Combined(op, Givens(given[r := Some(val)]), c) == Combined(op, Givens(given), c)
  {
    CombinedFrame(op, Givens(given), Givens(given[r := Some(val)]), c);
  }

  lemma BeginKeepsBuilt(n: nat, k: nat, op: Op, x: Reduction, r: nat, val: Item)
    requires Framed(n, k, x) && Built(n, k, op, x) && CanBegin(n, x, r) && r > 0 && x.given[r] == None
    ensures Built(n, k, op, Begin(n, k, x, r, val))
  {
    var x' := Begin(n, k, x, r, val);
    assert EdgeOk(x, r, Parent(r, k));
    forall q: nat | q < n ensures BuiltAt(k, op, x', q) {
      assert BuiltAt(k, op, x, q);
      if q != r && x.given[q].Some? { JoiningKeepsBuilt(k, op, x.given, r, val, x.built[q]); }
    }
  }

  lemma BeginKeeps(n: nat, k: nat, op: Op, x: Reduction, r: nat, val: Item)
    requires ReduceInv(n, k, op, x) && CanBegin(n, x, r) && r > 0
    ensures ReduceInv(n, k, op, Begin(n, k, x, r, val))
  {
    var x' := Begin(n, k, x, r, val);
    BeginKeepsFraming(n, k, x, r, val);
    LiveBelow(n, k, x, r);
    assert EdgeOk(x, r, Parent(r, k));
    if x.refused {
      var w: nat :| w < n && TaintedAt(x, w);
      assert TaintedAt(x', w);
    } else {
      BeginKeepsHistory(n, k, op, x, r, val);
      BeginKeepsBuilt(n, k, op, x, r, val);
      BeginKeepsBalance(n, k, x, r, val);
    }
  }

  lemma RefuseKeeps(n: nat, k: nat, op: Op, x: Reduction, r: nat)
    requires ReduceInv(n, k, op, x) && CanRefuse(n, x, r)
    ensures ReduceInv(n, k, op, Refuse(n, x, r))
  {
    var x' := Refuse(n, x, r);
    RefuseKeepsFraming(n, k, x, r);
    assert EdgeOk(x, r, Parent(r, k));
    assert TaintedAt(x', r);
  }

  lemma GatherKeepsHistory(n: nat, k: nat, op: Op, x: Reduction, p: nat, c: nat)
    requires ReduceInv(n, k, op, x) && CanGather(n, k, x, p, c) && Parses(x.up[c]) && !x.refused
    ensures History(n, k, Gather(n, k, x, op, p, c))
  {
    var x' := Gather(n, k, x, op, p, c);
    NeverMisread(n, k, x, p, c);
    assert CleanAt(x, c);
    forall q: nat | q < n ensures CleanAt(x', q) && HistoryAt(x', q) {
      assert CleanAt(x, q) && HistoryAt(x, q);
    }
    forall d: nat | 0 < d < n ensures HistoryEdge(x', d, Parent(d, k)) {
      assert HistoryEdge(x, d, Parent(d, k));
    }
  }

  /** What gathering does to the fields in a round that nobody has refused. */
  ghost predicate TakenOver(n: nat, op: Op, x: Reduction, x': Reduction, p: nat, c: nat)
    requires Shaped(n, x) && p < n && c < n
  {
    && Shaped(n, x') && x'.out == x.out && x'.up == x.up[c := []] && x'.given == x.given && x'.counted == x.counted
    && x'.total == x.total[p := x.total[p] + FrameCount(x.up[c])]
    && x'.built == x.built[p := Joined(x.built[p], x.built[c])]
    && x'.acc == x.acc[p := op(x.acc[p], FrameData(x.up[c]))]
  }

  lemma GatherTakesOver(n: nat, k: nat, op: Op, x: Reduction, p: nat, c: nat)
    requires Framed(n, k, x) && CanGather(n, k, x, p, c) && Parses(x.up[c])
    requires CleanAt(x, c) && CleanAt(x, p)
    ensures TakenOver(n, op, x, Gather(n, k, x, op, p, c), p, c)
    ensures p < n && p != c && x.out[p] && x.up[p] == [] && !x.out[c] && x.up[c] != []
  {
    NeverMisread(n, k, x, p, c);
    assert EdgeOk(x, c, p);
    if p > 0 { assert EdgeOk(x, p, Parent(p, k)); }
  }

  /** Moving one entry into another changes neither the sum nor the union. */
  lemma MovedCount(h: seq<int>, h': seq<int>, p: nat, c: nat)
    requires p < |h| && c < |h| && p != c && h' == h[p := h[p] + h[c]][c := 0]
    ensures Sum(h') == Sum(h)
  {
    SumUpdate(h, p, h[p] + h[c]);
    SumUpdate(h[p := h[p] + h[c]], c, 0);
  }

  lemma MovedRanks(v: seq<multiset<nat>>, v': seq<multiset<nat>>, p: nat, c: nat)
    requires p < |v| && c < |v| && p != c && v' == v[p := v[p] + v[c]][c := multiset{}]
    ensures Union(v') == Union(v)
  {
    assert v' == v[c := v'[c]][p := v'[p]];
    MoveKeepsUnion(v, v', c, p, v[c]);
  }

  lemma GatherKeepsSum(n: nat, op: Op, x: Reduction, x': Reduction, p: nat, c: nat)
    requires Shaped(n, x) && p < n && c < n && p != c && TakenOver(n, op, x, x', p, c)
    requires x.out[p] && x.up[p] == [] && !x.out[c]
    ensures Sum(HeldCounts(n, x')) == Sum(HeldCounts(n, x)) && Snapshots(n, x') == Snapshots(n, x)
  {
    MovedCount(HeldCounts(n, x), HeldCounts(n, x'), p, c);
  }

  lemma GatherKeepsUnion(n: nat, op: Op, x: Reduction, x': Reduction, p: nat, c: nat)
    requires Shaped(n, x) && p < n && c < n && p != c && TakenOver(n, op, x, x', p, c)
    requires x.out[p] && !x.out[c] && x.up[c] != []
    ensures Union(HeldRanks(n, x')) == Union(HeldRanks(n, x))
  {
    MovedRanks(HeldRanks(n, x), HeldRanks(n, x'), p, c);
  }

  lemma GatherKeepsBalance(n: nat, k: nat, op: Op, x: Reduction, p: nat, c: nat)
    requires Framed(n, k, x) && CanGather(n, k, x, p, c) && Parses(x.up[c])
    requires CleanAt(x, c) && CleanAt(x, p) && Balanced(n, x)
    ensures Balanced(n, Gather(n, k, x, op, p, c))
  {
    GatherTakesOver(n, k, op, x, p, c);
    GatherKeepsSum(n, op, x, Gather(n, k, x, op, p, c), p, c);
    GatherKeepsUnion(n, op, x, Gather(n, k, x, op, p, c), p, c);
  }

  /** Appending a child's order to its parent's keeps every parent ahead of its children. */
  lemma ParentsStayFirst(a: seq<nat>, b: seq<nat>, k: nat, p: nat, c: nat)
    requires 0 < k && 0 < c && Parent(c, k) == p && ParentsFirst(a, k, p) && ParentsFirst(b, k, c)
    ensures ParentsFirst(a + b, k, p)
  {
    var s := a + b;
    forall i | 0 < i < |s| ensures s[i] > 0 && Parent(s[i], k) in s[..i] {
      if i < |a| {
        assert s[..i] == a[..i];
      } else {
        assert s[..i] == a + b[..i - |a|];
        assert a[0] in a;
      }
    }
  }

  /** The parent takes over what the child has built. */
  lemma JoinedIsBuilt(n: nat, k: nat, op: Op, x: Reduction, x': Reduction, p: nat, c: nat)
    requires 0 < k && Shaped(n, x) && 0 < c < n && p == Parent(c, k) && TakenOver(n, op, x, x', p, c)
    requires x.given[c].Some? && x.up[c] != [] && x.up[p] == [] && BuiltAt(k, op, x, p) && BuiltAt(k, op, x, c)
    requires x.given[p].Some?
    ensures BuiltAt(k, op, x', p)
  {
    ParentsStayFirst(Ranks(x.built[p]), Ranks(x.built[c]), k, p, c);
  }

  lemma GatherKeepsBuilt(n: nat, k: nat, op: Op, x: Reduction, p: nat, c: nat)
    requires Framed(n, k, x) && History(n, k, x) && Built(n, k, op, x)
    requires CanGather(n, k, x, p, c) && Parses(x.up[c])
    ensures Built(n, k, op, Gather(n, k, x, op, p, c))
  {
    var x' := Gather(n, k, x, op, p, c);
    assert CleanAt(x, c) && CleanAt(x, p) && HistoryAt(x, p) && HistoryEdge(x, c, p) && EdgeOk(x, c, p);
    GatherTakesOver(n, k, op, x, p, c);
    forall q: nat | q < n ensures BuiltAt(k, op, x', q) {
      assert BuiltAt(k, op, x, q) && BuiltAt(k, op, x, c);
      if q == p { JoinedIsBuilt(n, k, op, x, x', p, c); }
    }
  }

  lemma GatherKeeps(n: nat, k: nat, op: Op, x: Reduction, p: nat, c: nat)
    requires ReduceInv(n, k, op, x) && CanGather(n, k, x, p, c) && Parses(x.up[c])
    ensures ReduceInv(n, k, op, Gather(n, k, x, op, p, c))
  {
    var x' := Gather(n, k, x, op, p, c);
    GatherKeepsFraming(n, k, x, op, p, c);
    LiveBelow(n, k, x, c);
    if x.refused {
      var w: nat :| w < n && TaintedAt(x, w);
      assert EdgeOk(x, c, p);
      assert TaintedAt(x', if w == c then p else w);
    } else {
      GatherKeepsHistory(n, k, op, x, p, c);
      GatherKeepsBuilt(n, k, op, x, p, c);
      assert CleanAt(x, c) && CleanAt(x, p);
      GatherKeepsBalance(n, k, op, x, p, c);
    }
  }

  lemma ReplyKeepsHistory(n: nat, k: nat, op: Op, x: Reduction, r: nat, count: int)
    requires ReduceInv(n, k, op, x) && CanReply(n, k, x, r) && !x.refused
    ensures History(n, k, Reply(n, k, x, r, count))
  {
    var x' := Reply(n, k, x, r, count);
    AllChildrenDone(n, k, x, r);
    if r > 0 { assert EdgeOk(x, r, Parent(r, k)); }
    forall q: nat | q < n ensures CleanAt(x', q) && HistoryAt(x', q) {
      assert CleanAt(x, q) && HistoryAt(x, q);
    }
    forall d: nat | 0 < d < n ensures HistoryEdge(x', d, Parent(d, k)) {
      assert HistoryEdge(x, d, Parent(d, k)) && HistoryAt(x, d) && HistoryAt(x, r);
    }
  }

  lemma ReplyMoves(n: nat, k: nat, x: Reduction, r: nat, count: int)
    requires Framed(n, k, x) && CanReply(n, k, x, r) && r > 0 && HistoryAt(x, r) && CleanAt(x, r)
    ensures var x' := Reply(n, k, x, r, count); var h := HeldCounts(n, x);
      && HeldCounts(n, x') == h[r := h[r] + count]
      && Snapshots(n, x)[r] == 0 && Snapshots(n, x') == Snapshots(n, x)[r := count]
      && HeldRanks(n, x') == HeldRanks(n, x)
  {
    assert EdgeOk(x, r, Parent(r, k));
  }

  /** What a rank sends up is what it holds. */
  lemma ReplyKeepsBuilt(n: nat, k: nat, op: Op, x: Reduction, r: nat, count: int)
    requires Framed(n, k, x) && History(n, k, x) && Built(n, k, op, x) && CanReply(n, k, x, r)
    ensures Built(n, k, op, Reply(n, k, x, r, count))
  {
    var x' := Reply(n, k, x, r, count);
    assert CleanAt(x, r);
    if r > 0 { assert EdgeOk(x, r, Parent(r, k)); }
    forall q: nat | q < n ensures BuiltAt(k, op, x', q) { assert BuiltAt(k, op, x, q); }
  }

  lemma ReplyKeepsBalance(n: nat, k: nat, x: Reduction, r: nat, count: int)
    requires Framed(n, k, x) && CanReply(n, k, x, r) && r > 0 && HistoryAt(x, r) && CleanAt(x, r)
    requires Balanced(n, x)
    ensures Balanced(n, Reply(n, k, x, r, count))
  {
    ReplyMoves(n, k, x, r, count);
    var h := HeldCounts(n, x);
    SumUpdate(h, r, h[r] + count);
    SumUpdate(Snapshots(n, x), r, count);
  }

  lemma ReplyKeeps(n: nat, k: nat, op: Op, x: Reduction, r: nat, count: int)
    requires ReduceInv(n, k, op, x) && CanReply(n, k, x, r)
    ensures ReduceInv(n, k, op, Reply(n, k, x, r, count))
  {
    var x' := Reply(n, k, x, r, count);
    ReplyKeepsFraming(n, k, x, r, count);
    if !x.refused {
      ReplyKeepsHistory(n, k, op, x, r, count);
      ReplyKeepsBuilt(n, k, op, x, r, count);
    }
    if r > 0 {
      LiveBelow(n, k, x, r);
      assert EdgeOk(x, r, Parent(r, k));
      if x.refused {
        var w: nat :| w < n && TaintedAt(x, w);
        assert TaintedAt(x', w);
      } else {
        assert HistoryAt(x, r) && CleanAt(x, r);
        ReplyKeepsBalance(n, k, x, r, count);
      }
    }
  }

  /** Every rank took part in this round exactly once. */
  ghost predicate EveryoneCounted(n: nat, x: Reduction)
    requires Shaped(n, x)
  {
    forall r: nat | r < n :: x.counted[r].Some? && x.given[r].Some?
  }

  ghost function Counts(n: nat, x: Reduction): seq<int>
    requires Shaped(n, x) && EveryoneCounted(n, x)
  {
    seq(n, r requires 0 <= r < n => x.counted[r].value)
  }

  ghost function Values(n: nat, x: Reduction): seq<Item>
    requires Shaped(n, x) && EveryoneCounted(n, x)
  {
    seq(n, r requires 0 <= r < n => x.given[r].value)
  }

  /** The list names every rank once, each after its parent. */
  predicate InTreeOrder(n: nat, k: nat, s: seq<nat>)
    requires 0 < k
  {
    multiset(s) == multiset(UpTo(n)) && ParentsFirst(s, k, 0)
  }

  /**
   * When the root completes, its data is valid exactly when nobody answered from clean-up;
   * then its total is the sum of one snapshot per rank, and its buffer combines the initial
   * values of all ranks, each once and after its parent's.  How they are grouped and in which order
   * they come makes no difference for an operation that is associative, or commutative as well.
   */
  lemma RootResult(n: nat, k: nat, op: Op, x: Reduction, count: int)
    requires ReduceInv(n, k, op, x) && CanReply(n, k, x, 0)
    ensures x.valid[0] <==> !x.refused
    ensures x.valid[0] ==>
      var x' := Reply(n, k, x, 0, count);
      && EveryoneCounted(n, x') && x'.counted[0] == Some(count)
      && x'.total[0] == Sum(Counts(n, x'))
      && InTreeOrder(n, k, Ranks(x'.built[0]))
      && x'.acc[0] == Combined(op, Values(n, x'), x'.built[0])
      && (Associative(op) ==> x'.acc[0] == Fold(op, Pick(Values(n, x'), [], Ranks(x'.built[0]))))
      && (Associative(op) && Commutative(op) ==> x'.acc[0] == Fold(op, Values(n, x')))
  {
    RootValidity(n, k, op, x);
    if !x.refused {
      RootCounts(n, k, op, x, count);
      RootHasCombined(n, k, op, x);
      var x' := Reply(n, k, x, 0, count);
      assert Values(n, x') == Givens(x.given);
      OrderIsImmaterial(op, Values(n, x'), x.built[0]);
    }
  }

  lemma RootValidity(n: nat, k: nat, op: Op, x: Reduction)
    requires ReduceInv(n, k, op, x) && CanReply(n, k, x, 0)
    ensures x.valid[0] <==> !x.refused
  {
    if x.refused {
      var w: nat :| w < n && TaintedAt(x, w);
      if w > 0 { BelowIsIdle(n, k, x, w); }
    } else {
      assert CleanAt(x, 0);
    }
  }

  lemma RootCounts(n: nat, k: nat, op: Op, x: Reduction, count: int)
    requires ReduceInv(n, k, op, x) && CanReply(n, k, x, 0) && !x.refused
    ensures var x' := Reply(n, k, x, 0, count);
      EveryoneCounted(n, x') && x'.counted[0] == Some(count) && x'.total[0] == Sum(Counts(n, x'))
  {
    RootHoldsAll(n, k, x);
    var x' := Reply(n, k, x, 0, count);
    assert HistoryAt(x, 0);
    forall c: nat | c < n ensures x'.counted[c].Some? && x'.given[c].Some? {
      if c > 0 { Participates(n, k, op, x, c); }
    }
    SumUpdate(Snapshots(n, x), 0, count);
    assert Snapshots(n, x)[0 := count] == Counts(n, x');
  }

  /** What the root has built, once everyone takes part. */
  lemma RootHasCombined(n: nat, k: nat, op: Op, x: Reduction)
    requires ReduceInv(n, k, op, x) && CanReply(n, k, x, 0) && !x.refused
    requires forall c: nat | c < n :: x.given[c].Some?
    ensures InTreeOrder(n, k, Ranks(x.built[0])) && x.acc[0] == Combined(op, Givens(x.given), x.built[0])
  {
    assert BuiltAt(k, op, x, 0);
    RootHoldsAll(n, k, x);
    EveryoneTakes(n, x.given);
  }

  lemma EveryoneTakes(n: nat, given: seq<Option<Item>>)
    requires |given| == n && forall c: nat | c < n :: given[c].Some?
    ensures Taking(given) == multiset(UpTo(n))
  {
    forall e: nat ensures Taking(given)[e] == multiset(UpTo(n))[e] { UpToOnce(n, e); }
  }

  lemma OrderIsImmaterial(op: Op, vals: seq<Item>, c: Combination)
    requires vals != [] && multiset(Ranks(c)) == multiset(UpTo(|vals|))
    ensures Associative(op) ==> Combined(op, vals, c) == Fold(op, Pick(vals, [], Ranks(c)))
    ensures Associative(op) && Commutative(op) ==> Combined(op, vals, c) == Fold(op, vals)
  {
    if Associative(op) {
      CombinedIsFold(op, vals, c);
      if Commutative(op) {
        FoldReordering(op, vals, Ranks(c), UpTo(|vals|));
        assert Pick(vals, [], UpTo(|vals|)) == vals;
      }
    }
  }

  lemma RootHoldsAll(n: nat, k: nat, x: Reduction)
    requires Framed(n, k, x) && CanReply(n, k, x, 0)
    ensures Sum(HeldCounts(n, x)) == x.total[0]
    ensures Union(HeldRanks(n, x)) == multiset(Ranks(x.built[0]))
  {
    forall c: nat | 0 < c < n ensures HeldCounts(n, x)[c] == 0 && HeldRanks(n, x)[c] == multiset{} {
      BelowIsIdle(n, k, x, c);
    }
    OnlyFirst(HeldCounts(n, x), HeldRanks(n, x));
  }

  lemma {:induction false} OnlyFirst(s: seq<int>, v: seq<multiset<nat>>)
    requires |s| == |v| > 0
    requires forall i: nat | 0 < i < |s| :: s[i] == 0 && v[i] == multiset{}
    ensures Sum(s) == s[0] && Union(v) == v[0]
  {
    var m := |s| - 1;
    if m == 0 {
      assert Sum(s[..0]) == 0 && Union(v[..0]) == multiset{};
    } else {
      OnlyFirst(s[..m], v[..m]);
    }
  }

  lemma {:induction false} Participates(n: nat, k: nat, op: Op, x: Reduction, c: nat)
    requires ReduceInv(n, k, op, x) && CanReply(n, k, x, 0) && !x.refused && 0 < c < n
    ensures x.counted[c].Some? && x.given[c].Some?
  {
    var p := Parent(c, k);
    BelowIsIdle(n, k, x, c);
    assert HistoryEdge(x, c, p) && HistoryAt(x, c);
    if p > 0 { Participates(n, k, op, x, p); }
  }
}
