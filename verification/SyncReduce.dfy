/**
 * The final reduction as an exchange of messages: each rank enters it when it leaves the barrier, waits
 * for its children one after the other and sends its result to its parent.
 */
module SyncReduce {
  import opened Common
  import opened KaryTree
  import opened Folding
  import opened FinalReduce
  import D = BackgroundReduce

  /** What every rank contributes: its count, and the value its init callback supplies. */
  datatype Input = Input(counts: seq<int>, vals: seq<Item>)

  datatype Sync = Sync(
    begun: seq<bool>,
    heard: seq<nat>,             // children received from so far, in the order of the child list
    total: seq<int>,             // local_reduce_buf[1]
    acc: seq<Item>,              // reduce_buf
    done: seq<bool>,             // has sent its result, or delivered it at the root
    up: seq<seq<D.Frame>>)       // up[c]: frames in flight from c to its parent

  datatype SyncStep = SyncBegin(r: nat) | SyncHear(r: nat) | SyncEnd(r: nat)

  ghost predicate SyncShaped(n: nat, x: Sync) {
    |x.begun| == |x.heard| == |x.total| == |x.acc| == |x.done| == |x.up| == n
  }

  predicate Inputs(n: nat, v: Input) {
    0 < n && |v.counts| == |v.vals| == n
  }

  function SyncStart(n: nat): Sync {
    Sync(seq(n, _ => false), seq(n, _ => 0), seq(n, _ => 0), seq(n, _ => []), seq(n, _ => false), seq(n, _ => []))
  }

  /** The child a rank waits for next. */
  function NextChild(k: nat, x: Sync, r: nat): nat
    requires r < |x.heard|
  {
    r * k + 1 + x.heard[r]
  }

  ghost predicate SyncEnabled(n: nat, k: nat, x: Sync, a: SyncStep) {
    && SyncShaped(n, x) && 0 < k
    && match a
       case SyncBegin(r) => r < n && !x.begun[r]
       case SyncHear(r) =>
         && r < n && x.begun[r] && !x.done[r] && x.heard[r] < ChildCount(r, k, n)
         && NextChild(k, x, r) < n && D.Parses(x.up[NextChild(k, x, r)])
       case SyncEnd(r) => r < n && x.begun[r] && !x.done[r] && x.heard[r] == ChildCount(r, k, n)
  }

  ghost function SyncApply(n: nat, k: nat, op: Op, v: Input, x: Sync, a: SyncStep): (x': Sync)
    requires Inputs(n, v) && SyncEnabled(n, k, x, a)
    ensures SyncShaped(n, x')
  {
    match a
    case SyncBegin(r) =>
      x.(begun := x.begun[r := true], total := x.total[r := v.counts[r]], acc := x.acc[r := v.vals[r]])
    case SyncHear(r) =>
      var c := NextChild(k, x, r);
      var box := x.up[c];
      x.(heard := x.heard[r := x.heard[r] + 1],
         total := x.total[r := x.total[r] + box[0].count],
         acc := x.acc[r := op(x.acc[r], D.AnswerData(box))],
         up := x.up[c := box[if D.ExpectsBody(box[0]) then 2 else 1..]])
    case SyncEnd(r) =>
      x.(done := x.done[r := true],
         up := if r == 0 then x.up else x.up[r := x.up[r] + D.Frames(true, x.total[r], x.acc[r])])
  }

  // ---------------------------------------------------------------- invariant

  /** The parent of `c` has received its result. */
  predicate HeardFrom(k: nat, x: Sync, c: nat)
    requires 0 < c && 0 < k && c < |x.heard|
  {
    c < NextChild(k, x, Parent(c, k))
  }

  /** What a rank sends when it is done. */
  function Answer(op: Op, v: Input, k: nat, r: nat): seq<D.Frame>
    requires 0 < k && r < |v.counts| == |v.vals|
  {
    D.Frames(true, SyncCount(v.counts, r, k), SyncValue(op, v.vals, r, k))
  }

  /** The channel from `c` holds its answer from when it is done until its parent has it. */
  predicate WireAt(op: Op, v: Input, k: nat, x: Sync, c: nat)
    requires 0 < k && c < |v.counts| == |v.vals| == |x.heard| == |x.done| == |x.up|
  {
    && (c == 0 ==> x.up[c] == [])
    && (c > 0 ==>
          && (HeardFrom(k, x, c) ==> x.done[c])
          && x.up[c] == if x.done[c] && !HeardFrom(k, x, c) then Answer(op, v, k, c) else [])
  }

  /** A rank that has begun holds its own input combined with what it has heard. */
  predicate HoldsAt(op: Op, v: Input, k: nat, x: Sync, r: nat)
    requires 0 < k && r < |v.counts| == |v.vals|
    requires r < |x.begun| == |x.heard| == |x.total| == |x.acc| == |x.done|
  {
    && x.heard[r] <= ChildCount(r, k, |v.counts|)
    && (!x.begun[r] ==> x.heard[r] == 0 && !x.done[r])
    && (x.done[r] ==> x.heard[r] == ChildCount(r, k, |v.counts|))
    && (x.begun[r] ==>
          && |ChildCounts(v.counts, r, k)| == |ChildValues(op, v.vals, r, k)| == ChildCount(r, k, |v.counts|)
          && x.total[r] == v.counts[r] + Sum(ChildCounts(v.counts, r, k)[..x.heard[r]])
          && x.acc[r] == CombineInOrder(op, v.vals[r], ChildValues(op, v.vals, r, k)[..x.heard[r]]))
  }

  ghost predicate SyncInv(n: nat, k: nat, op: Op, v: Input, x: Sync) {
    && 0 < k && Inputs(n, v) && SyncShaped(n, x)
    && (forall r: nat | r < n :: HoldsAt(op, v, k, x, r))
    && (forall c: nat | c < n :: WireAt(op, v, k, x, c))
  }

  lemma StartHolds(n: nat, k: nat, op: Op, v: Input)
    requires 0 < k && Inputs(n, v)
    ensures SyncInv(n, k, op, v, SyncStart(n))
  {
    var x := SyncStart(n);
    forall c: nat | c < n ensures WireAt(op, v, k, x, c) {
      if c > 0 { ParentBracket(c, k, Parent(c, k)); }
    }
  }

  /** The next child of a rank that misses some is its child, and it has not heard from it. */
  lemma NextIsChild(n: nat, k: nat, x: Sync, r: nat)
    requires 0 < k && SyncShaped(n, x) && r < n && x.heard[r] < ChildCount(r, k, n)
    ensures var c := NextChild(k, x, r); 0 < c < n && Parent(c, k) == r && !HeardFrom(k, x, c)
  {
    FirstChildIsLarger(r, k, n);
    ParentBracket(NextChild(k, x, r), k, r);
  }

  /** The entries of a rank's children in the list of results. */
  lemma ChildResult(n: nat, k: nat, op: Op, v: Input, r: nat, i: nat)
    requires 0 < k && Inputs(n, v) && r < n && i < ChildCount(r, k, n)
    ensures r * k + 1 + i < n
    ensures |ChildCounts(v.counts, r, k)| == |ChildValues(op, v.vals, r, k)| == ChildCount(r, k, n)
    ensures ChildCounts(v.counts, r, k)[i] == SyncCount(v.counts, r * k + 1 + i, k)
    ensures ChildValues(op, v.vals, r, k)[i] == SyncValue(op, v.vals, r * k + 1 + i, k)
  {
    FirstChildIsLarger(r, k, n);
  }

  lemma SumNext(s: seq<int>, i: nat)
    requires i < |s|
    ensures Sum(s[..i + 1]) == Sum(s[..i]) + s[i]
  {
    assert s[..i + 1][..i] == s[..i];
  }

  lemma CombineNext(op: Op, acc: Item, s: seq<Item>, i: nat)
    requires i < |s|
    ensures CombineInOrder(op, acc, s[..i + 1]) == op(CombineInOrder(op, acc, s[..i]), s[i])
  {
    assert s[..i + 1][..i] == s[..i];
  }

  /** An answer as sent is read back as it was meant. */
  lemma AnswerReads(count: int, data: Item)
    ensures var box := D.Frames(true, count, data);
      && D.Parses(box) && box[0].count == count && D.AnswerData(box) == data
      && box[if D.ExpectsBody(box[0]) then 2 else 1..] == []
  {
  }

  /** A rank that has heard from all its children holds its own result. */
  lemma FullHoldsResult(n: nat, k: nat, op: Op, v: Input, x: Sync, r: nat)
    requires SyncInv(n, k, op, v, x) && r < n && x.begun[r] && x.heard[r] == ChildCount(r, k, n)
    ensures x.total[r] == SyncCount(v.counts, r, k) && x.acc[r] == SyncValue(op, v.vals, r, k)
  {
    assert HoldsAt(op, v, k, x, r);
    var cc, cv := ChildCounts(v.counts, r, k), ChildValues(op, v.vals, r, k);
    assert cc[..x.heard[r]] == cc && cv[..x.heard[r]] == cv;
    LoopComputesCount(v.counts, r, k);
    LoopComputesResult(op, v.vals, r, k);
  }

  // ---------------------------------------------------------------- steps keep it

  lemma BeginHolds(n: nat, k: nat, op: Op, v: Input, x: Sync, r: nat)
    requires SyncInv(n, k, op, v, x) && SyncEnabled(n, k, x, SyncBegin(r))
    ensures SyncInv(n, k, op, v, SyncApply(n, k, op, v, x, SyncBegin(r)))
  {
    var x' := SyncApply(n, k, op, v, x, SyncBegin(r));
    forall q: nat | q < n ensures HoldsAt(op, v, k, x', q) {
      assert HoldsAt(op, v, k, x, q);
      if q == r { ChildListsAreFull(n, k, op, v, r); }
    }
    forall c: nat | c < n ensures WireAt(op, v, k, x', c) { assert WireAt(op, v, k, x, c); }
  }

  lemma ChildListsAreFull(n: nat, k: nat, op: Op, v: Input, r: nat)
    requires 0 < k && Inputs(n, v) && r < n
    ensures |ChildCounts(v.counts, r, k)| == |ChildValues(op, v.vals, r, k)| == ChildCount(r, k, n)
    ensures Sum(ChildCounts(v.counts, r, k)[..0]) == 0
    ensures CombineInOrder(op, v.vals[r], ChildValues(op, v.vals, r, k)[..0]) == v.vals[r]
  {
    if ChildCount(r, k, n) > 0 { FirstChildIsLarger(r, k, n); }
  }

  /** What is on the wire when a rank receives from its next child. */
  lemma HearsAnswer(n: nat, k: nat, op: Op, v: Input, x: Sync, r: nat)
    requires SyncInv(n, k, op, v, x) && SyncEnabled(n, k, x, SyncHear(r))
    ensures var c := NextChild(k, x, r);
      0 < c < n && Parent(c, k) == r && x.done[c] && !HeardFrom(k, x, c) && x.up[c] == Answer(op, v, k, c)
  {
    NextIsChild(n, k, x, r);
    assert WireAt(op, v, k, x, NextChild(k, x, r));
  }

  lemma HearEffect(n: nat, k: nat, op: Op, v: Input, x: Sync, r: nat)
    requires SyncInv(n, k, op, v, x) && SyncEnabled(n, k, x, SyncHear(r))
    ensures var c := NextChild(k, x, r);
      SyncApply(n, k, op, v, x, SyncHear(r)) ==
        x.(heard := x.heard[r := x.heard[r] + 1],
           total := x.total[r := x.total[r] + SyncCount(v.counts, c, k)],
           acc := x.acc[r := op(x.acc[r], SyncValue(op, v.vals, c, k))],
           up := x.up[c := []])
  {
    HearsAnswer(n, k, op, v, x, r);
    var c := NextChild(k, x, r);
    AnswerReads(SyncCount(v.counts, c, k), SyncValue(op, v.vals, c, k));
  }

  lemma HearHoldsAt(n: nat, k: nat, op: Op, v: Input, x: Sync, x': Sync, r: nat)
    requires SyncInv(n, k, op, v, x) && r < n && x.begun[r] && !x.done[r] && x.heard[r] < ChildCount(r, k, n)
    requires SyncShaped(n, x') && NextChild(k, x, r) < n && x'.begun == x.begun && x'.done == x.done
    requires x'.heard[r] == x.heard[r] + 1
    requires x'.total[r] == x.total[r] + SyncCount(v.counts, NextChild(k, x, r), k)
    requires x'.acc[r] == op(x.acc[r], SyncValue(op, v.vals, NextChild(k, x, r), k))
    ensures HoldsAt(op, v, k, x', r)
  {
    assert HoldsAt(op, v, k, x, r);
    ChildResult(n, k, op, v, r, x.heard[r]);
    SumNext(ChildCounts(v.counts, r, k), x.heard[r]);
    CombineNext(op, v.vals[r], ChildValues(op, v.vals, r, k), x.heard[r]);
  }

  /** Exactly the channel that has been read changes its state. */
  lemma HearWires(n: nat, k: nat, op: Op, v: Input, x: Sync, x': Sync, r: nat, c: nat)
    requires SyncInv(n, k, op, v, x) && SyncShaped(n, x') && r < n && x.heard[r] < ChildCount(r, k, n) && c < n
    requires NextChild(k, x, r) < n && x.done[NextChild(k, x, r)]
    requires x'.heard == x.heard[r := x.heard[r] + 1] && x'.up == x.up[NextChild(k, x, r) := []] && x'.done == x.done
    ensures WireAt(op, v, k, x', c)
  {
    NextIsChild(n, k, x, r);
    assert WireAt(op, v, k, x, c);
  }

  lemma HearHolds(n: nat, k: nat, op: Op, v: Input, x: Sync, r: nat)
    requires SyncInv(n, k, op, v, x) && SyncEnabled(n, k, x, SyncHear(r))
    ensures SyncInv(n, k, op, v, SyncApply(n, k, op, v, x, SyncHear(r)))
  {
    var x' := SyncApply(n, k, op, v, x, SyncHear(r));
    HearsAnswer(n, k, op, v, x, r);
    HearEffect(n, k, op, v, x, r);
    HearHoldsAt(n, k, op, v, x, x', r);
    forall q: nat | q < n ensures HoldsAt(op, v, k, x', q) { assert HoldsAt(op, v, k, x, q); }
    forall c: nat | c < n ensures WireAt(op, v, k, x', c) { HearWires(n, k, op, v, x, x', r, c); }
  }

  lemma EndHolds(n: nat, k: nat, op: Op, v: Input, x: Sync, r: nat)
    requires SyncInv(n, k, op, v, x) && SyncEnabled(n, k, x, SyncEnd(r))
    ensures SyncInv(n, k, op, v, SyncApply(n, k, op, v, x, SyncEnd(r)))
  {
    var x' := SyncApply(n, k, op, v, x, SyncEnd(r));
    FullHoldsResult(n, k, op, v, x, r);
    forall q: nat | q < n ensures HoldsAt(op, v, k, x', q) { assert HoldsAt(op, v, k, x, q); }
    assert [] + Answer(op, v, k, r) == Answer(op, v, k, r);
    forall c: nat | c < n ensures WireAt(op, v, k, x', c) { assert WireAt(op, v, k, x, c); }
  }

  lemma SyncStepHolds(n: nat, k: nat, op: Op, v: Input, x: Sync, a: SyncStep)
    requires SyncInv(n, k, op, v, x) && SyncEnabled(n, k, x, a)
    ensures SyncInv(n, k, op, v, SyncApply(n, k, op, v, x, a))
  {
    match a
    case SyncBegin(r) => BeginHolds(n, k, op, v, x, r);
    case SyncHear(r) => HearHolds(n, k, op, v, x, r);
    case SyncEnd(r) => EndHolds(n, k, op, v, x, r);
  }

  // ---------------------------------------------------------------- results and progress

  /** What the root delivers is the sum of all counts and the fold of all values in preorder. */
  lemma RootDelivers(n: nat, k: nat, op: Op, v: Input, x: Sync)
    requires SyncInv(n, k, op, v, x) && x.done[0]
    ensures x.total[0] == Sum(v.counts) && x.acc[0] == SyncValue(op, v.vals, 0, k)
    ensures Associative(op) ==> x.acc[0] == Fold(op, Pick(v.vals, [], Preorder(0, k, n)))
  {
    assert HoldsAt(op, v, k, x, 0);
    FullHoldsResult(n, k, op, v, x, 0);
    RootCountIsTotal(v.counts, k);
    if Associative(op) { ValueIsPreorderFold(op, v.vals, 0, k); }
  }

  /** Until it has its result, a rank that may begin, or some rank below it, can take the next step. */
  lemma {:induction false} SyncMoves(n: nat, k: nat, op: Op, v: Input, x: Sync, r: nat) returns (a: SyncStep)
    requires SyncInv(n, k, op, v, x) && r < n && !x.done[r]
    ensures SyncEnabled(n, k, x, a)
    decreases n - r
  {
    assert HoldsAt(op, v, k, x, r);
    if !x.begun[r] {
      a := SyncBegin(r);
    } else if x.heard[r] == ChildCount(r, k, n) {
      a := SyncEnd(r);
    } else {
      NextIsChild(n, k, x, r);
      var c := NextChild(k, x, r);
      if x.done[c] {
        assert WireAt(op, v, k, x, c);
        AnswerReads(SyncCount(v.counts, c, k), SyncValue(op, v.vals, c, k));
        a := SyncHear(r);
      } else {
        a := SyncMoves(n, k, op, v, x, c);
      }
    }
  }

  /** Steps still to be taken about the result of `c`: beginning, sending, receiving. */
  function StepsLeft(k: nat, x: Sync, c: nat): nat
    requires 0 < k && c < |x.begun| == |x.heard| == |x.done|
  {
    (if x.begun[c] then 0 else 1) + (if x.done[c] then 0 else 1) + (if c == 0 || HeardFrom(k, x, c) then 0 else 1)
  }

  function AllStepsLeft(n: nat, k: nat, x: Sync): (s: seq<int>)
    requires 0 < k && |x.begun| == |x.heard| == |x.done| == n
    ensures |s| == n
  {
    seq(n, c requires 0 <= c < n => StepsLeft(k, x, c))
  }

  /** The rank whose result the step advances. */
  function Advanced(k: nat, x: Sync, a: SyncStep): nat {
    match a
    case SyncBegin(r) => r
    case SyncHear(r) => if r < |x.heard| then NextChild(k, x, r) else 0
    case SyncEnd(r) => r
  }

  lemma SyncStepAdvances(n: nat, k: nat, op: Op, v: Input, x: Sync, a: SyncStep, c: nat)
    requires Inputs(n, v) && SyncEnabled(n, k, x, a) && c < n
    ensures Advanced(k, x, a) < n
    ensures StepsLeft(k, SyncApply(n, k, op, v, x, a), c)
         <= StepsLeft(k, x, c) - if c == Advanced(k, x, a) then 1 else 0
  {
    if a.SyncHear? { NextIsChild(n, k, x, a.r); }
  }

  /** Every step brings the reduction one step closer to its end, which is at most three per rank away. */
  lemma SyncStepCounts(n: nat, k: nat, op: Op, v: Input, x: Sync, a: SyncStep)
    requires Inputs(n, v) && SyncEnabled(n, k, x, a)
    ensures 0 <= Sum(AllStepsLeft(n, k, SyncApply(n, k, op, v, x, a))) < Sum(AllStepsLeft(n, k, x)) <= 3 * n
  {
    var x' := SyncApply(n, k, op, v, x, a);
    var s, t := AllStepsLeft(n, k, x), AllStepsLeft(n, k, x');
    forall c: nat | c < n ensures t[c] <= s[c] - if c == Advanced(k, x, a) then 1 else 0 {
      SyncStepAdvances(n, k, op, v, x, a, c);
    }
    SyncStepAdvances(n, k, op, v, x, a, 0);
    SumFalls(s, t, Advanced(k, x, a));
    SumIsSmall(s, 3);
    SumIsSmall(t, 3);
  }
}
