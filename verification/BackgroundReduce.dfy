/**
 * The background reduction: the root asks down the tree, answers are combined on the way up.
 *
 * A child answers with a header, followed by a body exactly when the header is valid and
 * announces data.  A rank that has entered clean-up answers with an invalid header instead.
 */
module BackgroundReduce {
  import opened Common
  import opened KaryTree
  import opened Folding

  datatype Frame = Header(valid: bool, count: int, size: nat) | Body(data: Item)

  datatype Reduction = Reduction(
    out: seq<bool>,                // reduce_outstanding
    replies: seq<nat>,             // reduce_replies
    valid: seq<bool>,              // local_reduce_buf[0] == MSG_VALID
    total: seq<int>,               // local_reduce_buf[1]
    bytes: seq<nat>,               // local_reduce_buf[2]
    acc: seq<Item>,                // reduce_buf
    start: seq<nat>,               // start[c]: start messages in flight from c's parent to c
    up: seq<seq<Frame>>,           // up[c]: frames in flight from c to its parent
    given: seq<Option<Item>>,      // history: initial user value of this round
    counted: seq<Option<int>>,     // history: count snapshot added in this round
    built: seq<Combination>,       // history: how the value in acc was put together
    refused: bool)                 // history: some rank answered from clean-up in this round

  ghost predicate Shaped(n: nat, x: Reduction) {
    && |x.out| == |x.replies| == |x.valid| == |x.total| == |x.bytes| == |x.acc| == n
    && |x.start| == |x.up| == |x.given| == |x.counted| == |x.built| == n
  }

  ghost predicate Init(n: nat, x: Reduction) {
    && Shaped(n, x) && !x.refused
    && forall r | 0 <= r < n ::
         !x.out[r] && x.start[r] == 0 && x.up[r] == [] && x.given[r] == None && x.counted[r] == None
  }

  // ---------------------------------------------------------------- steps

  predicate CanBegin(n: nat, x: Reduction, r: nat)
    requires Shaped(n, x)
  {
    r < n && !x.out[r] && (r == 0 || x.start[r] > 0)
  }

  function Announce(n: nat, k: nat, start: seq<nat>, r: nat): (s: seq<nat>)
    requires 0 < k && |start| == n
    ensures |s| == n
  {
    seq(n, c requires 0 <= c < n => if 0 < c && Parent(c, k) == r then start[c] + 1 else start[c])
  }

  /** `val` is what the user's init callback supplies. */
  function Begin(n: nat, k: nat, x: Reduction, r: nat, val: Item): Reduction
    requires 0 < k && Shaped(n, x) && CanBegin(n, x, r)
  {
    var start := if r == 0 then x.start else x.start[r := x.start[r] - 1];
    var x1 := x.(out := x.out[r := true], replies := x.replies[r := 0], valid := x.valid[r := true],
                 total := x.total[r := 0], bytes := x.bytes[r := 0], acc := x.acc[r := val],
                 built := x.built[r := Own(r)], start := Announce(n, k, start, r));
    if r == 0 then
      x1.(given := seq(n, i => if i == 0 then Some(val) else None), counted := seq(n, _ => None), refused := false)
    else x1.(given := x.given[r := Some(val)])
  }

  predicate CanRefuse(n: nat, x: Reduction, r: nat)
    requires Shaped(n, x)
  {
    0 < r < n && !x.out[r] && x.start[r] > 0
  }

  function Refuse(n: nat, x: Reduction, r: nat): Reduction
    requires Shaped(n, x) && CanRefuse(n, x, r)
  {
    x.(start := x.start[r := x.start[r] - 1], valid := x.valid[r := false],
       up := x.up[r := x.up[r] + [Header(false, x.total[r], x.bytes[r])]], refused := true)
  }

  /** The probe found a message from child `c`; it is read as a header. */
  predicate CanGather(n: nat, k: nat, x: Reduction, p: nat, c: nat)
    requires 0 < k && Shaped(n, x)
  {
    0 < c < n && p == Parent(c, k) && x.out[p] && x.up[c] != []
  }

  /** Does the reader of this header go on to receive a body? */
  predicate ExpectsBody(h: Frame) {
    h.Header? && h.valid && h.size > 0
  }

  /** The channel starts with a header, and a body of the announced size follows if one is expected. */
  predicate Parses(box: seq<Frame>) {
    && box != [] && box[0].Header?
    && (ExpectsBody(box[0]) ==> |box| >= 2 && box[1].Body? && |box[1].data| == box[0].size)
  }

  /** The data of an answer; one without a body has none. */
  function AnswerData(box: seq<Frame>): Item
    requires Parses(box)
  {
    if ExpectsBody(box[0]) then box[1].data else []
  }

  function Gather(n: nat, k: nat, x: Reduction, op: Op, p: nat, c: nat): Reduction
    requires 0 < k && Shaped(n, x) && CanGather(n, k, x, p, c) && Parses(x.up[c])
  {
    var h := x.up[c][0];
    var x1 := x.(replies := x.replies[p := x.replies[p] + 1]);
    if !h.valid then x1.(valid := x.valid[p := false], up := x.up[c := x.up[c][1..]])
    else
      var data := AnswerData(x.up[c]);
      x1.(total := x.total[p := x.total[p] + h.count],
          up := x.up[c := x.up[c][if ExpectsBody(h) then 2 else 1..]],
          acc := x.acc[p := if x.valid[p] then op(x.acc[p], data) else x.acc[p]],
          built := x.built[p := if x.valid[p] then Joined(x.built[p], x.built[c]) else x.built[p]])
  }

  predicate CanReply(n: nat, k: nat, x: Reduction, r: nat)
    requires 0 < k && Shaped(n, x)
  {
    r < n && x.out[r] && x.replies[r] == ChildCount(r, k, n)
  }

  function Frames(valid: bool, count: int, data: Item): seq<Frame> {
    [Header(valid, count, |data|)] + if |data| > 0 && valid then [Body(data)] else []
  }

  /** All children have replied: add the local count and answer (or, at the root, deliver). */
  function Reply(n: nat, k: nat, x: Reduction, r: nat, count: int): Reduction
    requires 0 < k && Shaped(n, x) && CanReply(n, k, x, r)
  {
    var total := x.total[r] + count;
    var x1 := x.(total := x.total[r := total], out := x.out[r := false], counted := x.counted[r := Some(count)]);
    if r == 0 then x1
    else x1.(bytes := x.bytes[r := |x.acc[r]|], up := x.up[r := x.up[r] + Frames(x.valid[r], total, x.acc[r])])
  }

  // ---------------------------------------------------------------- invariants: framing

  /** A channel is empty or holds exactly one answer. */
  predicate WellFramed(box: seq<Frame>) {
    box != [] ==> Parses(box) && |box| == if ExpectsBody(box[0]) then 2 else 1
  }

  predicate EdgeOk(x: Reduction, c: nat, p: nat)
    requires c < |x.out| == |x.start| == |x.up| && p < |x.out|
  {
    && WellFramed(x.up[c])
    && x.start[c] <= 1
    && (x.start[c] == 1 ==> x.out[p] && !x.out[c] && x.up[c] == [])
    && (x.out[c] ==> x.out[p] && x.start[c] == 0 && x.up[c] == [])
    && (x.up[c] != [] ==> x.out[p] && x.start[c] == 0 && !x.out[c])
  }

  /** `c` has answered and its answer has been read. */
  predicate Done(x: Reduction, c: nat)
    requires c < |x.out| == |x.start| == |x.up|
  {
    !x.out[c] && x.start[c] == 0 && x.up[c] == []
  }

  ghost function DoneSet(n: nat, k: nat, x: Reduction, p: nat): set<nat>
    requires 0 < k && Shaped(n, x)
  {
    set c: nat | 0 < c < n && Parent(c, k) == p && Done(x, c)
  }

  ghost predicate Framed(n: nat, k: nat, x: Reduction) {
    && 0 < k && 0 < n && Shaped(n, x)
    && x.start[0] == 0 && x.up[0] == []
    && (forall c: nat | 0 < c < n :: EdgeOk(x, c, Parent(c, k)))
    && (forall p: nat | p < n && x.out[p] :: x.replies[p] == |DoneSet(n, k, x, p)|)
  }

  /** The receiver never takes a body for a header, and reads the answer completely. */
  lemma NeverMisread(n: nat, k: nat, x: Reduction, p: nat, c: nat)
    requires Framed(n, k, x) && CanGather(n, k, x, p, c)
    ensures Parses(x.up[c])
    ensures x.up[c][if ExpectsBody(x.up[c][0]) then 2 else 1..] == []
  {
    assert EdgeOk(x, c, Parent(c, k));
  }

  lemma AllChildrenDone(n: nat, k: nat, x: Reduction, p: nat)
    requires Framed(n, k, x) && CanReply(n, k, x, p)
    ensures forall c: nat | 0 < c < n && Parent(c, k) == p :: Done(x, c)
  {
    var a, b := DoneSet(n, k, x, p), ChildSet(p, k, n);
    ChildSetSize(p, k, n);
    assert a <= b;
    FullSubset(a, b);
    forall c: nat | 0 < c < n && Parent(c, k) == p ensures Done(x, c) { assert c in b; }
  }

  /** With nothing outstanding at the root, or all its children done, the rest of the tree is idle. */
  lemma {:induction false} BelowIsIdle(n: nat, k: nat, x: Reduction, c: nat)
    requires Framed(n, k, x) && (!x.out[0] || CanReply(n, k, x, 0)) && 0 < c < n
    ensures Done(x, c)
  {
    var p := Parent(c, k);
    assert EdgeOk(x, c, p);
    if p > 0 {
      BelowIsIdle(n, k, x, p);
    } else if x.out[0] {
      AllChildrenDone(n, k, x, 0);
    }
  }

  lemma BeginKeepsFraming(n: nat, k: nat, x: Reduction, r: nat, val: Item)
    requires Framed(n, k, x) && CanBegin(n, x, r)
    ensures Framed(n, k, Begin(n, k, x, r, val))
  {
    var x' := Begin(n, k, x, r, val);
    if r > 0 { assert EdgeOk(x, r, Parent(r, k)); }
    forall c: nat | 0 < c < n ensures EdgeOk(x', c, Parent(c, k)) {
      assert EdgeOk(x, c, Parent(c, k));
    }
    forall p: nat | p < n && x'.out[p] ensures x'.replies[p] == |DoneSet(n, k, x', p)| {
      if p == r {
        assert DoneSet(n, k, x', p) == {};
      } else {
        assert DoneSet(n, k, x', p) == DoneSet(n, k, x, p);
      }
    }
  }

  lemma RefuseKeepsFraming(n: nat, k: nat, x: Reduction, r: nat)
    requires Framed(n, k, x) && CanRefuse(n, x, r)
    ensures Framed(n, k, Refuse(n, x, r))
  {
    var x' := Refuse(n, x, r);
    assert EdgeOk(x, r, Parent(r, k));
    forall c: nat | 0 < c < n ensures EdgeOk(x', c, Parent(c, k)) {
      assert EdgeOk(x, c, Parent(c, k));
    }
    forall p: nat | p < n && x'.out[p] ensures x'.replies[p] == |DoneSet(n, k, x', p)| {
      assert DoneSet(n, k, x', p) == DoneSet(n, k, x, p);
    }
  }

  lemma GatherKeepsFraming(n: nat, k: nat, x: Reduction, op: Op, p: nat, c: nat)
    requires Framed(n, k, x) && CanGather(n, k, x, p, c) && Parses(x.up[c])
    ensures Framed(n, k, Gather(n, k, x, op, p, c))
  {
    NeverMisread(n, k, x, p, c);
    EmptiedChannelKeepsFraming(n, k, x, Gather(n, k, x, op, p, c), p, c);
  }

  /** The only answer of `c` has been read. */
  predicate Emptied(n: nat, x: Reduction, x': Reduction, p: nat, c: nat)
    requires Shaped(n, x) && p < n && c < n
  {
    && x'.up == x.up[c := []] && x'.out == x.out && x'.start == x.start
    && x'.replies == x.replies[p := x.replies[p] + 1]
  }

  lemma EmptiedChannelKeepsEdges(n: nat, k: nat, x: Reduction, x': Reduction, p: nat, c: nat)
    requires Framed(n, k, x) && CanGather(n, k, x, p, c) && Shaped(n, x') && Emptied(n, x, x', p, c)
    ensures forall d: nat | 0 < d < n :: EdgeOk(x', d, Parent(d, k))
  {
    forall d: nat | 0 < d < n ensures EdgeOk(x', d, Parent(d, k)) {
      assert EdgeOk(x, d, Parent(d, k));
    }
  }

  lemma EmptiedChannelKeepsFraming(n: nat, k: nat, x: Reduction, x': Reduction, p: nat, c: nat)
    requires Framed(n, k, x) && CanGather(n, k, x, p, c) && Shaped(n, x') && Emptied(n, x, x', p, c)
    ensures Framed(n, k, x')
  {
    EmptiedChannelKeepsEdges(n, k, x, x', p, c);
    assert EdgeOk(x, c, p);
    forall q: nat | q < n && x'.out[q] ensures x'.replies[q] == |DoneSet(n, k, x', q)| {
      EmptiedChannelCounts(n, k, x, x', p, c, q);
    }
  }

  lemma EmptiedChannelCounts(n: nat, k: nat, x: Reduction, x': Reduction, p: nat, c: nat, q: nat)
    requires 0 < k && Shaped(n, x) && CanGather(n, k, x, p, c) && EdgeOk(x, c, p)
    requires Shaped(n, x') && Emptied(n, x, x', p, c) && q < n
    ensures |DoneSet(n, k, x', q)| == |DoneSet(n, k, x, q)| + if q == p then 1 else 0
  {
    var a := DoneSet(n, k, x, q);
    assert DoneSet(n, k, x', q) == if q == p then a + {c} else a;
    assert c !in a;
  }

  lemma ReplyKeepsFraming(n: nat, k: nat, x: Reduction, r: nat, count: int)
    requires Framed(n, k, x) && CanReply(n, k, x, r)
    ensures Framed(n, k, Reply(n, k, x, r, count))
  {
    var x' := Reply(n, k, x, r, count);
    AllChildrenDone(n, k, x, r);
    if r > 0 { assert EdgeOk(x, r, Parent(r, k)); }
    forall c: nat | 0 < c < n ensures EdgeOk(x', c, Parent(c, k)) {
      assert EdgeOk(x, c, Parent(c, k));
    }
    forall p: nat | p < n && x'.out[p] ensures x'.replies[p] == |DoneSet(n, k, x', p)| {
      assert DoneSet(n, k, x', p) == DoneSet(n, k, x, p);
    }
  }
}
