/**
 * One up-and-down wave over the k-ary tree, repeated for any number of rounds.
 *
 * Both the clean-up barrier and the termination allreduce have this shape: a rank counts one
 * message from each child, sends one to its parent, waits for one back and passes it on.
 * They differ in when a rank may move and in the flag carried, so the layer above supplies those.
 */
module TreeWave {
  import opened Common
  import opened KaryTree

  datatype Wave = Wave(
    up: seq<bool>,               // term_up / barrier_up
    replies: seq<nat>,           // term_replies / barrier_replies
    rise: seq<seq<bool>>,        // rise[c]: messages in flight from c to its parent
    fall: seq<seq<bool>>,        // fall[c]: messages in flight from its parent to c
    round: seq<nat>)             // history: how many waves this rank has completed

  ghost predicate Shaped(n: nat, x: Wave) {
    |x.up| == |x.replies| == |x.rise| == |x.fall| == |x.round| == n
  }

  function Start(n: nat): Wave {
    Wave(seq(n, _ => false), seq(n, _ => 0), seq(n, _ => []), seq(n, _ => []), seq(n, _ => 0))
  }

  /** A message from `src` is waiting at `r`: from a child, or from the parent. */
  predicate Waiting(n: nat, k: nat, x: Wave, r: nat, src: nat)
    requires 0 < k && Shaped(n, x)
  {
    && r < n && src < n
    && (|| (0 < src && Parent(src, k) == r && x.rise[src] != [])
        || (0 < r && Parent(r, k) == src && x.fall[r] != []))
  }

  /** The probe for a child's message accepts any source while replies are missing. */
  predicate CanAbsorb(n: nat, k: nat, x: Wave, r: nat, src: nat)
    requires 0 < k && Shaped(n, x)
  {
    Waiting(n, k, x, r, src) && x.replies[r] < ChildCount(r, k, n)
  }

  function AbsorbedFlag(n: nat, k: nat, x: Wave, r: nat, src: nat): bool
    requires 0 < k && Shaped(n, x) && Waiting(n, k, x, r, src)
  {
    if 0 < src && Parent(src, k) == r && x.rise[src] != [] then x.rise[src][0] else x.fall[r][0]
  }

  function Absorb(n: nat, k: nat, x: Wave, r: nat, src: nat): Wave
    requires 0 < k && Shaped(n, x) && CanAbsorb(n, k, x, r, src)
  {
    var x1 := x.(replies := x.replies[r := x.replies[r] + 1]);
    if 0 < src && Parent(src, k) == r && x.rise[src] != [] then x1.(rise := x.rise[src := x.rise[src][1..]])
    else x1.(fall := x.fall[r := x.fall[r][1..]])
  }

  predicate CanRaise(n: nat, k: nat, x: Wave, r: nat)
    requires 0 < k && Shaped(n, x)
  {
    0 < r < n && !x.up[r] && x.replies[r] == ChildCount(r, k, n)
  }

  function Raise(n: nat, k: nat, x: Wave, r: nat, v: bool): Wave
    requires 0 < k && Shaped(n, x) && CanRaise(n, k, x, r)
  {
    x.(up := x.up[r := true], rise := x.rise[r := x.rise[r] + [v]])
  }

  /** `v` goes down to every child of `r`. */
  function SendDown(n: nat, k: nat, fall: seq<seq<bool>>, r: nat, v: bool): (f: seq<seq<bool>>)
    requires 0 < k && |fall| == n
    ensures |f| == n
  {
    seq(n, c requires 0 <= c < n => if 0 < c && Parent(c, k) == r then fall[c] + [v] else fall[c])
  }

  predicate CanLower(n: nat, k: nat, x: Wave, r: nat)
    requires 0 < k && Shaped(n, x)
  {
    0 < r < n && x.up[r] && x.fall[r] != []
  }

  function Lower(n: nat, k: nat, x: Wave, r: nat): Wave
    requires 0 < k && Shaped(n, x) && CanLower(n, k, x, r)
  {
    x.(up := x.up[r := false], replies := x.replies[r := 0], round := x.round[r := x.round[r] + 1],
       fall := SendDown(n, k, x.fall[r := x.fall[r][1..]], r, x.fall[r][0]))
  }

  predicate CanFinish(n: nat, k: nat, x: Wave)
    requires 0 < k && Shaped(n, x)
  {
    0 < n && !x.up[0] && x.replies[0] == ChildCount(0, k, n)
  }

  function Finish(n: nat, k: nat, x: Wave, v: bool): Wave
    requires 0 < k && Shaped(n, x) && CanFinish(n, k, x)
  {
    x.(replies := x.replies[0 := 0], round := x.round[0 := x.round[0] + 1],
       fall := SendDown(n, k, x.fall, 0, v))
  }

  // ---------------------------------------------------------------- invariants

  /** `c` has sent its message, its parent has counted it and has not answered. */
  predicate Arrived(x: Wave, c: nat)
    requires c < |x.up| == |x.rise| == |x.fall|
  {
    x.up[c] && x.rise[c] == [] && x.fall[c] == []
  }

  /** The four states of the edge from `c` to its parent `p`. */
  predicate EdgeOk(x: Wave, c: nat, p: nat)
    requires c < |x.up| == |x.rise| == |x.fall| == |x.round| && p < |x.up|
  {
    || (!x.up[c] && x.rise[c] == [] && x.fall[c] == [] && x.round[c] == x.round[p] && !x.up[p])
    || (x.up[c] && |x.rise[c]| == 1 && x.fall[c] == [] && x.round[c] == x.round[p] && !x.up[p])
    || (Arrived(x, c) && x.round[c] == x.round[p])
    || (x.up[c] && x.rise[c] == [] && |x.fall[c]| == 1 && x.round[c] + 1 == x.round[p] && !x.up[p])
  }

  ghost function ArrivedSet(n: nat, k: nat, x: Wave, p: nat): set<nat>
    requires 0 < k && Shaped(n, x)
  {
    set c: nat | 0 < c < n && Parent(c, k) == p && Arrived(x, c)
  }

  predicate RoundOk(x: Wave, c: nat)
    requires 0 < |x.round| && c < |x.round| == |x.up|
  {
    || x.round[c] == x.round[0]
    || (x.round[c] + 1 == x.round[0] && x.up[c])
  }

  ghost predicate WaveInv(n: nat, k: nat, x: Wave) {
    && 0 < k && 0 < n && Shaped(n, x)
    && !x.up[0] && x.rise[0] == [] && x.fall[0] == []
    && (forall c: nat | 0 < c < n :: EdgeOk(x, c, Parent(c, k)))
    && (forall p: nat | p < n :: x.replies[p] == |ArrivedSet(n, k, x, p)|)
    && (forall c: nat | c < n :: RoundOk(x, c))
  }

  lemma StartEstablishes(n: nat, k: nat)
    requires 0 < n && 0 < k
    ensures WaveInv(n, k, Start(n))
  {
    var x := Start(n);
    forall p: nat | p < n ensures ArrivedSet(n, k, x, p) == {} {}
  }

  /** A full count of replies means every child's message of this round has arrived. */
  lemma FullCount(n: nat, k: nat, x: Wave, p: nat)
    requires WaveInv(n, k, x) && p < n && x.replies[p] >= ChildCount(p, k, n)
    ensures x.replies[p] == ChildCount(p, k, n)
    ensures forall c: nat | 0 < c < n && Parent(c, k) == p :: Arrived(x, c)
  {
    var a, b := ArrivedSet(n, k, x, p), ChildSet(p, k, n);
    ChildSetSize(p, k, n);
    assert a <= b;
    SubsetSize(a, b);
    FullSubset(a, b);
    forall c: nat | 0 < c < n && Parent(c, k) == p ensures Arrived(x, c) {
      assert c in b;
    }
  }

  /** A rank that has sent up has counted all its children. */
  lemma UpMeansFull(n: nat, k: nat, x: Wave, p: nat)
    requires WaveInv(n, k, x) && p < n && x.up[p]
    ensures x.replies[p] == ChildCount(p, k, n)
  {
    ChildSetSize(p, k, n);
    forall c: nat | c in ChildSet(p, k, n) ensures Arrived(x, c) {
      assert EdgeOk(x, c, Parent(c, k));
    }
    assert ArrivedSet(n, k, x, p) == ChildSet(p, k, n);
  }

  /** While replies are missing, the any-source probe can only find a child's message. */
  lemma ProbeFindsOnlyChildren(n: nat, k: nat, x: Wave, r: nat, src: nat)
    requires WaveInv(n, k, x) && CanAbsorb(n, k, x, r, src)
    ensures 0 < src && Parent(src, k) == r && x.up[src] && |x.rise[src]| == 1 && !x.up[r]
    ensures x.fall[r] == [] || x.up[r]
    ensures AbsorbedFlag(n, k, x, r, src) == x.rise[src][0]
  {
    if 0 < r && x.fall[r] != [] {
      assert EdgeOk(x, r, Parent(r, k));
      UpMeansFull(n, k, x, r);
    }
    assert EdgeOk(x, src, Parent(src, k));
  }

  /** When the root has counted all its children, every rank has sent its message of this round. */
  lemma RootSeesEveryone(n: nat, k: nat, x: Wave)
    requires WaveInv(n, k, x) && CanFinish(n, k, x)
    ensures forall c: nat | 0 < c < n :: Arrived(x, c) && x.round[c] == x.round[0]
  {
    forall c: nat | 0 < c < n ensures Arrived(x, c) && x.round[c] == x.round[0] {
      RootSeesRank(n, k, x, c);
    }
  }

  lemma {:induction false} RootSeesRank(n: nat, k: nat, x: Wave, c: nat)
    requires WaveInv(n, k, x) && CanFinish(n, k, x) && 0 < c < n
    ensures Arrived(x, c) && x.round[c] == x.round[0]
  {
    var p := Parent(c, k);
    assert EdgeOk(x, c, p);
    if p == 0 {
      FullCount(n, k, x, 0);
    } else {
      RootSeesRank(n, k, x, p);
      UpMeansFull(n, k, x, p);
      FullCount(n, k, x, p);
    }
  }

  lemma AbsorbCounts(n: nat, k: nat, x: Wave, r: nat, src: nat, p: nat)
    requires WaveInv(n, k, x) && CanAbsorb(n, k, x, r, src) && p < n
    requires 0 < src && Parent(src, k) == r && x.up[src] && |x.rise[src]| == 1 && x.fall[src] == []
    ensures Absorb(n, k, x, r, src).replies[p] == |ArrivedSet(n, k, Absorb(n, k, x, r, src), p)|
  {
    var a := ArrivedSet(n, k, x, p);
    assert ArrivedSet(n, k, Absorb(n, k, x, r, src), p) == if p == r then a + {src} else a;
    assert src !in a;
  }

  lemma AbsorbKeeps(n: nat, k: nat, x: Wave, r: nat, src: nat)
    requires WaveInv(n, k, x) && CanAbsorb(n, k, x, r, src)
    ensures WaveInv(n, k, Absorb(n, k, x, r, src))
  {
    ProbeFindsOnlyChildren(n, k, x, r, src);
    assert EdgeOk(x, src, r);
    var x' := Absorb(n, k, x, r, src);
    forall c: nat | 0 < c < n ensures EdgeOk(x', c, Parent(c, k)) {
      assert EdgeOk(x, c, Parent(c, k));
    }
    forall p: nat | p < n ensures x'.replies[p] == |ArrivedSet(n, k, x', p)| {
      AbsorbCounts(n, k, x, r, src, p);
    }
    forall c: nat | c < n ensures RoundOk(x', c) { assert RoundOk(x, c); }
  }

  lemma RaiseKeeps(n: nat, k: nat, x: Wave, r: nat, v: bool)
    requires WaveInv(n, k, x) && CanRaise(n, k, x, r)
    ensures WaveInv(n, k, Raise(n, k, x, r, v))
  {
    var x' := Raise(n, k, x, r, v);
    assert EdgeOk(x, r, Parent(r, k));
    FullCount(n, k, x, r);
    forall c: nat | 0 < c < n ensures EdgeOk(x', c, Parent(c, k)) {
      assert EdgeOk(x, c, Parent(c, k));
    }
    forall p: nat | p < n ensures x'.replies[p] == |ArrivedSet(n, k, x', p)| {
      assert ArrivedSet(n, k, x', p) == ArrivedSet(n, k, x, p);
    }
    forall c: nat | c < n ensures RoundOk(x', c) { assert RoundOk(x, c); }
  }

  lemma LowerKeepsEdge(n: nat, k: nat, x: Wave, r: nat, c: nat)
    requires WaveInv(n, k, x) && CanLower(n, k, x, r) && 0 < c < n
    ensures EdgeOk(Lower(n, k, x, r), c, Parent(c, k)) && RoundOk(Lower(n, k, x, r), c)
  {
    assert EdgeOk(x, r, Parent(r, k)) && RoundOk(x, r) && RoundOk(x, Parent(r, k));
    UpMeansFull(n, k, x, r);
    FullCount(n, k, x, r);
    assert EdgeOk(x, c, Parent(c, k)) && RoundOk(x, c);
  }

  lemma LowerKeeps(n: nat, k: nat, x: Wave, r: nat)
    requires WaveInv(n, k, x) && CanLower(n, k, x, r)
    ensures WaveInv(n, k, Lower(n, k, x, r))
  {
    var x' := Lower(n, k, x, r);
    forall c: nat | 0 < c < n ensures EdgeOk(x', c, Parent(c, k)) {
      LowerKeepsEdge(n, k, x, r, c);
    }
    forall c: nat | c < n ensures RoundOk(x', c) {
      if c > 0 { LowerKeepsEdge(n, k, x, r, c); }
    }
    LowerKeepsCounts(n, k, x, r);
  }

  lemma LowerKeepsCounts(n: nat, k: nat, x: Wave, r: nat)
    requires WaveInv(n, k, x) && CanLower(n, k, x, r)
    ensures var x' := Lower(n, k, x, r); forall p: nat | p < n :: x'.replies[p] == |ArrivedSet(n, k, x', p)|
  {
    var x' := Lower(n, k, x, r);
    assert EdgeOk(x, r, Parent(r, k));
    forall p: nat | p < n ensures x'.replies[p] == |ArrivedSet(n, k, x', p)| {
      if p == r {
        assert ArrivedSet(n, k, x', p) == {};
      } else {
        assert ArrivedSet(n, k, x', p) == ArrivedSet(n, k, x, p);
      }
    }
  }

  lemma FinishKeeps(n: nat, k: nat, x: Wave, v: bool)
    requires WaveInv(n, k, x) && CanFinish(n, k, x)
    ensures WaveInv(n, k, Finish(n, k, x, v))
  {
    var x' := Finish(n, k, x, v);
    RootSeesEveryone(n, k, x);
    forall c: nat | 0 < c < n ensures EdgeOk(x', c, Parent(c, k)) {
      assert EdgeOk(x, c, Parent(c, k));
    }
    forall p: nat | p < n ensures x'.replies[p] == |ArrivedSet(n, k, x', p)| {
      assert ArrivedSet(n, k, x', p) == if p == 0 then {} else ArrivedSet(n, k, x, p);
    }
    forall c: nat | c < n ensures RoundOk(x', c) { assert RoundOk(x, c); }
  }

  // ---------------------------------------------------------------- progress

  datatype Move = Absorbing(r: nat, src: nat) | Raising(r: nat) | Lowering(r: nat) | Finishing

  predicate CanMove(n: nat, k: nat, x: Wave, m: Move)
    requires 0 < k && Shaped(n, x)
  {
    match m
    case Absorbing(r, src) => CanAbsorb(n, k, x, r, src)
    case Raising(r) => CanRaise(n, k, x, r)
    case Lowering(r) => CanLower(n, k, x, r)
    case Finishing => CanFinish(n, k, x)
  }

  lemma MissingChild(n: nat, k: nat, x: Wave, p: nat) returns (c: nat)
    requires WaveInv(n, k, x) && p < n && x.replies[p] != ChildCount(p, k, n)
    ensures 0 < c < n && Parent(c, k) == p && !Arrived(x, c) && x.replies[p] < ChildCount(p, k, n) && !x.up[p]
  {
    if x.replies[p] >= ChildCount(p, k, n) { FullCount(n, k, x, p); }
    if x.up[p] { UpMeansFull(n, k, x, p); }
    var a, b := ArrivedSet(n, k, x, p), ChildSet(p, k, n);
    ChildSetSize(p, k, n);
    assert a <= b && a != b;
    c :| c in b && c !in a;
  }

  /** Below a rank that still misses replies, some rank can move. */
  lemma {:induction false} FindMove(n: nat, k: nat, x: Wave, p: nat) returns (m: Move)
    requires WaveInv(n, k, x) && p < n && x.replies[p] != ChildCount(p, k, n)
    ensures CanMove(n, k, x, m)
    ensures (m.Absorbing? && m.r >= p) || (m.Raising? && m.r > p) || (m.Lowering? && x.fall[m.r] != [])
    decreases n - p
  {
    var c := MissingChild(n, k, x, p);
    assert EdgeOk(x, c, p);
    if x.rise[c] != [] {
      m := Absorbing(p, c);
    } else if x.up[c] {
      m := Lowering(c);
    } else if x.replies[c] == ChildCount(c, k, n) {
      m := Raising(c);
    } else {
      m := FindMove(n, k, x, c);
    }
  }

  /** The wave cannot get stuck: some rank can always make the next move. */
  lemma NeverStuck(n: nat, k: nat, x: Wave)
    requires WaveInv(n, k, x)
    ensures exists m :: CanMove(n, k, x, m)
  {
    if x.replies[0] == ChildCount(0, k, n) {
      assert CanMove(n, k, x, Finishing);
    } else {
      var m := FindMove(n, k, x, 0);
    }
  }
}
