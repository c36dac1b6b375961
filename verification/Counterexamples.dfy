/**
 * Runs that end too early when the configuration is not sound: with the shadowed flag in tree
 * mode, and without the delivery guard in ring mode.  They exist for every number of ranks above 1.
 */
module Counterexamples {
  import opened Common
  import opened KaryTree
  import opened System
  import opened Invariants
  import opened TreeSafety
  import opened EndToEnd
  import W = WorkProtocol
  import V = TreeWave
  import R = TokenRing
  import D = BackgroundReduce
  import Folding

  const X: Item := [1]
  const Y: Item := [2]

  /** Rank 0 holds two items, the ranks from 1 to `j - 1` have asked it for work. */
  predicate OpeningAt(cfg: Config, w: World, j: nat, r: nat)
    requires Shaped(cfg, w) && r < cfg.n
  {
    && w.phase[r] == Working
    && w.work.queue[r] == (if r == 0 then [X, Y] else [])
    && w.work.asked[r] == (if 0 < r < j then Some(0) else None)
    && w.work.outstanding[r] == 0 && w.work.receipts[r] == 0
    && w.work.gathered[r] == [] && w.work.replies[r] == []
  }

  ghost predicate Opening(cfg: Config, w: World, j: nat) {
    && Reachable(cfg, w)
    && (forall r: nat | r < cfg.n :: OpeningAt(cfg, w, j, r))
    && (j > 1 ==> 1 in w.work.requests[0])
    && w.term == V.Start(cfg.n) && w.ring == R.Start(cfg.n)
  }

  function FirstQueues(n: nat): (q: seq<seq<Item>>)
    ensures |q| == n
  {
    seq(n, r => if r == 0 then [X, Y] else [])
  }

  ghost function FirstWork(n: nat): (w: W.Work)
    ensures W.Init(n, w) && w.queue == FirstQueues(n)
  {
    var queue := FirstQueues(n);
    W.Work(queue, seq(n, _ => None), seq(n, _ => 0), seq(n, _ => multiset{}), seq(n, _ => []), seq(n, _ => []),
           seq(n, _ => 0), seq(n, _ => 0), multiset{}, Union(seq(n, r requires 0 <= r < n => multiset(queue[r]))))
  }

  function FirstReduction(n: nat): (x: D.Reduction)
    ensures D.Init(n, x)
  {
    D.Reduction(seq(n, _ => false), seq(n, _ => 0), seq(n, _ => false), seq(n, _ => 0), seq(n, _ => 0),
                seq(n, _ => []), seq(n, _ => 0), seq(n, _ => []), seq(n, _ => None), seq(n, _ => None),
                seq(n, _ => Folding.Own(0)), false)
  }

  ghost function FirstWorld(cfg: Config): (w: World)
    requires 0 < cfg.n && 0 < cfg.k
    ensures Init(cfg, w) && forall r: nat | r < cfg.n :: OpeningAt(cfg, w, 1, r)
  {
    var n := cfg.n;
    World(seq(n, _ => Working), FirstWork(n), seq(n, _ => true), V.Start(n), R.Start(n),
          seq(n, _ => false), V.Start(n), FirstReduction(n))
  }

  lemma {:induction false} Open(cfg: Config, j: nat) returns (w: World)
    requires 1 < cfg.n && 0 < cfg.k && 1 <= j <= cfg.n
    ensures Opening(cfg, w, j)
  {
    if j == 1 {
      w := FirstWorld(cfg);
      assert Runs(cfg, w, [], w);
    } else {
      var u := Open(cfg, j - 1);
      w := AskRoot(cfg, u, j - 1, j);
    }
  }

  lemma AskRoot(cfg: Config, u: World, j: nat, next: nat) returns (w: World)
    requires 1 < cfg.n && 1 <= j < cfg.n && next == j + 1 && Opening(cfg, u, j)
    ensures Opening(cfg, w, next)
  {
    assert OpeningAt(cfg, u, j, j);
    w := AskStep(cfg, u, j);
    forall r: nat | r < cfg.n ensures OpeningAt(cfg, w, next, r) { AskedOneMore(cfg, u, w, j, next, r); }
  }

  lemma AskStep(cfg: Config, u: World, j: nat) returns (w: World)
    requires Reachable(cfg, u) && 1 <= j < cfg.n
    requires u.phase[j] == Working && u.work.queue[j] == [] && u.work.asked[j] == None
    ensures Reachable(cfg, w) && w.work.asked == u.work.asked[j := Some(0)]
    ensures w.work.requests == u.work.requests[0 := u.work.requests[0] + multiset{j}]
    ensures w == u.(work := u.work.(asked := w.work.asked, requests := w.work.requests))
  {
    w := StepOn(cfg, u, Action.Work(W.Ask(j, 0)));
  }

  lemma AskedOneMore(cfg: Config, u: World, w: World, j: nat, next: nat, r: nat)
    requires Shaped(cfg, u) && Shaped(cfg, w) && 1 <= j < cfg.n && next == j + 1 && r < cfg.n && OpeningAt(cfg, u, j, r)
    requires w.work.asked == u.work.asked[j := Some(0)]
    requires w == u.(work := u.work.(asked := w.work.asked, requests := w.work.requests))
    ensures OpeningAt(cfg, w, next, r)
  {
  }

  /** Rank 0 has given rank 1 one of its items and has finished the other. */
  ghost predicate Split(cfg: Config, u: World, w: World) {
    && Reachable(cfg, w) && Shaped(cfg, u) && 1 < cfg.n
    && w.phase == u.phase && w.term == u.term
    && |w.ring.proc| == cfg.n && w.ring == u.ring.(proc := u.ring.proc[0 := w.ring.proc[0]])
    && (u.ring.proc[0] != R.Terminate ==> w.ring.proc[0] != R.Terminate)
    && SplitWork(cfg.n, u.work, w.work)
  }

  ghost predicate SplitWork(n: nat, u: W.Work, w: W.Work)
    requires W.Shaped(n, u) && 1 < n
  {
    && W.Shaped(n, w)
    && w.queue[0] == [] && w.asked == u.asked && w.receipts == u.receipts
    && w.outstanding == u.outstanding[0 := u.outstanding[0] + 1] && u.outstanding[0] == 0
    && w.replies == u.replies[1 := [W.Reply(0, [Y])]]
    && forall r | 0 < r < n :: w.queue[r] == u.queue[r] && w.gathered[r] == u.gathered[r]
  }

  lemma CollectFirst(cfg: Config, u: World) returns (w: World)
    requires Reachable(cfg, u) && 1 < cfg.n && 1 in u.work.requests[0] && OpeningAt(cfg, u, cfg.n, 0)
    ensures Reachable(cfg, w) && w.work.gathered == u.work.gathered[0 := [1]]
    ensures w == u.(work := u.work.(requests := w.work.requests, gathered := w.work.gathered))
  {
    CollectFirstWork(cfg.n, u.work);
    w := StepOn(cfg, u, Action.Work(W.Collect(0, 1)));
  }

  lemma CollectFirstWork(n: nat, u: W.Work)
    requires W.Shaped(n, u) && 1 < n && 1 in u.requests[0] && u.gathered[0] == []
    ensures W.Enabled(n, u, W.Collect(0, 1))
    ensures var w := W.Apply(n, u, W.Collect(0, 1));
      w.gathered == u.gathered[0 := [1]] && w == u.(requests := w.requests, gathered := w.gathered)
  {
    assert [] + [1] == [1];
  }

  /** Rank 0 sends its top item to rank 1. */
  lemma ServeFirst(cfg: Config, u: World) returns (w: World)
    requires Reachable(cfg, u) && 1 < cfg.n && u.work.gathered[0] == [1] && u.work.queue[0] == [X, Y]
    requires u.work.outstanding[0] == 0 && u.work.replies[1] == [] && u.phase[0] == Working
    ensures Reachable(cfg, w) && w.work.queue == u.work.queue[0 := [X]]
    ensures w.work.outstanding == u.work.outstanding[0 := 1] && w.work.gathered == u.work.gathered[0 := []]
    ensures w.work.replies == u.work.replies[1 := [W.Reply(0, [Y])]]
    ensures w.work.asked == u.work.asked && w.work.receipts == u.work.receipts
    ensures w.phase == u.phase && w.term == u.term
    ensures w.ring == R.Paint(cfg.n, u.ring, 0, 1)
  {
    ServeFirstWork(cfg.n, u.work);
    w := StepOn(cfg, u, Action.Work(W.Serve(0, 1)));
  }

  lemma ServeFirstWork(n: nat, u: W.Work)
    requires W.Shaped(n, u) && 1 < n && u.gathered[0] == [1] && u.queue[0] == [X, Y] && u.outstanding[0] == 0
    requires u.replies[1] == []
    ensures W.Enabled(n, u, W.Serve(0, 1))
    ensures var a := W.Serve(0, 1);
      && W.Apply(n, u, a).queue == u.queue[0 := [X]] && W.Apply(n, u, a).outstanding == u.outstanding[0 := 1]
      && W.Apply(n, u, a).gathered == u.gathered[0 := []]
      && W.Apply(n, u, a).replies == u.replies[1 := [W.Reply(0, [Y])]]
      && W.Apply(n, u, a).asked == u.asked && W.Apply(n, u, a).receipts == u.receipts
  {
    assert W.Kept([X, Y], 1) == [X] && W.Sent([X, Y], 1) == [Y];
    assert [] + [W.Reply(0, [Y])] == [W.Reply(0, [Y])] && [1][1..] == [];
  }

  lemma FinishFirst(cfg: Config, u: World) returns (w: World)
    requires Reachable(cfg, u) && 1 < cfg.n && u.work.queue[0] == [X] && u.phase[0] == Working
    ensures Reachable(cfg, w) && w.work.queue == u.work.queue[0 := []]
    ensures w == u.(work := u.work.(queue := w.work.queue, handled := w.work.handled, processed := w.work.processed,
                                      created := w.work.created))
  {
    w := StepOn(cfg, u, Action.Work(W.Process(0, [])));
    assert [X][..0] + [] == [];
  }

  lemma HandOver(cfg: Config, u: World) returns (w: World)
    requires Reachable(cfg, u) && 1 < cfg.n && 1 in u.work.requests[0]
    requires OpeningAt(cfg, u, cfg.n, 0) && OpeningAt(cfg, u, cfg.n, 1)
    ensures Split(cfg, u, w)
  {
    var w1 := CollectFirst(cfg, u);
    var w2 := ServeFirst(cfg, w1);
    w := FinishFirst(cfg, w2);
    SplitAfter(cfg, u, w1.work, w2.work, w);
    PaintKeepsStop(cfg.n, u.ring, w.ring);
  }

  lemma PaintKeepsStop(n: nat, x: R.Ring, y: R.Ring)
    requires R.Shaped(n, x) && 1 < n && y == R.Paint(n, x, 0, 1)
    ensures |y.proc| == n && y == x.(proc := x.proc[0 := y.proc[0]])
    ensures x.proc[0] != R.Terminate ==> y.proc[0] != R.Terminate
  {
  }

  /** The three steps together, as far as the work layer goes. */
  lemma SplitAfter(cfg: Config, u: World, w1: W.Work, w2: W.Work, w: World)
    requires Shaped(cfg, u) && Shaped(cfg, w) && 1 < cfg.n && W.Shaped(cfg.n, w1) && W.Shaped(cfg.n, w2)
    requires u.work.gathered[0] == [] && u.work.queue[0] == [X, Y] && u.work.outstanding[0] == 0
    requires w1 == u.work.(requests := w1.requests, gathered := u.work.gathered[0 := [1]])
    requires w2.queue == w1.queue[0 := [X]] && w2.gathered == w1.gathered[0 := []]
    requires w2.outstanding == w1.outstanding[0 := 1] && w2.replies == w1.replies[1 := [W.Reply(0, [Y])]]
    requires w2.asked == w1.asked && w2.receipts == w1.receipts
    requires w.work.queue == w2.queue[0 := []] && w.work.gathered == w2.gathered
    requires w.work.outstanding == w2.outstanding && w.work.replies == w2.replies
    requires w.work.asked == w2.asked && w.work.receipts == w2.receipts
    ensures SplitWork(cfg.n, u.work, w.work)
  {
  }

  // ---------------------------------------------------------------- the shadowed flag

  /** Ranks other than the root climb: each sends its (always 0) flag up, none comes back. */
  ghost predicate Climbing(cfg: Config, w: World, work: W.Work) {
    && Reachable(cfg, w) && cfg.tree && cfg.asWritten && w.work == work
    && (forall r: nat | r < cfg.n :: w.phase[r] == Working && w.term.fall[r] == [])
  }

  function Weights(x: V.Wave): seq<int>
    requires |x.up| == |x.rise|
  {
    seq(|x.up|, r requires 0 <= r < |x.up| => if !x.up[r] then 2 else if x.rise[r] != [] then 1 else 0)
  }

  /** A move that is not a descent uses up one message still to be sent or counted. */
  lemma ClimbCounts(n: nat, k: nat, x: V.Wave, m: V.Move)
    requires V.WaveInv(n, k, x) && V.CanMove(n, k, x, m) && (m.Absorbing? || m.Raising?)
    ensures var x' := if m.Absorbing? then V.Absorb(n, k, x, m.r, m.src) else V.Raise(n, k, x, m.r, false);
      Sum(Weights(x')) == Sum(Weights(x)) - 1
  {
    var x' := if m.Absorbing? then V.Absorb(n, k, x, m.r, m.src) else V.Raise(n, k, x, m.r, false);
    if m.Absorbing? {
      V.ProbeFindsOnlyChildren(n, k, x, m.r, m.src);
    } else {
      assert V.EdgeOk(x, m.r, Parent(m.r, k));
    }
    var i := if m.Absorbing? then m.src else m.r;
    var s := Weights(x);
    assert Weights(x') == s[i := s[i] - 1];
    SumUpdate(s, i, s[i] - 1);
  }

  lemma ClimbStep(cfg: Config, w: World, work: W.Work, m: V.Move) returns (w': World)
    requires Climbing(cfg, w, work) && V.CanMove(cfg.n, cfg.k, w.term, m) && (m.Absorbing? || m.Raising?)
    requires work.queue[m.r] == [] && work.outstanding[m.r] == 0
    ensures Climbing(cfg, w', work) && Sum(Weights(w'.term)) == Sum(Weights(w.term)) - 1
    ensures forall r: nat | r < cfg.n && w.term.up[r] :: w'.term.up[r]
  {
    ReachableBase(cfg, w);
    ClimbCounts(cfg.n, cfg.k, w.term, m);
    if m.Absorbing? {
      V.ProbeFindsOnlyChildren(cfg.n, cfg.k, w.term, m.r, m.src);
      w' := StepOn(cfg, w, Action.Term(TermAbsorb(m.r, m.src)));
    } else {
      w' := StepOn(cfg, w, Action.Term(TermRaise(m.r)));
    }
  }

  /** All ranks but the root can send up before rank 0 answers anybody. */
  lemma {:induction false} Climb(cfg: Config, w: World, work: W.Work) returns (w': World)
    requires Climbing(cfg, w, work) && forall r: nat | 0 < r < cfg.n :: work.queue[r] == [] && work.outstanding[r] == 0
    ensures Climbing(cfg, w', work) && forall r: nat | 0 < r < cfg.n :: w'.term.up[r]
    decreases Sum(Weights(w.term))
  {
    if c: nat :| 0 < c < cfg.n && !w.term.up[c] {
      ReachableBase(cfg, w);
      var m;
      if w.term.replies[c] == ChildCount(c, cfg.k, cfg.n) {
        m := V.Raising(c);
      } else {
        m := V.FindMove(cfg.n, cfg.k, w.term, c);
      }
      SumIsNonNegative(Weights(w.term));
      var u := ClimbStep(cfg, w, work, m);
      w' := Climb(cfg, u, work);
    } else {
      w' := w;
    }
  }

  /** Then the root counts them all. */
  lemma {:induction false} Gather(cfg: Config, w: World, work: W.Work) returns (w': World)
    requires Climbing(cfg, w, work) && work.queue[0] == [] && work.outstanding[0] == 0
    requires forall r: nat | 0 < r < cfg.n :: w.term.up[r]
    ensures Climbing(cfg, w', work) && V.CanFinish(cfg.n, cfg.k, w'.term)
    decreases Sum(Weights(w.term))
  {
    ReachableBase(cfg, w);
    if w.term.replies[0] == ChildCount(0, cfg.k, cfg.n) {
      w' := w;
    } else {
      var c := V.MissingChild(cfg.n, cfg.k, w.term, 0);
      assert V.EdgeOk(w.term, c, 0);
      SumIsNonNegative(Weights(w.term));
      var u := ClimbStep(cfg, w, work, V.Absorbing(0, c));
      w' := Gather(cfg, u, work);
    }
  }

  /** Every flag on its way up is 0. */
  predicate ZerosRise(w: World) {
    forall c: nat, i: nat | c < |w.term.rise| && i < |w.term.rise[c]| :: !w.term.rise[c][i]
  }

  lemma TermStepKeepsZeros(cfg: Config, w: World, a: TermStep)
    requires Shaped(cfg, w) && cfg.asWritten && TermEnabled(cfg, w, a) && ZerosRise(w)
    ensures ZerosRise(ApplyTerm(cfg, w, a))
    ensures a.TermFinish? ==> ApplyTerm(cfg, w, a).phase[0] == CleanUp
    ensures !a.TermAbsorb? ==> ApplyTerm(cfg, w, a).flag == w.flag
  {
    if a.TermRaise? || a.TermFinish? {
      var r := if a.TermRaise? then a.r else 0;
      assert w.flag[r := w.flag[r]] == w.flag;
    }
  }

  lemma {:induction false} RunKeepsZeros(cfg: Config, w: World, acts: seq<Action>, w': World)
    requires cfg.asWritten && ZerosRise(w) && Runs(cfg, w, acts, w')
    ensures ZerosRise(w')
    decreases |acts|
  {
    if acts != [] {
      match acts[0] {
        case Term(step) => TermStepKeepsZeros(cfg, w, step);
        case _ => NoFlagMoves(cfg, w, acts[0]);
      }
      RunKeepsZeros(cfg, Apply(cfg, w, acts[0]), acts[1..], w');
    }
  }

  lemma NoFlagMoves(cfg: Config, w: World, a: Action)
    requires Enabled(cfg, w, a) && !a.Term?
    ensures Apply(cfg, w, a).term == w.term
  {
  }

  /**
   * With the shadowed flag every rank sends 0 up, the first wave the root completes ends its work loop,
   * and the member flag is never set again.
   */
  lemma ShadowedFlagSendsZero(cfg: Config, w: World, a: TermStep)
    requires Reachable(cfg, w) && cfg.asWritten
    ensures forall c: nat, i: nat | c < cfg.n && i < |w.term.rise[c]| :: !w.term.rise[c][i]
    ensures TermEnabled(cfg, w, a) && a.TermFinish? ==> ApplyTerm(cfg, w, a).phase[0] == CleanUp
    ensures TermEnabled(cfg, w, a) ==> forall r: nat | r < cfg.n :: ApplyTerm(cfg, w, a).flag[r] ==> w.flag[r]
  {
    var w0, acts :| Init(cfg, w0) && Runs(cfg, w0, acts, w);
    RunKeepsZeros(cfg, w0, acts, w);
    if TermEnabled(cfg, w, a) { TermStepKeepsZeros(cfg, w, a); }
  }

  /**
   * With the flag shadowed, for every number of ranks above 1 and every tree width: the root
   * ends the run while rank 1 still holds the item it was given.
   */
  lemma ShadowedFlagEndsTooEarly(cfg: Config) returns (w: World)
    requires 1 < cfg.n && 0 < cfg.k && cfg.tree && cfg.asWritten
    ensures Reachable(cfg, w) && w.phase[0] == CleanUp && w.work.queue[1] == [Y]
  {
    var w1 := RankOneIsServed(cfg);
    var w2 := Gather(cfg, w1, w1.work);
    w := StepOn(cfg, w2, Action.Term(TermFinish));
  }

  /** All ranks but the root have sent up, and only then is rank 1 given an item. */
  lemma RankOneIsServed(cfg: Config) returns (w: World)
    requires 1 < cfg.n && 0 < cfg.k && cfg.tree && cfg.asWritten
    ensures Climbing(cfg, w, w.work) && SettledWork(cfg.n, w.work) && forall r: nat | 0 < r < cfg.n :: w.term.up[r]
  {
    var w0 := Open(cfg, cfg.n);
    forall r: nat | r < cfg.n
      ensures w0.phase[r] == Working && w0.term.fall[r] == []
      ensures w0.work.outstanding[r] == 0 && (r > 0 ==> w0.work.queue[r] == [])
    {
      assert OpeningAt(cfg, w0, cfg.n, r);
    }
    var w1 := Climb(cfg, w0, w0.work);
    forall r: nat | r < cfg.n ensures OpeningAt(cfg, w1, cfg.n, r) { assert OpeningAt(cfg, w0, cfg.n, r); }
    assert OpeningAt(cfg, w1, cfg.n, 0) && OpeningAt(cfg, w1, cfg.n, 1);
    var w2 := HandOver(cfg, w1);
    w := Settle(cfg, w1, w2);
  }

  /** What the work layer looks like once rank 1 has its item and rank 0 has asked for more. */
  ghost predicate SettledWork(n: nat, work: W.Work) {
    && W.Shaped(n, work) && 1 < n
    && (forall r: nat | r < n :: work.queue[r] == (if r == 1 then [Y] else []) && work.outstanding[r] == 0)
    && work.asked[0] == Some(1) && work.asked[1] == None && 0 in work.requests[1]
    && work.replies[0] == [] && work.gathered[1] == []
  }

  /** Rank 1 takes the item. */
  lemma SettleAccept(cfg: Config, u: World, v: World) returns (w: World)
    requires Split(cfg, u, v) && OpeningAt(cfg, u, cfg.n, 1)
    ensures Reachable(cfg, w) && w.phase == v.phase && w.term == v.term
    ensures w.work.queue == v.work.queue[1 := [Y]] && w.work.replies == v.work.replies[1 := []]
    ensures w.work.asked == v.work.asked[1 := None] && w.work.receipts == v.work.receipts[0 := v.work.receipts[0] + 1]
    ensures w.work.outstanding == v.work.outstanding && w.work.gathered == v.work.gathered
  {
    AcceptFirstWork(cfg.n, v.work);
    w := StepOn(cfg, v, Action.Work(W.Accept(1, 0)));
  }

  lemma AcceptFirstWork(n: nat, u: W.Work)
    requires W.Shaped(n, u) && 1 < n && u.asked[1] == Some(0) && u.replies[1] == [W.Reply(0, [Y])]
    ensures W.Enabled(n, u, W.Accept(1, 0))
    ensures var w := W.Apply(n, u, W.Accept(1, 0));
      && w.receipts == u.receipts[0 := u.receipts[0] + 1] && w.queue == u.queue[1 := [Y]]
      && w.asked == u.asked[1 := None] && w.replies == u.replies[1 := []]
      && w.outstanding == u.outstanding && w.gathered == u.gathered
  {
    assert W.OldestFrom(u.replies[1], 0, 0);
    assert [W.Reply(0, [Y])][..0] + [W.Reply(0, [Y])][1..] == [];
  }

  /** Rank 0 gets the receipt. */
  lemma SettleReceipt(cfg: Config, u: World) returns (w: World)
    requires Reachable(cfg, u) && 1 < cfg.n && u.phase[0] == Working
    requires u.work.outstanding[0] == 1 && u.work.receipts[0] == 1
    ensures Reachable(cfg, w) && w.phase == u.phase && w.term == u.term
    ensures w.work.outstanding == u.work.outstanding[0 := 0]
    ensures w.work == u.work.(outstanding := w.work.outstanding, receipts := w.work.receipts)
  {
    w := StepOn(cfg, u, Action.Work(W.Acknowledge(0)));
  }

  /** Rank 1 takes the item, rank 0 gets its receipt and asks for more work. */
  lemma Settle(cfg: Config, u: World, v: World) returns (w: World)
    requires Split(cfg, u, v) && forall r: nat | r < cfg.n :: OpeningAt(cfg, u, cfg.n, r)
    ensures Reachable(cfg, w) && w.phase == u.phase && w.term == u.term && SettledWork(cfg.n, w.work)
  {
    assert OpeningAt(cfg, u, cfg.n, 0) && OpeningAt(cfg, u, cfg.n, 1);
    var w1 := SettleAccept(cfg, u, v);
    var w2 := SettleReceipt(cfg, w1);
    w := SettleAsk(cfg, w2);
    forall r: nat | r < cfg.n ensures w.work.queue[r] == (if r == 1 then [Y] else []) && w.work.outstanding[r] == 0 {
      assert OpeningAt(cfg, u, cfg.n, r);
    }
  }

  lemma SettleAsk(cfg: Config, u: World) returns (w: World)
    requires Reachable(cfg, u) && 1 < cfg.n && u.phase[0] == Working && u.work.queue[0] == [] && u.work.asked[0] == None
    ensures Reachable(cfg, w) && w.phase == u.phase && w.term == u.term
    ensures w.work.asked == u.work.asked[0 := Some(1)] && 0 in w.work.requests[1]
    ensures w.work == u.work.(asked := w.work.asked, requests := w.work.requests)
  {
    w := StepOn(cfg, u, Action.Work(W.Ask(0, 1)));
  }

  // ---------------------------------------------------------------- a white token goes round

  /** Every rank may pass the token on: it has no work, and under the guard none is travelling to it. */
  ghost predicate AllMayPass(cfg: Config, work: W.Work)
    requires W.Shaped(cfg.n, work)
  {
    forall r: nat | r < cfg.n :: work.queue[r] == [] && (cfg.delivery ==> !W.HasWork(work.replies[r]))
  }

  /** The white token travels and finds every rank white and idle. */
  ghost predicate Touring(cfg: Config, w: World, work: W.Work, t: nat) {
    && Reachable(cfg, w) && !cfg.tree && 1 < cfg.n && w.work == work && AllMayPass(cfg, work)
    && (forall r: nat | r < cfg.n :: w.phase[r] == Working && w.ring.proc[r] == R.White)
    && R.TokenAt(cfg.n, w.ring, t, true) && w.ring.wire[t] == [R.White]
  }

  /** Rank `t` receives the token and, being idle, passes it on. */
  lemma TourStep(cfg: Config, w: World, work: W.Work, t: nat) returns (w': World)
    requires Touring(cfg, w, work, t) && 0 < t
    ensures Touring(cfg, w', work, R.TokenDest(t, cfg.n))
  {
    var w1 := TourReceive(cfg, w, work, t);
    TourLanding(cfg, w, work, w1.ring, t);
    w' := PassOn(cfg, w1, t);
  }

  lemma TourReceive(cfg: Config, w: World, work: W.Work, t: nat) returns (w1: World)
    requires Touring(cfg, w, work, t) && 0 < t
    ensures Reachable(cfg, w1) && w1.phase == w.phase && w1.work == w.work
    ensures w1.ring == R.Receive(cfg.n, w.ring, t) && R.CanSend(cfg.n, w1.ring, t)
  {
    w1 := StepOn(cfg, w, Action.Token(TokenReceive(t)));
  }

  lemma PassOn(cfg: Config, w: World, t: nat) returns (w': World)
    requires Reachable(cfg, w) && !cfg.tree && t < cfg.n && AllMayPass(cfg, w.work)
    requires w.phase[t] == Working && R.CanSend(cfg.n, w.ring, t)
    ensures Reachable(cfg, w') && w'.phase == w.phase && w'.work == w.work && w'.ring == R.Send(cfg.n, w.ring, t)
  {
    w' := StepOn(cfg, w, Action.Token(TokenSend(t)));
  }

  lemma TourLanding(cfg: Config, w: World, work: W.Work, ring: R.Ring, t: nat)
    requires Touring(cfg, w, work, t) && 0 < t && ring == R.Receive(cfg.n, w.ring, t)
    requires R.CanSend(cfg.n, ring, t)
    ensures var d, ring' := R.TokenDest(t, cfg.n), R.Send(cfg.n, ring, t);
      R.TokenAt(cfg.n, ring', d, true) && ring'.wire[d] == [R.White] && ring'.proc == w.ring.proc
  {
  }

  lemma {:induction false} Tour(cfg: Config, w: World, work: W.Work, t: nat) returns (w': World)
    requires Touring(cfg, w, work, t) && 0 < t
    ensures Touring(cfg, w', work, 0)
    decreases cfg.n - t
  {
    var d := R.TokenDest(t, cfg.n);
    w' := TourStep(cfg, w, work, t);
    if d != 0 { w' := Tour(cfg, w', work, d); }
  }

  lemma AskAgain(cfg: Config, w: World) returns (w': World)
    requires Reachable(cfg, w) && 1 < cfg.n && w.phase[0] == Working && w.work.queue[0] == [] && w.work.asked[0] == None
    ensures Reachable(cfg, w') && w'.phase == w.phase && w'.ring == w.ring
    ensures w'.work.queue == w.work.queue && w'.work.replies == w.work.replies && w'.work.receipts == w.work.receipts
  {
    w' := StepOn(cfg, w, Action.Work(W.Ask(0, 1)));
  }

  /** Nobody but rank 0 may have changed colour, and the token has not moved. */
  ghost predicate BeforeTour(n: nat, x: R.Ring) {
    && 1 < n && R.Shaped(n, x) && x == R.Start(n).(proc := R.Start(n).proc[0 := x.proc[0]])
    && x.proc[0] != R.Terminate
  }

  lemma FirstHop(n: nat, x: R.Ring)
    requires BeforeTour(n, x)
    ensures R.CanSend(n, x, 0)
    ensures var y := R.Send(n, x, 0);
      && R.TokenAt(n, y, 1, true) && y.wire[1] == [R.White]
      && forall r: nat | r < n :: y.proc[r] == R.White
  {
  }

  /** Rank 0 starts the token, and it comes back white. */
  lemma RoundTrip(cfg: Config, w: World) returns (w': World)
    requires Reachable(cfg, w) && !cfg.tree && BeforeTour(cfg.n, w.ring) && AllMayPass(cfg, w.work)
    requires forall r: nat | r < cfg.n :: w.phase[r] == Working
    ensures Touring(cfg, w', w.work, 0)
  {
    FirstHop(cfg.n, w.ring);
    var w1 := PassOn(cfg, w, 0);
    w' := Tour(cfg, w1, w.work, 1);
  }

  lemma SplitIsBeforeTour(cfg: Config, w0: World, w1: World)
    requires Opening(cfg, w0, cfg.n) && Split(cfg, w0, w1)
    ensures BeforeTour(cfg.n, w1.ring) && w1.work.asked[0] == None
    ensures forall r: nat | r < cfg.n :: w1.phase[r] == Working && w1.work.queue[r] == []
    ensures forall r: nat | r < cfg.n && r != 1 :: w1.work.replies[r] == []
    ensures w1.work.asked[1] == Some(0) && w1.work.receipts[0] == 0
  {
    forall r: nat | r < cfg.n
      ensures w1.phase[r] == Working && w1.work.queue[r] == [] && (r != 1 ==> w1.work.replies[r] == [])
    {
      assert OpeningAt(cfg, w0, cfg.n, r);
    }
    assert OpeningAt(cfg, w0, cfg.n, 0) && OpeningAt(cfg, w0, cfg.n, 1);
  }

  lemma LastHop(cfg: Config, u: World, work: W.Work) returns (w: World)
    requires Touring(cfg, u, work, 0)
    ensures Reachable(cfg, w) && w.phase == u.phase[0 := CleanUp] && w.work == work
    ensures w.ring == R.Receive(cfg.n, u.ring, 0)
  {
    w := StepOn(cfg, u, Action.Token(TokenReceive(0)));
  }

  // ---------------------------------------------------------------- the unguarded ring

  /**
   * Without the delivery guard, for every number of ranks above 1: rank 0 ends the run while
   * an item is still travelling to rank 1.
   */
  lemma UnguardedRingEndsTooEarly(cfg: Config) returns (w: World)
    requires 1 < cfg.n && 0 < cfg.k && !cfg.tree && !cfg.delivery
    ensures Reachable(cfg, w) && w.phase[0] == CleanUp && w.work.replies[1] == [W.Reply(0, [Y])]
  {
    var w1 := ItemInFlight(cfg);
    var w2 := RoundTrip(cfg, w1);
    w := LastHop(cfg, w2, w1.work);
  }

  /** Nobody holds work, and one item is under way to rank 1. */
  lemma ItemInFlight(cfg: Config) returns (w: World)
    requires 1 < cfg.n && 0 < cfg.k
    ensures Reachable(cfg, w) && BeforeTour(cfg.n, w.ring) && w.work.replies[1] == [W.Reply(0, [Y])]
    ensures forall r: nat | r < cfg.n :: w.phase[r] == Working && w.work.queue[r] == []
  {
    var w0 := Open(cfg, cfg.n);
    assert OpeningAt(cfg, w0, cfg.n, 0) && OpeningAt(cfg, w0, cfg.n, 1);
    var w1 := HandOver(cfg, w0);
    SplitIsBeforeTour(cfg, w0, w1);
    w := AskAgain(cfg, w1);
  }

  // ---------------------------------------------------------------- the exact condition

  /**
   * Termination is complete in every reachable state exactly when there is a single rank, or the
   * allreduce uses the member flag, or the ring forwards its token under the delivery guard.
   */
  lemma CompleteExactlyWhenSound(cfg: Config)
    requires 0 < cfg.n && 0 < cfg.k
    ensures (forall w :: Reachable(cfg, w) && Terminated(cfg, w) ==> Complete(cfg, w)) <==> Sound(cfg)
  {
    if Sound(cfg) {
      forall w | Reachable(cfg, w) && Terminated(cfg, w) ensures Complete(cfg, w) {
        TerminationIsComplete(cfg, w);
      }
    } else {
      var w: World;
      if cfg.tree { w := ShadowedFlagEndsTooEarly(cfg); } else { w := UnguardedRingEndsTooEarly(cfg); }
      assert w.phase[0] != Working;
      assert cfg.tree || w.work.replies[1][0].items != [];
      assert !Idle(w.work, 1);
      assert !Complete(cfg, w);
    }
  }
}
