/** When work receipts are drained at exit: always with the allreduce, and in the ring only with one rank. */
module ReceiptDrain {
  import opened Common
  import opened KaryTree
  import opened System
  import opened Invariants
  import opened TreeSafety
  import opened EndToEnd
  import opened Counterexamples
  import opened CleanUpProgress
  import W = WorkProtocol
  import V = TreeWave
  import R = TokenRing

  // ---------------------------------------------------------------- one rank

  /** A single rank has nobody to exchange work with, so no receipt is ever sent. */
  lemma LoneStep(cfg: Config, w: World, a: Action)
    requires BaseInv(cfg, w) && Enabled(cfg, w, a) && cfg.n == 1 && w.work.receipts[0] == 0
    ensures Shaped(cfg, Apply(cfg, w, a)) && Apply(cfg, w, a).work.receipts[0] == 0
  {
    if a.Work? {
      LoneWorkStep(w.work, a.work);
      WorkStepIsOwn(cfg, w, a.work);
    } else {
      OtherStepKeepsWork(cfg, w, a);
    }
  }

  lemma LoneWorkStep(w: W.Work, a: W.WorkStep)
    requires W.Shaped(1, w) && W.Paired(1, w) && W.Enabled(1, w, a) && w.receipts[0] == 0
    ensures W.Apply(1, w, a).receipts[0] == 0
  {
    assert W.PairedAt(1, w, 0);
  }

  lemma {:induction false} LoneRun(cfg: Config, w: World, acts: seq<Action>, w': World)
    requires BaseInv(cfg, w) && cfg.n == 1 && w.work.receipts[0] == 0 && Runs(cfg, w, acts, w')
    ensures BaseInv(cfg, w') && w'.work.receipts[0] == 0
    decreases |acts|
  {
    if acts != [] {
      LoneStep(cfg, w, acts[0]);
      StepKeepsBase(cfg, w, acts[0]);
      LoneRun(cfg, Apply(cfg, w, acts[0]), acts[1..], w');
    }
  }

  lemma LoneRankIsSettled(cfg: Config, w: World)
    requires Reachable(cfg, w) && cfg.n == 1 && !cfg.tree
    ensures SettledWiresAt(cfg, w, 0)
  {
    var w0, acts :| Init(cfg, w0) && Runs(cfg, w0, acts, w);
    InitBase(cfg, w0);
    LoneRun(cfg, w0, acts, w);
  }

  // ---------------------------------------------------------------- a receipt left behind

  /** Rank 1 takes its item, processes it and asks again; its receipt is under way to rank 0. */
  lemma TakeAndFinish(cfg: Config, u: World) returns (w: World)
    requires Reachable(cfg, u) && 1 < cfg.n && u.work.asked[1] == Some(0) && u.work.replies[1] == [W.Reply(0, [Y])]
    requires u.work.queue[1] == [] && u.phase[1] == Working
    ensures Reachable(cfg, w) && w.phase == u.phase && w.ring == u.ring && w.work.asked[0] == u.work.asked[0]
    ensures w.work.receipts[0] == u.work.receipts[0] + 1 && w.work.queue == u.work.queue
    ensures w.work.replies == u.work.replies[1 := []]
  {
    var w1 := AcceptFirst(cfg, u);
    var w2 := ProcessTaken(cfg, w1);
    w := StepOn(cfg, w2, Action.Work(W.Ask(1, 0)));
    assert u.work.queue[1 := [Y]][1 := []] == u.work.queue;
  }

  lemma AcceptFirst(cfg: Config, u: World) returns (w: World)
    requires Reachable(cfg, u) && 1 < cfg.n && u.work.asked[1] == Some(0) && u.work.replies[1] == [W.Reply(0, [Y])]
    requires u.work.queue[1] == [] && u.phase[1] != Left
    ensures Reachable(cfg, w) && w.phase == u.phase && w.ring == u.ring
    ensures w.work.receipts == u.work.receipts[0 := u.work.receipts[0] + 1]
    ensures w.work.queue == u.work.queue[1 := [Y]] && w.work.asked == u.work.asked[1 := None]
    ensures w.work.replies == u.work.replies[1 := []]
  {
    AcceptFirstWork(cfg.n, u.work);
    w := StepOn(cfg, u, Action.Work(W.Accept(1, 0)));
  }

  lemma ProcessTaken(cfg: Config, u: World) returns (w: World)
    requires Reachable(cfg, u) && 1 < cfg.n && u.work.queue[1] == [Y] && u.phase[1] == Working
    ensures Reachable(cfg, w) && w.work.queue == u.work.queue[1 := []]
    ensures w == u.(work := u.work.(queue := w.work.queue, handled := w.work.handled, processed := w.work.processed,
                                      created := w.work.created))
  {
    w := StepOn(cfg, u, Action.Work(W.Process(1, [])));
    assert [Y][..0] + [] == [];
  }

  /** The terminate token has passed the ranks below `t` and is under way to it. */
  ghost predicate Parading(cfg: Config, w: World, work: W.Work, t: nat) {
    && Reachable(cfg, w) && !cfg.tree && w.work == work && 0 < t < cfg.n
    && (forall r: nat | r < cfg.n :: w.work.queue[r] == [] && w.phase[r] == if r < t then CleanUp else Working)
    && R.TokenAt(cfg.n, w.ring, t, true) && w.ring.wire[t] == [R.Terminate]
  }

  lemma ParadeStep(cfg: Config, w: World, work: W.Work, t: nat) returns (w': World)
    requires Parading(cfg, w, work, t)
    ensures Reachable(cfg, w') && w'.work == work && w'.phase == w.phase[t := CleanUp]
    ensures w'.ring == R.Receive(cfg.n, w.ring, t)
  {
    StillListening(cfg, w, t);
    w' := StepOn(cfg, w, Action.Token(TokenReceive(t)));
  }

  lemma StillListening(cfg: Config, w: World, t: nat)
    requires Reachable(cfg, w) && !cfg.tree && t < cfg.n && w.phase[t] == Working
    ensures w.ring.proc[t] != R.Terminate
  {
    ReachableBase(cfg, w);
    assert ModeAt(cfg, w, t);
  }

  lemma ParadeLanding(n: nat, x: R.Ring, t: nat)
    requires R.Shaped(n, x) && R.TokenAt(n, x, t, true) && x.wire[t] == [R.Terminate] && t < n - 1
    ensures R.TokenAt(n, R.Receive(n, x, t), t + 1, true) && R.Receive(n, x, t).wire[t + 1] == [R.Terminate]
  {
  }

  /** The terminate token reaches every rank. */
  lemma {:induction false} Parade(cfg: Config, w: World, work: W.Work, t: nat) returns (w': World)
    requires Parading(cfg, w, work, t)
    ensures Reachable(cfg, w') && w'.work == work && forall r: nat | r < cfg.n :: w'.phase[r] == CleanUp
    decreases cfg.n - t
  {
    w' := ParadeStep(cfg, w, work, t);
    if t < cfg.n - 1 {
      ParadeLanding(cfg.n, w.ring, t);
      w' := Parade(cfg, w', work, t + 1);
    }
  }

  /** Rank 0's decision sends the terminate token on its way. */
  lemma DecisionIsParade(cfg: Config, u: World, w: World, work: W.Work)
    requires Touring(cfg, u, work, 0) && Reachable(cfg, w) && w.work == work && w.phase == u.phase[0 := CleanUp]
    requires w.ring == R.Receive(cfg.n, u.ring, 0)
    ensures Parading(cfg, w, work, 1)
  {
  }

  lemma OnlyAcknowledgingTakesReceipts(n: nat, w: W.Work, a: W.WorkStep, q: nat)
    requires W.Shaped(n, w) && W.Enabled(n, w, a) && q < n && !a.Acknowledge?
    ensures W.Apply(n, w, a).receipts[q] >= w.receipts[q]
  {
  }

  lemma NobodyAcknowledges(cfg: Config, w: World, a: W.WorkStep)
    requires WorkGuard(w, a) && |w.phase| == cfg.n && forall r: nat | r < cfg.n :: w.phase[r] != Working
    ensures !a.Acknowledge?
  {
  }

  /** No step in clean-up takes a receipt. */
  lemma StoppedKeepsReceipts(cfg: Config, w: World, a: Action, q: nat)
    requires AllStopped(cfg, w) && Enabled(cfg, w, a) && q < cfg.n
    ensures Shaped(cfg, Apply(cfg, w, a)) && Apply(cfg, w, a).work.receipts[q] >= w.work.receipts[q]
  {
    StepKeepsBase(cfg, w, a);
    if a.Work? {
      NobodyAcknowledges(cfg, w, a.work);
      OnlyAcknowledgingTakesReceipts(cfg.n, w.work, a.work, q);
      WorkStepIsOwn(cfg, w, a.work);
    } else {
      OtherStepKeepsWork(cfg, w, a);
    }
  }

  lemma {:induction false} StoppedRunKeepsReceipts(cfg: Config, w: World, acts: seq<Action>, w': World, q: nat)
    requires AllStopped(cfg, w) && Path(NextMove(cfg), w, acts, w') && q < cfg.n
    ensures AllStopped(cfg, w') && w'.work.receipts[q] >= w.work.receipts[q]
    decreases |acts|
  {
    if acts != [] {
      StepKeepsStopped(cfg, w, acts[0]);
      StoppedKeepsReceipts(cfg, w, acts[0], q);
      StoppedRunKeepsReceipts(cfg, Apply(cfg, w, acts[0]), acts[1..], w', q);
    }
  }

  /** In ring mode, guarded or not, for every number of ranks above 1: a receipt outlives the barrier. */
  lemma RingReceiptsRemain(cfg: Config) returns (w: World)
    requires 1 < cfg.n && 0 < cfg.k && !cfg.tree
    ensures Reachable(cfg, w) && (forall r: nat | r < cfg.n :: w.phase[r] == Left) && w.work.receipts[0] > 0
  {
    var w1 := AllDoneButTheReceipt(cfg);
    assert AllMayPass(cfg, w1.work);
    var w2 := RingStops(cfg, w1);
    ReachableBase(cfg, w2);
    var acts;
    acts, w := CleanUpCompletes(cfg, w2);
    StoppedRunKeepsReceipts(cfg, w2, acts, w, 0);
  }

  /** Everybody is idle, no work travels, and rank 1's receipt is under way to rank 0. */
  lemma AllDoneButTheReceipt(cfg: Config) returns (w: World)
    requires 1 < cfg.n && 0 < cfg.k
    ensures Reachable(cfg, w) && BeforeTour(cfg.n, w.ring) && w.work.receipts[0] == 1
    ensures forall r: nat | r < cfg.n :: w.phase[r] == Working && w.work.queue[r] == [] && w.work.replies[r] == []
  {
    var w0 := Open(cfg, cfg.n);
    assert OpeningAt(cfg, w0, cfg.n, 0) && OpeningAt(cfg, w0, cfg.n, 1);
    var w1 := HandOver(cfg, w0);
    SplitIsBeforeTour(cfg, w0, w1);
    var w2 := TakeAndFinish(cfg, w1);
    w := AskAgain(cfg, w2);
  }

  /** The token goes round, guarded or not, and then the terminate token. */
  lemma RingStops(cfg: Config, w: World) returns (w': World)
    requires Reachable(cfg, w) && !cfg.tree && BeforeTour(cfg.n, w.ring)
    requires AllMayPass(cfg, w.work) && forall r: nat | r < cfg.n :: w.phase[r] == Working
    ensures Reachable(cfg, w') && w'.work == w.work && forall r: nat | r < cfg.n :: w'.phase[r] == CleanUp
  {
    var w1 := RoundTrip(cfg, w);
    var w2 := LastHop(cfg, w1, w.work);
    DecisionIsParade(cfg, w1, w2, w.work);
    w' := Parade(cfg, w2, w.work, 1);
  }

  // ---------------------------------------------------------------- the exact condition

  ghost predicate SettledAtExit(cfg: Config, w: World)
    requires Shaped(cfg, w)
  {
    (exists r: nat :: r < cfg.n && w.phase[r] == Left) ==> forall q: nat | q < cfg.n :: SettledWiresAt(cfg, w, q)
  }

  /**
   * No work receipt and no termination message outlives the barrier exactly when the allreduce
   * is used, as written or not, or there is a single rank.
   */
  lemma ReceiptsDrainedExactlyWhen(cfg: Config)
    requires 0 < cfg.n && 0 < cfg.k
    ensures (forall w :: Reachable(cfg, w) ==> SettledAtExit(cfg, w)) <==> cfg.tree || cfg.n == 1
  {
    if cfg.tree || cfg.n == 1 {
      forall w | Reachable(cfg, w) ensures SettledAtExit(cfg, w) {
        if r: nat :| r < cfg.n && w.phase[r] == Left {
          if cfg.tree { TreeBarrierMeansSettled(cfg, w, r); } else { LoneRankIsSettled(cfg, w); }
        }
      }
    } else {
      var w := RingReceiptsRemain(cfg);
      ReceiptIsUnsettled(cfg, w);
    }
  }

  lemma ReceiptIsUnsettled(cfg: Config, w: World)
    requires Shaped(cfg, w) && w.phase[0] == Left && w.work.receipts[0] > 0
    ensures !SettledAtExit(cfg, w)
  {
    assert !SettledWiresAt(cfg, w, 0);
  }
}
