/**
 * What an unsound configuration costs: work is received during clean-up, where nobody processes it, and is
 * lost when the ranks leave.  Both happen exactly in the configurations that are not sound.
 */
module LostWork {
  import opened Common
  import opened System
  import opened Invariants
  import opened EndToEnd
  import opened Counterexamples
  import opened CleanUpProgress
  import opened ReceiptDrain
  import opened RunsEnd
  import W = WorkProtocol
  import V = TreeWave

  // ---------------------------------------------------------------- items held in clean-up stay

  /** Rank `q` holds items and waits for no reply that could replace them. */
  ghost predicate Leftover(n: nat, w: W.Work, q: nat) {
    W.Shaped(n, w) && q < n && w.queue[q] != [] && w.asked[q] == None
  }

  /** What the handlers do with work messages once the work loop is over. */
  predicate IsDraining(a: W.WorkStep) {
    a.Collect? || (a.Serve? && a.share == 0) || a.Accept?
  }

  lemma StoppedWorkIsDraining(cfg: Config, w: World, a: W.WorkStep)
    requires WorkGuard(w, a) && |w.phase| == cfg.n && forall r: nat | r < cfg.n :: w.phase[r] != Working
    ensures IsDraining(a)
  {
  }

  lemma DrainingKeepsLeftover(n: nat, w: W.Work, a: W.WorkStep, q: nat)
    requires Leftover(n, w, q) && W.Enabled(n, w, a) && IsDraining(a)
    ensures Leftover(n, W.Apply(n, w, a), q)
  {
  }

  lemma StoppedKeepsLeftover(cfg: Config, w: World, a: Action, q: nat)
    requires AllStopped(cfg, w) && Enabled(cfg, w, a) && Leftover(cfg.n, w.work, q)
    ensures Leftover(cfg.n, Apply(cfg, w, a).work, q)
  {
    if a.Work? {
      StoppedWorkIsDraining(cfg, w, a.work);
      DrainingKeepsLeftover(cfg.n, w.work, a.work, q);
      WorkStepIsOwn(cfg, w, a.work);
    } else {
      OtherStepKeepsWork(cfg, w, a);
    }
  }

  lemma {:induction false} StoppedRunKeepsLeftover(cfg: Config, w: World, acts: seq<Action>, w': World, q: nat)
    requires AllStopped(cfg, w) && Path(NextMove(cfg), w, acts, w') && Leftover(cfg.n, w.work, q)
    ensures Leftover(cfg.n, w'.work, q)
    decreases |acts|
  {
    if acts != [] {
      StepKeepsStopped(cfg, w, acts[0]);
      StoppedKeepsLeftover(cfg, w, acts[0], q);
      StoppedRunKeepsLeftover(cfg, Apply(cfg, w, acts[0]), acts[1..], w', q);
    }
  }

  /** An item still queued has been created and not processed. */
  lemma QueuedIsUnprocessed(n: nat, w: W.Work, q: nat)
    requires W.Shaped(n, w) && W.Conserved(n, w) && q < n && w.queue[q] != []
    ensures w.processed != w.created
  {
    var h, e := W.Held(n, w), w.queue[q][0];
    assert e in multiset(w.queue[q]);
    UnionUpdate(h, q, multiset{});
    assert e in h[q] && Union(h) + multiset{} == Union(h);
    assert e in Union(h);
  }

  /** All ranks have left the barrier, and some item was never processed. */
  ghost predicate Lost(cfg: Config, w: World) {
    && Reachable(cfg, w) && (forall r: nat | r < cfg.n :: w.phase[r] == Left)
    && w.work.processed != w.work.created
  }

  /** What a rank holds when the work loop is over everywhere is lost. */
  lemma LeftoverIsLost(cfg: Config, w: World, q: nat) returns (w': World)
    requires Reachable(cfg, w) && Leftover(cfg.n, w.work, q) && forall r: nat | r < cfg.n :: w.phase[r] != Working
    ensures Lost(cfg, w')
  {
    ReachableBase(cfg, w);
    var acts;
    acts, w' := CleanUpCompletes(cfg, w);
    StoppedRunKeepsLeftover(cfg, w, acts, w', q);
    ReachableBase(cfg, w');
    QueuedIsUnprocessed(cfg.n, w'.work, q);
  }

  /** Rank `r`, in clean-up, can receive a reply that carries items. */
  ghost predicate MeetsWork(cfg: Config, w: World, r: nat, j: nat) {
    && Reachable(cfg, w) && Enabled(cfg, w, Action.Work(W.Accept(r, j))) && w.phase[r] == CleanUp
    && w.work.replies[r][j].items != []
  }

  // ---------------------------------------------------------------- the unguarded ring

  /** Everybody is in clean-up, and an item travels to rank 1. */
  lemma RingCleanUpMeetsWork(cfg: Config) returns (w: World)
    requires 1 < cfg.n && 0 < cfg.k && !cfg.tree && !cfg.delivery
    ensures MeetsWork(cfg, w, 1, 0) && forall r: nat | r < cfg.n :: w.phase[r] == CleanUp
    ensures w.work.replies[1] == [W.Reply(0, [Y])] && w.work.asked[1] == Some(0) && w.work.queue[1] == []
  {
    var u := ItemInFlight(cfg);
    w := RingStops(cfg, u);
    ReachableBase(cfg, w);
    assert W.PairedAt(cfg.n, w.work, 1);
    AcceptFirstWork(cfg.n, w.work);
  }

  /** Without the delivery guard, for every number of ranks above 1, a run can lose an item. */
  lemma UnguardedRingLosesWork(cfg: Config) returns (w: World)
    requires 1 < cfg.n && 0 < cfg.k && !cfg.tree && !cfg.delivery
    ensures Lost(cfg, w)
  {
    var w1 := RingCleanUpMeetsWork(cfg);
    var w2 := AcceptFirst(cfg, w1);
    w := LeftoverIsLost(cfg, w2, 1);
  }

  // ---------------------------------------------------------------- the shadowed flag

  /** Ranks 0 and 1 hold `q0` and `q1`; rank 1 alone has `out` transfers that are not acknowledged. */
  ghost predicate Holding(n: nat, work: W.Work, q0: seq<Item>, q1: seq<Item>, out: nat) {
    && W.Shaped(n, work) && 1 < n
    && forall r: nat | r < n ::
         && work.queue[r] == (if r == 0 then q0 else if r == 1 then q1 else [])
         && work.outstanding[r] == if r == 1 then out else 0
  }

  /** Rank 1 processes its item and pushes two. */
  lemma SpawnTwo(cfg: Config, u: World) returns (w: World)
    requires Reachable(cfg, u) && Holding(cfg.n, u.work, [], [Y], 0) && u.phase[1] == Working
    ensures Reachable(cfg, w) && w.phase == u.phase && w.term == u.term
    ensures Holding(cfg.n, w.work, [], [X, Y], 0) && SameMail(u.work, w.work)
  {
    SpawnTwoWork(cfg.n, u.work);
    w := StepOn(cfg, u, Action.Work(W.Process(1, [X, Y])));
  }

  ghost predicate SameMail(u: W.Work, w: W.Work) {
    && w.asked == u.asked && w.requests == u.requests && w.gathered == u.gathered
    && w.replies == u.replies
  }

  lemma SpawnTwoWork(n: nat, u: W.Work)
    requires Holding(n, u, [], [Y], 0)
    ensures W.Enabled(n, u, W.Process(1, [X, Y]))
    ensures var w := W.Apply(n, u, W.Process(1, [X, Y])); Holding(n, w, [], [X, Y], 0) && SameMail(u, w)
  {
    assert [Y][..0] + [X, Y] == [X, Y];
  }

  /** It finds the request of rank 0. */
  lemma CollectBack(cfg: Config, u: World) returns (w: World)
    requires Reachable(cfg, u) && Holding(cfg.n, u.work, [], [X, Y], 0) && u.phase[1] == Working
    requires 0 in u.work.requests[1] && u.work.gathered[1] == []
    ensures Reachable(cfg, w) && w.phase == u.phase && w.term == u.term
    ensures Holding(cfg.n, w.work, [], [X, Y], 0) && w.work.gathered[1] == [0]
    ensures w.work.asked == u.work.asked && w.work.replies == u.work.replies
  {
    w := StepOn(cfg, u, Action.Work(W.Collect(1, 0)));
    assert [] + [0] == [0];
  }

  /** It sends rank 0 one of the items. */
  lemma ServeBack(cfg: Config, u: World) returns (w: World)
    requires Reachable(cfg, u) && Holding(cfg.n, u.work, [], [X, Y], 0) && u.phase[1] == Working
    requires u.work.gathered[1] == [0] && u.work.replies[0] == []
    ensures Reachable(cfg, w) && w.phase == u.phase && w.term == u.term
    ensures Holding(cfg.n, w.work, [], [X], 1)
    ensures w.work.asked == u.work.asked && w.work.replies[0] == [W.Reply(1, [Y])]
  {
    ServeBackWork(cfg.n, u.work);
    w := StepOn(cfg, u, Action.Work(W.Serve(1, 1)));
  }

  lemma ServeBackWork(n: nat, u: W.Work)
    requires Holding(n, u, [], [X, Y], 0) && u.gathered[1] == [0] && u.replies[0] == []
    ensures W.Enabled(n, u, W.Serve(1, 1))
    ensures var w := W.Apply(n, u, W.Serve(1, 1));
      Holding(n, w, [], [X], 1) && w.asked == u.asked && w.replies[0] == [W.Reply(1, [Y])]
  {
    assert W.Kept([X, Y], 1) == [X] && W.Sent([X, Y], 1) == [Y];
    assert [] + [W.Reply(1, [Y])] == [W.Reply(1, [Y])];
  }

  /** Rank 0 has decided, rank 1 holds an item, and another travels to rank 0. */
  ghost predicate DecidedTooEarly(cfg: Config, w: World) {
    && Reachable(cfg, w) && cfg.tree && Holding(cfg.n, w.work, [], [X], 1)
    && w.work.asked[0] == Some(1) && w.work.asked[1] == None && w.work.replies[0] == [W.Reply(1, [Y])]
    && forall r: nat | r < cfg.n :: w.phase[r] == if r == 0 then CleanUp else Working
  }

  /** The root's clean-up meets an item that rank 1 was still free to send. */
  lemma TreeCleanUpMeetsWork(cfg: Config) returns (w: World)
    requires 1 < cfg.n && 0 < cfg.k && cfg.tree && cfg.asWritten
    ensures DecidedTooEarly(cfg, w) && MeetsWork(cfg, w, 0, 0)
  {
    var w1 := RankOneIsServed(cfg);
    var w2 := SpawnTwo(cfg, w1);
    var w3 := CollectBack(cfg, w2);
    var w4 := ServeBack(cfg, w3);
    var w5 := Gather(cfg, w4, w4.work);
    w := FinishEarly(cfg, w5);
    AcceptBackWork(cfg.n, w.work);
  }

  lemma FinishEarly(cfg: Config, u: World) returns (w: World)
    requires Climbing(cfg, u, u.work) && V.CanFinish(cfg.n, cfg.k, u.term) && Holding(cfg.n, u.work, [], [X], 1)
    ensures Reachable(cfg, w) && w.work == u.work && w.phase == u.phase[0 := CleanUp]
  {
    w := StepOn(cfg, u, Action.Term(TermFinish));
  }

  /** Ranks 0 and 1 wait for no reply. */
  predicate NobodyWaits(w: W.Work) {
    |w.asked| > 1 && w.asked[0] == None && w.asked[1] == None
  }

  lemma AcceptBackWork(n: nat, u: W.Work)
    requires Holding(n, u, [], [X], 1) && u.replies[0] == [W.Reply(1, [Y])]
    requires u.asked[0] == Some(1) && u.asked[1] == None
    ensures W.Enabled(n, u, W.Accept(0, 0))
    ensures var w := W.Apply(n, u, W.Accept(0, 0));
      Holding(n, w, [Y], [X], 1) && NobodyWaits(w) && w.receipts[1] > 0
  {
    assert W.OldestFrom(u.replies[0], 1, 0);
  }

  /** The root takes the item in clean-up. */
  lemma AcceptBack(cfg: Config, u: World) returns (w: World)
    requires DecidedTooEarly(cfg, u)
    ensures Reachable(cfg, w) && w.phase == u.phase
    ensures Holding(cfg.n, w.work, [Y], [X], 1) && NobodyWaits(w.work) && w.work.receipts[1] > 0
  {
    AcceptBackWork(cfg.n, u.work);
    w := StepOn(cfg, u, Action.Work(W.Accept(0, 0)));
  }

  /** Rank 1 gets its receipt. */
  lemma ReceiptBack(cfg: Config, u: World) returns (w: World)
    requires Reachable(cfg, u) && Holding(cfg.n, u.work, [Y], [X], 1) && u.phase[1] == Working
    requires NobodyWaits(u.work) && u.work.receipts[1] > 0
    ensures Reachable(cfg, w) && w.phase == u.phase
    ensures Holding(cfg.n, w.work, [Y], [X], 0) && NobodyWaits(w.work)
  {
    w := StepOn(cfg, u, Action.Work(W.Acknowledge(1)));
  }

  /** Rank 1 processes what it has left. */
  lemma FinishRest(cfg: Config, u: World) returns (w: World)
    requires Reachable(cfg, u) && Holding(cfg.n, u.work, [Y], [X], 0) && u.phase[1] == Working
    requires NobodyWaits(u.work)
    ensures Reachable(cfg, w) && w.phase == u.phase
    ensures Holding(cfg.n, w.work, [Y], [], 0) && NobodyWaits(w.work)
  {
    w := StepOn(cfg, u, Action.Work(W.Process(1, [])));
    assert [X][..0] + [] == [];
  }

  /** Being idle, rank 1 asks for more before it looks at the allreduce. */
  lemma AskLast(cfg: Config, u: World) returns (w: World)
    requires Reachable(cfg, u) && Holding(cfg.n, u.work, [Y], [], 0) && NobodyWaits(u.work) && u.phase[1] == Working
    ensures Reachable(cfg, w) && w.phase == u.phase
    ensures Holding(cfg.n, w.work, [Y], [], 0) && w.work.asked[0] == None
  {
    w := StepOn(cfg, u, Action.Work(W.Ask(1, 0)));
  }

  /** With the flag shadowed, for every number of ranks above 1 and every tree width, a run can lose an item. */
  lemma ShadowedFlagLosesWork(cfg: Config) returns (w: World)
    requires 1 < cfg.n && 0 < cfg.k && cfg.tree && cfg.asWritten
    ensures Lost(cfg, w)
  {
    var w1 := TreeCleanUpMeetsWork(cfg);
    var w2 := AcceptBack(cfg, w1);
    var w3 := ReceiptBack(cfg, w2);
    var w4 := FinishRest(cfg, w3);
    var w5 := AskLast(cfg, w4);
    var w6 := EverybodyStops(cfg, w5);
    w := LeftoverIsLost(cfg, w6, 0);
  }

  // ---------------------------------------------------------------- the exact conditions

  /**
   * No run that all ranks leave loses an item exactly when there is a single rank, or the allreduce uses the
   * member flag, or the ring forwards its token under the delivery guard.
   */
  lemma NothingLostExactlyWhenSound(cfg: Config)
    requires 0 < cfg.n && 0 < cfg.k
    ensures (forall w :: Reachable(cfg, w) && (forall r: nat | r < cfg.n :: w.phase[r] == Left)
                         ==> w.work.processed == w.work.created)
            <==> Sound(cfg)
  {
    if Sound(cfg) {
      forall w | Reachable(cfg, w) && (forall r: nat | r < cfg.n :: w.phase[r] == Left)
        ensures w.work.processed == w.work.created
      {
        assert w.phase[0] != Working;
        TerminationIsComplete(cfg, w);
      }
    } else {
      var w: World;
      if cfg.tree { w := ShadowedFlagLosesWork(cfg); } else { w := UnguardedRingLosesWork(cfg); }
    }
  }

  /** Clean-up never receives work in exactly the same configurations. */
  lemma CleanUpReceivesNoWorkExactlyWhenSound(cfg: Config)
    requires 0 < cfg.n && 0 < cfg.k
    ensures (forall w, r: nat, j: nat :: !MeetsWork(cfg, w, r, j)) <==> Sound(cfg)
  {
    if Sound(cfg) {
      forall w, r: nat, j: nat ensures !MeetsWork(cfg, w, r, j) {
        if MeetsWork(cfg, w, r, j) { CleanUpReceivesNoWork(cfg, w, r, j); }
      }
    } else if cfg.tree {
      var w := TreeCleanUpMeetsWork(cfg);
    } else {
      var w := RingCleanUpMeetsWork(cfg);
    }
  }
}
