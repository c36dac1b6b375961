/** The background reduction inside the whole machine. */
module ReduceRuns {
  import opened Common
  import opened KaryTree
  import opened Folding
  import opened System
  import opened Invariants
  import opened ReduceSum
  import W = WorkProtocol
  import D = BackgroundReduce

  lemma RedStepKeeps(cfg: Config, w: World, a: RedStep)
    requires Shaped(cfg, w) && ReduceInv(cfg.n, cfg.k, cfg.op, w.red) && RedEnabled(cfg, w, a)
    ensures ReduceInv(cfg.n, cfg.k, cfg.op, ApplyRed(cfg, w, a).red)
  {
    match a
    case RedBegin(r, val) =>
      if r == 0 { RootBeginKeeps(cfg.n, cfg.k, cfg.op, w.red, val); }
      else { BeginKeeps(cfg.n, cfg.k, cfg.op, w.red, r, val); }
    case RedRefuse(r) => RefuseKeeps(cfg.n, cfg.k, cfg.op, w.red, r);
    case RedGather(r, src) => GatherKeeps(cfg.n, cfg.k, cfg.op, w.red, r, src);
    case RedReply(r) => ReplyKeeps(cfg.n, cfg.k, cfg.op, w.red, r, w.work.handled[r]);
  }

  lemma OtherStepKeepsReduction(cfg: Config, w: World, a: Action)
    requires Enabled(cfg, w, a) && !a.Red?
    ensures Apply(cfg, w, a).red == w.red
  {
  }

  lemma {:induction false} RunKeepsReduce(cfg: Config, w: World, acts: seq<Action>, w': World)
    requires ReduceInv(cfg.n, cfg.k, cfg.op, w.red) && Runs(cfg, w, acts, w')
    ensures ReduceInv(cfg.n, cfg.k, cfg.op, w'.red)
    decreases |acts|
  {
    if acts != [] {
      if acts[0].Red? { RedStepKeeps(cfg, w, acts[0].red); } else { OtherStepKeepsReduction(cfg, w, acts[0]); }
      RunKeepsReduce(cfg, Apply(cfg, w, acts[0]), acts[1..], w');
    }
  }

  lemma ReachableReduce(cfg: Config, w: World)
    requires Reachable(cfg, w)
    ensures ReduceInv(cfg.n, cfg.k, cfg.op, w.red)
  {
    var w0, acts :| Init(cfg, w0) && Runs(cfg, w0, acts, w);
    InitEstablishes(cfg.n, cfg.k, cfg.op, w0.red);
    RunKeepsReduce(cfg, w0, acts, w);
  }

  // ---------------------------------------------------------------- snapshots

  /** A snapshot is what the rank's counter was at some time since it was `h`. */
  predicate SnapshotAt(w: World, r: nat, h: int)
    requires r < |w.red.counted| && r < |w.work.handled|
  {
    && h <= w.work.handled[r]
    && (w.red.counted[r].Some? ==> h <= w.red.counted[r].value <= w.work.handled[r])
  }

  lemma WorkKeepsSnapshot(cfg: Config, w: World, a: W.WorkStep, r: nat, h: int)
    requires Shaped(cfg, w) && WorkGuard(w, a) && W.Enabled(cfg.n, w.work, a) && r < cfg.n && SnapshotAt(w, r, h)
    ensures Shaped(cfg, ApplyWork(cfg, w, a)) && SnapshotAt(ApplyWork(cfg, w, a), r, h)
  {
  }

  lemma RedKeepsSnapshot(cfg: Config, w: World, a: RedStep, r: nat, h: int)
    requires Shaped(cfg, w) && RedEnabled(cfg, w, a) && r < cfg.n && SnapshotAt(w, r, h)
    ensures Shaped(cfg, ApplyRed(cfg, w, a)) && SnapshotAt(ApplyRed(cfg, w, a), r, h)
  {
  }

  lemma StepKeepsSnapshot(cfg: Config, w: World, a: Action, r: nat, h: int)
    requires Shaped(cfg, w) && Enabled(cfg, w, a) && r < cfg.n && SnapshotAt(w, r, h)
    ensures Shaped(cfg, Apply(cfg, w, a)) && SnapshotAt(Apply(cfg, w, a), r, h)
  {
    match a
    case Work(step) => WorkKeepsSnapshot(cfg, w, step, r, h);
    case Red(step) => RedKeepsSnapshot(cfg, w, step, r, h);
    case _ =>
      OtherStepKeepsWork(cfg, w, a);
      OtherStepKeepsReduction(cfg, w, a);
  }

  lemma {:induction false} RunKeepsSnapshot(cfg: Config, w: World, acts: seq<Action>, w': World, r: nat, h: int)
    requires Shaped(cfg, w) && r < cfg.n && SnapshotAt(w, r, h) && Runs(cfg, w, acts, w')
    ensures Shaped(cfg, w') && SnapshotAt(w', r, h)
    decreases |acts|
  {
    if acts != [] {
      StepKeepsSnapshot(cfg, w, acts[0], r, h);
      RunKeepsSnapshot(cfg, Apply(cfg, w, acts[0]), acts[1..], w', r, h);
    }
  }

  lemma ReachableSnapshot(cfg: Config, w: World, r: nat)
    requires Reachable(cfg, w) && r < cfg.n
    ensures SnapshotAt(w, r, 0)
  {
    var w0, acts :| Init(cfg, w0) && Runs(cfg, w0, acts, w);
    RunKeepsSnapshot(cfg, w0, acts, w, r, 0);
  }

  /** What the root holds when it completes a background reduction. */
  function Delivered(cfg: Config, w: World): D.Reduction
    requires Shaped(cfg, w) && RedEnabled(cfg, w, RedReply(0))
  {
    D.Reply(cfg.n, cfg.k, w.red, 0, w.work.handled[0])
  }

  /**
   * In any run and for any operation: when the root completes a background reduction, its data is
   * valid exactly when no rank answered this round from clean-up.  Valid data is the sum of one count
   * per rank, none above the rank's counter of processed items, and the combination of one value per
   * rank, each after its parent's.
   */
  lemma DeliveredReductionIsCorrect(cfg: Config, w: World)
    requires Reachable(cfg, w) && Enabled(cfg, w, Action.Red(RedReply(0)))
    ensures w.red.valid[0] <==> !w.red.refused
    ensures w.red.valid[0] ==>
      var x := Delivered(cfg, w);
      && EveryoneCounted(cfg.n, x) && x.counted[0] == Some(w.work.handled[0])
      && (forall r: nat | r < cfg.n :: x.counted[r].value <= w.work.handled[r])
      && x.total[0] == Sum(Counts(cfg.n, x))
      && InTreeOrder(cfg.n, cfg.k, Ranks(x.built[0]))
      && x.acc[0] == Combined(cfg.op, Values(cfg.n, x), x.built[0])
      && (Associative(cfg.op) ==> x.acc[0] == Fold(cfg.op, Pick(Values(cfg.n, x), [], Ranks(x.built[0]))))
      && (Associative(cfg.op) && Commutative(cfg.op) ==> x.acc[0] == Fold(cfg.op, Values(cfg.n, x)))
  {
    ReachableReduce(cfg, w);
    RootResult(cfg.n, cfg.k, cfg.op, w.red, w.work.handled[0]);
    if w.red.valid[0] {
      forall r: nat | r < cfg.n ensures Delivered(cfg, w).counted[r].value <= w.work.handled[r] {
        ReachableSnapshot(cfg, w, r);
      }
    }
  }

  /** The progress reported never exceeds the number of items processed so far. */
  lemma ReportedProgressIsReal(cfg: Config, w: World)
    requires Reachable(cfg, w) && Enabled(cfg, w, Action.Red(RedReply(0))) && w.red.valid[0]
    ensures Delivered(cfg, w).total[0] <= |w.work.processed|
  {
    DeliveredReductionIsCorrect(cfg, w);
    ReachableBase(cfg, w);
    SumIsMonotone(w.work.handled, Counts(cfg.n, Delivered(cfg, w)));
  }

  lemma RoundStartsFresh(cfg: Config, w: World, val: Item, r: nat)
    requires Shaped(cfg, w) && RedEnabled(cfg, w, RedBegin(0, val)) && r < cfg.n
    ensures Shaped(cfg, ApplyRed(cfg, w, RedBegin(0, val)))
    ensures SnapshotAt(ApplyRed(cfg, w, RedBegin(0, val)), r, w.work.handled[r])
  {
  }

  /** Every count of a round lies between the rank's counter at the start of the round and at its end. */
  lemma SnapshotIsRecent(cfg: Config, w: World, val: Item, acts: seq<Action>, w': World, r: nat)
    requires Enabled(cfg, w, Action.Red(RedBegin(0, val))) && r < cfg.n
    requires Runs(cfg, Apply(cfg, w, Action.Red(RedBegin(0, val))), acts, w')
    ensures Shaped(cfg, w') && SnapshotAt(w', r, w.work.handled[r])
  {
    RoundStartsFresh(cfg, w, val, r);
    RunKeepsSnapshot(cfg, Apply(cfg, w, Action.Red(RedBegin(0, val))), acts, w', r, w.work.handled[r]);
  }

  lemma RoundIsReachable(cfg: Config, w: World, val: Item, acts: seq<Action>, w': World)
    requires Reachable(cfg, w) && Enabled(cfg, w, Action.Red(RedBegin(0, val)))
    requires Runs(cfg, Apply(cfg, w, Action.Red(RedBegin(0, val))), acts, w')
    ensures Reachable(cfg, w')
  {
    RunsCons(cfg, w, Action.Red(RedBegin(0, val)), acts, w');
    ReachableRun(cfg, w, [Action.Red(RedBegin(0, val))] + acts, w');
  }

  /**
   * The progress reported is at least the number of items processed when the round began and at most the
   * number processed when it ends.
   */
  lemma ReportedProgressIsRecent(cfg: Config, w: World, val: Item, acts: seq<Action>, w': World)
    requires Reachable(cfg, w) && Enabled(cfg, w, Action.Red(RedBegin(0, val)))
    requires Runs(cfg, Apply(cfg, w, Action.Red(RedBegin(0, val))), acts, w')
    requires Enabled(cfg, w', Action.Red(RedReply(0))) && w'.red.valid[0]
    ensures |w.work.processed| <= Delivered(cfg, w').total[0] <= |w'.work.processed|
  {
    RoundIsReachable(cfg, w, val, acts, w');
    ReportedProgressIsReal(cfg, w');
    DeliveredReductionIsCorrect(cfg, w');
    CountsSince(cfg, w, val, acts, w');
    ReachableBase(cfg, w);
  }

  lemma CountsSince(cfg: Config, w: World, val: Item, acts: seq<Action>, w': World)
    requires Enabled(cfg, w, Action.Red(RedBegin(0, val)))
    requires Runs(cfg, Apply(cfg, w, Action.Red(RedBegin(0, val))), acts, w')
    requires Enabled(cfg, w', Action.Red(RedReply(0))) && EveryoneCounted(cfg.n, Delivered(cfg, w'))
    ensures Sum(w.work.handled) <= Sum(Counts(cfg.n, Delivered(cfg, w')))
  {
    forall r: nat | r < cfg.n ensures w.work.handled[r] <= Counts(cfg.n, Delivered(cfg, w'))[r] {
      SnapshotIsRecent(cfg, w, val, acts, w', r);
    }
    SumIsMonotone(Counts(cfg.n, Delivered(cfg, w')), w.work.handled);
  }

  /** Whatever a rank with an outstanding reduction probes from a child starts with a complete answer. */
  lemma ChildAnswersAlwaysParse(cfg: Config, w: World, p: nat, c: nat)
    requires Reachable(cfg, w) && D.CanGather(cfg.n, cfg.k, w.red, p, c)
    ensures D.Parses(w.red.up[c])
    ensures |w.red.up[c]| == if D.ExpectsBody(w.red.up[c][0]) then 2 else 1
  {
    ReachableBase(cfg, w);
    D.NeverMisread(cfg.n, cfg.k, w.red, p, c);
  }
}
