/** The whole execution, up to the final reduction: the machine, then what each rank does past the barrier. */
module FinalRun {
  import opened Common
  import opened KaryTree
  import opened Folding
  import opened FinalReduce
  import opened System
  import opened Invariants
  import opened EndToEnd
  import opened SyncReduce
  import W = WorkProtocol
  import D = BackgroundReduce

  /** Both reductions use one tag: what is in flight from `c` to its parent is `red.up[c]`, then `sync.up[c]`. */
  datatype Whole = Whole(w: World, sync: Sync)

  datatype WholeStep = Main(act: Action) | Final(step: SyncStep)

  /** A rank contributes its counter of processed items, and the value its init callback supplies. */
  function InputOf(w: World, vals: seq<Item>): Input {
    Input(w.work.handled, vals)
  }

  ghost predicate WholeEnabled(cfg: Config, vals: seq<Item>, e: Whole, a: WholeStep) {
    && Shaped(cfg, e.w) && |vals| == cfg.n
    && match a
       case Main(act) => Enabled(cfg, e.w, act)
       case Final(step) =>
         && SyncEnabled(cfg.n, cfg.k, e.sync, step) && step.r < |e.w.phase| && e.w.phase[step.r] == Left
  }

  ghost function WholeApply(cfg: Config, vals: seq<Item>, e: Whole, a: WholeStep): Whole
    requires WholeEnabled(cfg, vals, e, a)
  {
    match a
    case Main(act) => e.(w := Apply(cfg, e.w, act))
    case Final(step) => e.(sync := SyncApply(cfg.n, cfg.k, cfg.op, InputOf(e.w, vals), e.sync, step))
  }

  ghost function WholeNext(cfg: Config, vals: seq<Item>): (Whole, WholeStep) -> Option<Whole> {
    (e, a) => if WholeEnabled(cfg, vals, e, a) then Some(WholeApply(cfg, vals, e, a)) else None
  }

  ghost predicate WholeReachable(cfg: Config, vals: seq<Item>, e: Whole) {
    && Shaped(cfg, e.w) && |vals| == cfg.n && SyncShaped(cfg.n, e.sync)
    && exists w0, steps :: Init(cfg, w0) && Path(WholeNext(cfg, vals), Whole(w0, SyncStart(cfg.n)), steps, e)
  }

  /** Only ranks that have left the barrier have begun. */
  ghost predicate WholeInv(cfg: Config, vals: seq<Item>, e: Whole) {
    && Reachable(cfg, e.w) && |vals| == cfg.n
    && SyncInv(cfg.n, cfg.k, cfg.op, InputOf(e.w, vals), e.sync)
    && forall r: nat | r < cfg.n && e.sync.begun[r] :: e.w.phase[r] == Left
  }

  lemma LeftForGood(cfg: Config, w: World, a: Action, r: nat)
    requires Enabled(cfg, w, a) && r < cfg.n && w.phase[r] == Left
    ensures |Apply(cfg, w, a).phase| == cfg.n && Apply(cfg, w, a).phase[r] == Left
  {
  }

  lemma OnlyProcessingCounts(cfg: Config, w: World, a: W.WorkStep)
    requires Shaped(cfg, w) && WorkGuard(w, a) && W.Enabled(cfg.n, w.work, a)
    ensures Shaped(cfg, ApplyWork(cfg, w, a))
    ensures ApplyWork(cfg, w, a).work.handled == w.work.handled || exists r: nat :: r < cfg.n && w.phase[r] == Working
  {
    if a.Process? { assert w.phase[a.r] == Working; }
  }

  /** Once some rank has left the barrier, no counter changes any more. */
  lemma CountersAreFinal(cfg: Config, w: World, a: Action, r: nat)
    requires Reachable(cfg, w) && Enabled(cfg, w, a) && r < cfg.n && w.phase[r] == Left
    ensures Shaped(cfg, Apply(cfg, w, a)) && Apply(cfg, w, a).work.handled == w.work.handled
  {
    BarrierMeansDrained(cfg, w, r);
    if a.Work? { OnlyProcessingCounts(cfg, w, a.work); } else { OtherStepKeepsWork(cfg, w, a); }
  }

  /** Before any rank has begun, the invariant says nothing about the input. */
  lemma NobodyHasBegun(cfg: Config, v: Input, v': Input, x: Sync)
    requires SyncInv(cfg.n, cfg.k, cfg.op, v, x) && Inputs(cfg.n, v')
    requires forall r: nat | r < cfg.n :: !x.begun[r]
    ensures SyncInv(cfg.n, cfg.k, cfg.op, v', x)
  {
    forall r: nat | r < cfg.n ensures HoldsAt(cfg.op, v', cfg.k, x, r) && WireAt(cfg.op, v', cfg.k, x, r) {
      assert HoldsAt(cfg.op, v, cfg.k, x, r) && WireAt(cfg.op, v, cfg.k, x, r);
    }
  }

  lemma MainKeepsSync(cfg: Config, vals: seq<Item>, e: Whole, act: Action)
    requires WholeInv(cfg, vals, e) && Enabled(cfg, e.w, act) && Shaped(cfg, Apply(cfg, e.w, act))
    ensures SyncInv(cfg.n, cfg.k, cfg.op, InputOf(Apply(cfg, e.w, act), vals), e.sync)
  {
    if r: nat :| r < cfg.n && e.sync.begun[r] {
      CountersAreFinal(cfg, e.w, act, r);
    } else {
      NobodyHasBegun(cfg, InputOf(e.w, vals), InputOf(Apply(cfg, e.w, act), vals), e.sync);
    }
  }

  lemma MainKeepsInv(cfg: Config, vals: seq<Item>, e: Whole, act: Action)
    requires WholeInv(cfg, vals, e) && WholeEnabled(cfg, vals, e, Main(act))
    ensures WholeInv(cfg, vals, WholeApply(cfg, vals, e, Main(act)))
  {
    var w' := StepOn(cfg, e.w, act);
    MainKeepsSync(cfg, vals, e, act);
    forall r: nat | r < cfg.n && e.sync.begun[r] ensures Apply(cfg, e.w, act).phase[r] == Left {
      LeftForGood(cfg, e.w, act, r);
    }
  }

  lemma FinalKeepsInv(cfg: Config, vals: seq<Item>, e: Whole, step: SyncStep)
    requires WholeInv(cfg, vals, e) && WholeEnabled(cfg, vals, e, Final(step))
    ensures WholeInv(cfg, vals, WholeApply(cfg, vals, e, Final(step)))
  {
    SyncStepHolds(cfg.n, cfg.k, cfg.op, InputOf(e.w, vals), e.sync, step);
  }

  lemma {:induction false} WholeRunKeeps(cfg: Config, vals: seq<Item>, e: Whole, steps: seq<WholeStep>, e': Whole)
    requires WholeInv(cfg, vals, e) && Path(WholeNext(cfg, vals), e, steps, e')
    ensures WholeInv(cfg, vals, e')
    decreases |steps|
  {
    if steps != [] {
      match steps[0]
      case Main(act) =>
        MainKeepsInv(cfg, vals, e, act);
        WholeRunKeeps(cfg, vals, WholeApply(cfg, vals, e, steps[0]), steps[1..], e');
      case Final(step) =>
        FinalKeepsInv(cfg, vals, e, step);
        WholeRunKeeps(cfg, vals, WholeApply(cfg, vals, e, steps[0]), steps[1..], e');
    }
  }

  lemma WholeStarts(cfg: Config, vals: seq<Item>, w0: World)
    requires Init(cfg, w0) && |vals| == cfg.n
    ensures WholeInv(cfg, vals, Whole(w0, SyncStart(cfg.n)))
  {
    assert Runs(cfg, w0, [], w0);
    StartHolds(cfg.n, cfg.k, cfg.op, InputOf(w0, vals));
  }

  lemma WholeReachableInv(cfg: Config, vals: seq<Item>, e: Whole)
    requires WholeReachable(cfg, vals, e)
    ensures WholeInv(cfg, vals, e)
  {
    var w0, steps :| Init(cfg, w0) && Path(WholeNext(cfg, vals), Whole(w0, SyncStart(cfg.n)), steps, e);
    WholeStarts(cfg, vals, w0);
    WholeRunKeeps(cfg, vals, Whole(w0, SyncStart(cfg.n)), steps, e);
  }

  /** Once some rank has left the barrier, the background reduction is over everywhere. */
  lemma BackgroundIsOver(cfg: Config, w: World, r: nat, c: nat)
    requires Reachable(cfg, w) && r < cfg.n && w.phase[r] == Left && c < cfg.n
    ensures w.red.up[c] == [] && w.red.start[c] == 0 && !w.red.out[c]
  {
    BarrierMeansDrained(cfg, w, r);
    assert DrainedAt(cfg, w, c);
    ReachableBase(cfg, w);
    RootLeavesFirst(cfg, w, r);
    assert PassedAt(cfg, w, c);
  }

  lemma OutIsNeeded(cfg: Config, w: World, c: nat, src: nat)
    requires Enabled(cfg, w, Action.Red(RedGather(c, src)))
    ensures c < cfg.n && w.red.out[c]
  {
  }

  /**
   * The final answer is alone on its channel: once a rank has begun the final reduction, no message of
   * the background reduction is in flight and no rank gathers any, so a rank that waits for its child
   * receives exactly the child's final answer, and nobody else takes it.
   */
  lemma FinalAnswersAreAlone(cfg: Config, vals: seq<Item>, e: Whole, r: nat, c: nat)
    requires WholeReachable(cfg, vals, e) && r < cfg.n && e.sync.begun[r] && c < cfg.n
    ensures e.w.red.up[c] == [] && e.w.red.start[c] == 0 && !e.w.red.out[c]
    ensures var wire := e.w.red.up[c] + e.sync.up[c];
      wire == [] || wire == Answer(cfg.op, InputOf(e.w, vals), cfg.k, c)
    ensures forall src: nat :: !Enabled(cfg, e.w, Action.Red(RedGather(c, src)))
  {
    WholeReachableInv(cfg, vals, e);
    BackgroundIsOver(cfg, e.w, r, c);
    assert WireAt(cfg.op, InputOf(e.w, vals), cfg.k, e.sync, c);
    assert e.w.red.up[c] + e.sync.up[c] == e.sync.up[c];
    forall src: nat ensures !Enabled(cfg, e.w, Action.Red(RedGather(c, src))) {
      if Enabled(cfg, e.w, Action.Red(RedGather(c, src))) { OutIsNeeded(cfg, e.w, c, src); }
    }
  }

  /**
   * In any execution: what the root delivers at the end is the number of items processed by all ranks
   * and the recursive result of all ranks' values, which for an associative operation is their fold in
   * tree preorder.
   */
  lemma FinalReductionDelivers(cfg: Config, vals: seq<Item>, e: Whole)
    requires WholeReachable(cfg, vals, e) && e.sync.done[0]
    ensures e.sync.total[0] == |e.w.work.processed| && e.sync.acc[0] == SyncValue(cfg.op, vals, 0, cfg.k)
    ensures Associative(cfg.op) ==> e.sync.acc[0] == Fold(cfg.op, Pick(vals, [], Preorder(0, cfg.k, cfg.n)))
  {
    WholeReachableInv(cfg, vals, e);
    ReachableBase(cfg, e.w);
    RootDelivers(cfg.n, cfg.k, cfg.op, InputOf(e.w, vals), e.sync);
  }

  lemma RootHasLeft(cfg: Config, vals: seq<Item>, e: Whole)
    requires WholeInv(cfg, vals, e) && e.sync.done[0]
    ensures e.w.phase[0] == Left
  {
    assert HoldsAt(cfg.op, InputOf(e.w, vals), cfg.k, e.sync, 0);
  }

  /** In a sound configuration that number is the number of items ever created. */
  lemma FinalCountIsEverything(cfg: Config, vals: seq<Item>, e: Whole)
    requires Sound(cfg) && WholeReachable(cfg, vals, e) && e.sync.done[0]
    ensures e.sync.total[0] == |e.w.work.created|
  {
    WholeReachableInv(cfg, vals, e);
    RootHasLeft(cfg, vals, e);
    TerminationIsComplete(cfg, e.w);
    FinalReductionDelivers(cfg, vals, e);
  }

  /** Once every rank has left the barrier, the final reduction can go on until every rank is done. */
  lemma FinalReductionMoves(cfg: Config, vals: seq<Item>, e: Whole, r: nat) returns (a: SyncStep)
    requires WholeReachable(cfg, vals, e) && r < cfg.n && !e.sync.done[r]
    requires forall q: nat | q < cfg.n :: e.w.phase[q] == Left
    ensures WholeEnabled(cfg, vals, e, Final(a))
    ensures 0 <= Sum(AllStepsLeft(cfg.n, cfg.k, WholeApply(cfg, vals, e, Final(a)).sync))
              < Sum(AllStepsLeft(cfg.n, cfg.k, e.sync)) <= 3 * cfg.n
  {
    WholeReachableInv(cfg, vals, e);
    a := SyncMoves(cfg.n, cfg.k, cfg.op, InputOf(e.w, vals), e.sync, r);
    SyncStepCounts(cfg.n, cfg.k, cfg.op, InputOf(e.w, vals), e.sync, a);
  }
}
