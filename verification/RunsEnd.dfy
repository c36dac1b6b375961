/** From every reachable state of every configuration there is a run after which all ranks have left. */
module RunsEnd {
  import opened Common
  import opened System
  import opened Invariants
  import opened TreeSafety
  import opened RingSafety
  import opened DetectionBound
  import opened TreeDetection
  import opened Stragglers
  import opened CleanUpProgress
  import W = WorkProtocol
  import R = TokenRing

  // ---------------------------------------------------------------- the work can be finished

  /** What is left to be done about the work at `r`; an item on its way counts twice. */
  function Load(w: W.Work, r: nat): nat
    requires r < |w.queue| == |w.replies| == |w.outstanding|
  {
    |w.queue[r]| + (if w.replies[r] == [] then 0 else 2 * |w.replies[r][0].items|) + w.outstanding[r]
  }

  function Loads(n: nat, w: W.Work): (s: seq<int>)
    requires |w.queue| == |w.replies| == |w.outstanding| == n
    ensures |s| == n
  {
    seq(n, r requires 0 <= r < n => Load(w, r))
  }

  function Settler(a: W.WorkStep): nat {
    match a
    case Process(r, _) => r
    case Accept(r, _) => r
    case Acknowledge(s) => s
    case _ => 0
  }

  lemma SettlingLightens(n: nat, w: W.Work, a: W.WorkStep, q: nat)
    requires W.Shaped(n, w) && W.Paired(n, w) && W.Enabled(n, w, a) && IsSettling(w, a) && q < n
    ensures Settler(a) < n
    ensures Load(W.Apply(n, w, a), q) <= Load(w, q) - if q == Settler(a) then 1 else 0
  {
    if a.Accept? { assert W.PairedAt(n, w, a.r); }
  }

  lemma SettlingLowers(n: nat, w: W.Work, a: W.WorkStep)
    requires W.Shaped(n, w) && W.Paired(n, w) && W.Enabled(n, w, a) && IsSettling(w, a)
    ensures 0 <= Sum(Loads(n, W.Apply(n, w, a))) < Sum(Loads(n, w))
  {
    var w' := W.Apply(n, w, a);
    forall q: nat | q < n ensures Loads(n, w')[q] <= Loads(n, w)[q] - if q == Settler(a) then 1 else 0 {
      SettlingLightens(n, w, a, q);
    }
    SettlingLightens(n, w, a, 0);
    SumFalls(Loads(n, w), Loads(n, w'), Settler(a));
    SumIsNonNegative(Loads(n, w'));
  }

  lemma WorkKeepsPhase(cfg: Config, w: World, a: W.WorkStep)
    requires Shaped(cfg, w) && W.Enabled(cfg.n, w.work, a)
    ensures ApplyWork(cfg, w, a).phase == w.phase
  {
  }

  /** Ranks that still work have nothing left to do. */
  ghost predicate WorkersAreDone(cfg: Config, w: World)
    requires Shaped(cfg, w)
  {
    forall r: nat | r < cfg.n && w.phase[r] == Working :: w.work.queue[r] == [] && w.work.outstanding[r] == 0
  }

  lemma SettleOne(cfg: Config, w: World, q: nat) returns (u: World)
    requires Reachable(cfg, w) && q < cfg.n && w.phase[q] == Working
    requires w.work.queue[q] != [] || w.work.outstanding[q] > 0
    ensures Reachable(cfg, u) && Leads(cfg, w, u) && u.phase == w.phase
    ensures 0 <= Sum(Loads(cfg.n, u.work)) < Sum(Loads(cfg.n, w.work))
  {
    ReachableBase(cfg, w);
    var a := BusyMoves(cfg, w, q);
    SettlingLowers(cfg.n, w.work, a.work);
    WorkStepIsOwn(cfg, w, a.work);
    WorkKeepsPhase(cfg, w, a.work);
    u := StepOn(cfg, w, a);
  }

  /** Everything held can be processed, and every transfer acknowledged, before anybody stops. */
  lemma {:induction false} WorkSettles(cfg: Config, w: World) returns (w': World)
    requires Reachable(cfg, w)
    ensures Reachable(cfg, w') && Leads(cfg, w, w') && w'.phase == w.phase && WorkersAreDone(cfg, w')
    decreases Sum(Loads(cfg.n, w.work))
  {
    if q: nat :| q < cfg.n && w.phase[q] == Working && (w.work.queue[q] != [] || w.work.outstanding[q] > 0) {
      var u := SettleOne(cfg, w, q);
      w' := WorkSettles(cfg, u);
      LeadsOn(cfg, w, u, w');
    } else {
      w' := w;
      LeadsNowhere(cfg, w);
    }
  }

  // ---------------------------------------------------------------- the root can decide

  /** While the root works, so does everybody, in every configuration. */
  lemma EverybodyWorks(cfg: Config, w: World, r: nat)
    requires Reachable(cfg, w) && w.phase[0] == Working && r < cfg.n
    ensures w.phase[r] == Working
  {
    if cfg.tree {
      ReachableStage(cfg, w);
      assert StageAt(cfg, w, r);
    } else {
      ReachableBase(cfg, w);
      var t, flying := TokenIsUndecided(cfg, w);
      assert ModeAt(cfg, w, r);
    }
  }

  lemma TokenIsUndecided(cfg: Config, w: World) returns (t: nat, flying: bool)
    requires BaseInv(cfg, w) && !cfg.tree && w.phase[0] == Working
    ensures R.Undecided(cfg.n, w.ring, t, flying)
  {
    t, flying :| R.RingInvAt(cfg.n, w.ring, t, flying);
    assert ModeAt(cfg, w, 0);
  }

  /** Items on their way are a transfer their sender still counts as outstanding. */
  lemma TravellingIsOutstanding(n: nat, w: W.Work, r: nat) returns (s: nat)
    requires W.Shaped(n, w) && W.Paired(n, w) && W.Balanced(n, w) && r < n && W.HasWork(w.replies[r])
    ensures s < n && w.outstanding[s] > 0
  {
    assert W.PairedAt(n, w, r);
    s := w.replies[r][0].src;
    assert r in W.Carriers(w, s);
    assert w.outstanding[s] == w.receipts[s] + |W.Carriers(w, s)|;
  }

  lemma DoneIsSpent(cfg: Config, w: World, r: nat)
    requires Reachable(cfg, w) && w.phase[0] == Working && WorkersAreDone(cfg, w) && r < cfg.n
    ensures SpentAt(cfg, w, r)
  {
    ReachableBase(cfg, w);
    EverybodyWorks(cfg, w, r);
    if W.HasWork(w.work.replies[r]) {
      var s := TravellingIsOutstanding(cfg.n, w.work, r);
      EverybodyWorks(cfg, w, s);
    }
  }

  /** The token is received, and if that is not the decision it can be passed on. */
  lemma TokenArrives(cfg: Config, w: World, t: nat) returns (u: World)
    requires Reachable(cfg, w) && !cfg.tree && R.Undecided(cfg.n, w.ring, t, true) && Polls(cfg, w, t)
    ensures Reachable(cfg, u) && Leads(cfg, w, u) && u.work == w.work
    ensures u.phase[0] != Working ||
      (u.phase == w.phase && R.Undecided(cfg.n, u.ring, t, false)
       && Hops(cfg.n, u.ring, t, false) == Hops(cfg.n, w.ring, t, true))
  {
    R.ReceiveKeeps(cfg.n, w.ring, t, t, true);
    ReceiveKeepsCount(cfg.n, w.ring, t);
    u := StepOn(cfg, w, Action.Token(TokenReceive(t)));
  }

  lemma TokenLeaves(cfg: Config, w: World, t: nat) returns (u: World)
    requires Reachable(cfg, w) && !cfg.tree && R.Undecided(cfg.n, w.ring, t, false) && Polls(cfg, w, t)
    requires !W.HasWork(w.work.replies[t])
    ensures Reachable(cfg, u) && Leads(cfg, w, u) && u.work == w.work && u.phase == w.phase
    ensures var d := R.TokenDest(t, cfg.n);
      && R.Undecided(cfg.n, u.ring, d, true)
      && Hops(cfg.n, u.ring, d, true) == Hops(cfg.n, w.ring, t, false) - 1
  {
    R.SendKeeps(cfg.n, w.ring, t, t, false);
    SendCountsDown(cfg.n, w.ring, t);
    u := StepOn(cfg, w, Action.Token(TokenSend(t)));
  }

  lemma TokenHops(cfg: Config, w: World, t: nat, flying: bool) returns (u: World, d: nat)
    requires Reachable(cfg, w) && !cfg.tree && R.Undecided(cfg.n, w.ring, t, flying)
    requires Polls(cfg, w, t) && !W.HasWork(w.work.replies[t])
    ensures Reachable(cfg, u) && Leads(cfg, w, u) && u.work == w.work
    ensures u.phase[0] != Working ||
      (R.Undecided(cfg.n, u.ring, d, !flying)
       && Hops(cfg.n, u.ring, d, !flying) == Hops(cfg.n, w.ring, t, flying) - if flying then 0 else 1)
  {
    if flying {
      u := TokenArrives(cfg, w, t);
      d := t;
    } else {
      u := TokenLeaves(cfg, w, t);
      d := R.TokenDest(t, cfg.n);
    }
  }

  /** With all work done, the token reaches rank 0's decision. */
  lemma {:induction false} RingDecides(cfg: Config, w: World, t: nat, flying: bool) returns (w': World)
    requires Reachable(cfg, w) && !cfg.tree && R.Undecided(cfg.n, w.ring, t, flying)
    requires w.phase[0] == Working && forall r: nat | r < cfg.n :: Idle(w.work, r)
    ensures Reachable(cfg, w') && Leads(cfg, w, w') && w'.work == w.work && w'.phase[0] != Working
    decreases Hops(cfg.n, w.ring, t, flying), flying
  {
    EverybodyWorks(cfg, w, t);
    assert Idle(w.work, t);
    var u, d := TokenHops(cfg, w, t, flying);
    if u.phase[0] == Working {
      w' := RingDecides(cfg, u, d, !flying);
      LeadsOn(cfg, w, u, w');
    } else {
      w' := u;
    }
  }

  /** With all work done and acknowledged, the root decides. */
  lemma SpentRootStops(cfg: Config, w: World) returns (w': World)
    requires Reachable(cfg, w) && w.phase[0] == Working && forall r: nat | r < cfg.n :: SpentAt(cfg, w, r)
    ensures Reachable(cfg, w') && Leads(cfg, w, w') && w'.phase[0] != Working
    ensures forall r: nat | r < cfg.n :: SpentAt(cfg, w', r)
  {
    if cfg.tree {
      w' := TreeDecides(cfg, w);
    } else {
      ReachableBase(cfg, w);
      var t, flying := TokenIsUndecided(cfg, w);
      forall r: nat | r < cfg.n ensures Idle(w.work, r) { assert SpentAt(cfg, w, r); }
      w' := RingDecides(cfg, w, t, flying);
      forall r: nat | r < cfg.n ensures SpentAt(cfg, w', r) { assert SpentAt(cfg, w, r); }
    }
  }

  lemma SpentIsDone(cfg: Config, w: World)
    requires Shaped(cfg, w) && forall r: nat | r < cfg.n :: SpentAt(cfg, w, r)
    ensures WorkersAreDone(cfg, w)
  {
    forall r: nat | r < cfg.n ensures w.work.queue[r] == [] && w.work.outstanding[r] == 0 {
      assert SpentAt(cfg, w, r);
    }
  }

  lemma RootStops(cfg: Config, w: World) returns (w': World)
    requires Reachable(cfg, w) && WorkersAreDone(cfg, w)
    ensures Reachable(cfg, w') && Leads(cfg, w, w') && WorkersAreDone(cfg, w') && w'.phase[0] != Working
  {
    if w.phase[0] != Working {
      w' := w;
      LeadsNowhere(cfg, w);
    } else {
      forall r: nat | r < cfg.n ensures SpentAt(cfg, w, r) { DoneIsSpent(cfg, w, r); }
      w' := SpentRootStops(cfg, w);
      SpentIsDone(cfg, w');
    }
  }

  // ---------------------------------------------------------------- the others follow

  lemma ReleaseKeepsDone(cfg: Config, w: World, a: Action)
    requires Deciding(cfg, w) && Enabled(cfg, w, a) && IsRelease(a) && WorkersAreDone(cfg, w)
    requires Shaped(cfg, Apply(cfg, w, a))
    ensures Apply(cfg, w, a).work == w.work && WorkersAreDone(cfg, Apply(cfg, w, a))
  {
    var r := ReleaseTakesOneOut(cfg, w, a);
    OtherStepKeepsWork(cfg, w, a);
  }

  /** Once the root has decided and the others are done, one of them finds the result or the token waiting. */
  lemma ReleaseWaits(cfg: Config, w: World, r: nat) returns (a: Action)
    requires Deciding(cfg, w) && WorkersAreDone(cfg, w) && r < cfg.n && w.phase[r] == Working
    ensures Enabled(cfg, w, a) && IsRelease(a)
  {
    if cfg.tree {
      var q := ResultWaits(cfg, w, r);
      a := ResultIsTaken(cfg, w, q);
    } else {
      var q := TokenWaits(cfg, w, r);
      a := TokenIsTaken(cfg, w, q);
    }
  }

  lemma StepCountsDown(cfg: Config, w: World, a: Action)
    requires Deciding(cfg, w) && Enabled(cfg, w, a) && IsRelease(a)
    ensures Apply(cfg, w, a).phase[0] != Working && |StillWorking(Apply(cfg, w, a))| < |StillWorking(w)|
  {
    StepKeepsDeciding(cfg, w, a);
  }

  lemma {:induction false} EverybodyStops(cfg: Config, w: World) returns (w': World)
    requires Reachable(cfg, w) && w.phase[0] != Working && WorkersAreDone(cfg, w)
    ensures Reachable(cfg, w') && Leads(cfg, w, w') && w'.work == w.work
    ensures forall r: nat | r < cfg.n :: w'.phase[r] != Working
    decreases |StillWorking(w)|
  {
    if r: nat :| r < cfg.n && w.phase[r] == Working {
      ReachableDeciding(cfg, w);
      var a := ReleaseWaits(cfg, w, r);
      StepCountsDown(cfg, w, a);
      var u := StepOn(cfg, w, a);
      ReleaseKeepsDone(cfg, w, a);
      w' := EverybodyStops(cfg, u);
      LeadsOn(cfg, w, u, w');
    } else {
      w' := w;
      LeadsNowhere(cfg, w);
    }
  }

  lemma EverybodyLeaves(cfg: Config, w: World) returns (w': World)
    requires Reachable(cfg, w) && forall r: nat | r < cfg.n :: w.phase[r] != Working
    ensures Reachable(cfg, w') && Leads(cfg, w, w') && forall r: nat | r < cfg.n :: w'.phase[r] == Left
  {
    ReachableBase(cfg, w);
    var acts;
    acts, w' := CleanUpCompletes(cfg, w);
    MovesAreRuns(cfg, w, acts, w');
  }

  /**
   * No run gets stuck for good: in every configuration, from every reachable state, some run leads to a
   * state in which all ranks have left the barrier.
   */
  lemma EveryRunCanEnd(cfg: Config, w: World) returns (w': World)
    requires Reachable(cfg, w)
    ensures Reachable(cfg, w') && Leads(cfg, w, w') && forall r: nat | r < cfg.n :: w'.phase[r] == Left
  {
    var w1 := WorkSettles(cfg, w);
    var w2 := RootStops(cfg, w1);
    var w3 := EverybodyStops(cfg, w2);
    w' := EverybodyLeaves(cfg, w3);
    LeadsOn(cfg, w2, w3, w');
    LeadsOn(cfg, w1, w2, w');
    LeadsOn(cfg, w, w1, w');
  }
}
