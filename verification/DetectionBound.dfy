/** How long either protocol can take to notice that all work is done. */
module DetectionBound {
  import opened Common
  import opened KaryTree
  import opened System
  import opened Invariants
  import opened TreeSafety
  import opened RingSafety
  import opened EndToEnd
  import W = WorkProtocol
  import V = TreeWave
  import R = TokenRing

  /** Once everything is done it stays done, and no work step touches the ring. */
  lemma QuietIsStable(cfg: Config, w: World, a: Action)
    requires Layers(cfg, w) && Quiet(cfg, w) && Enabled(cfg, w, a) && Shaped(cfg, Apply(cfg, w, a))
    ensures Quiet(cfg, Apply(cfg, w, a))
    ensures a.Work? ==> Apply(cfg, w, a).ring == w.ring
    ensures forall r: nat | r < cfg.n :: w.work.outstanding[r] >= Apply(cfg, w, a).work.outstanding[r]
  {
    if a.Work? {
      if a.work.Serve? { assert Idle(w.work, a.work.s); }
      forall r: nat | r < cfg.n
        ensures Idle(Apply(cfg, w, a).work, r) && w.work.outstanding[r] >= Apply(cfg, w, a).work.outstanding[r]
      {
        assert Idle(w.work, r);
        WorkStepEffect(cfg.n, w.work, a.work, r);
      }
    } else {
      OtherStepKeepsWork(cfg, w, a);
      forall r: nat | r < cfg.n ensures Idle(Apply(cfg, w, a).work, r) { assert Idle(w.work, r); }
    }
  }

  // ---------------------------------------------------------------- the ring

  ghost predicate BlackIn(x: R.Ring, lo: nat, hi: nat) {
    exists j: nat :: lo <= j < hi && j < |x.proc| && x.proc[j] == R.Black
  }

  /** Token sends still to come before rank 0 decides, if no more work is sent. */
  ghost function Hops(n: nat, x: R.Ring, t: nat, flying: bool): (h: nat)
    requires R.Shaped(n, x) && R.TokenAt(n, x, t, flying)
    ensures h < 3 * n
  {
    var v := Visited(n, t, flying);
    if v == 0 then
      n + if BlackIn(x, 1, n) then n else 0
    else if R.TokenColour(n, x, t, flying) != R.Black && !BlackIn(x, v, n) then
      n - v
    else
      n - v + n + if BlackIn(x, 1, v) then n else 0
  }

  lemma BlackRange(x: R.Ring, y: R.Ring, lo: nat, hi: nat)
    requires |x.proc| == |y.proc|
    requires forall j: nat | lo <= j < hi && j < |x.proc| :: x.proc[j] == R.Black <==> y.proc[j] == R.Black
    ensures BlackIn(x, lo, hi) == BlackIn(y, lo, hi)
  {
    if BlackIn(x, lo, hi) {
      var j: nat :| lo <= j < hi && j < |x.proc| && x.proc[j] == R.Black;
      assert y.proc[j] == R.Black;
    }
    if BlackIn(y, lo, hi) {
      var j: nat :| lo <= j < hi && j < |x.proc| && y.proc[j] == R.Black;
      assert x.proc[j] == R.Black;
    }
  }

  /**
   * Items sent to a lower rank or to the predecessor in the ring blacken the sender.  Any other answer,
   * so a transfer from a rank other than 0 to a later one, leaves the ring and the hops to come as they are.
   */
  lemma TransferColours(cfg: Config, w: World, s: nat, share: nat, t: nat, flying: bool)
    requires Enabled(cfg, w, Action.Work(W.Serve(s, share))) && R.TokenAt(cfg.n, w.ring, t, flying)
    ensures var dest, x := w.work.gathered[s][0], w.ring;
      var x' := Apply(cfg, w, Action.Work(W.Serve(s, share))).ring;
      if share > 0 && (dest < s || dest == if s == 0 then cfg.n - 1 else s - 1)
      then x' == x.(proc := x.proc[s := R.Black])
      else x' == x && R.TokenAt(cfg.n, x', t, flying) && Hops(cfg.n, x', t, flying) == Hops(cfg.n, x, t, flying)
  {
    assert w.ring.proc[s := w.ring.proc[s]] == w.ring.proc;
  }

  /** Every hop brings the decision exactly one hop closer. */
  lemma SendCountsDown(n: nat, x: R.Ring, t: nat)
    requires R.RingInvAt(n, x, t, false) && R.CanSend(n, x, t)
    ensures R.TokenAt(n, R.Send(n, x, t), R.TokenDest(t, n), true)
    ensures Hops(n, R.Send(n, x, t), R.TokenDest(t, n), true) == Hops(n, x, t, false) - 1
  {
    R.SendKeeps(n, x, t, t, false);
    var y := R.Send(n, x, t);
    BlackRange(x, y, t + 1, n);
    BlackRange(x, y, 1, t);
    if BlackIn(x, t, n) {
      var j: nat :| t <= j < n && j < |x.proc| && x.proc[j] == R.Black;
      assert BlackIn(y, t + 1, n) || x.proc[t] == R.Black by { if j > t { assert y.proc[j] == R.Black; } }
    }
    if BlackIn(y, 1, t + 1) {
      var j: nat :| 1 <= j < t + 1 && j < |y.proc| && y.proc[j] == R.Black;
      assert j < t && x.proc[j] == R.Black;
    }
    if BlackIn(y, 1, t) {
      var j: nat :| 1 <= j < t && j < |y.proc| && y.proc[j] == R.Black;
      assert BlackIn(y, 1, t + 1);
    }
  }

  /** A receipt changes nothing, unless it is the decision, which is then due. */
  lemma ReceiveKeepsCount(n: nat, x: R.Ring, t: nat)
    requires R.RingInvAt(n, x, t, true) && R.Undecided(n, x, t, true) && R.CanReceive(n, x, t)
    ensures R.Terminates(t, x.wire[t][0]) ==> Hops(n, x, t, true) == 0
    ensures !R.Terminates(t, x.wire[t][0]) ==>
      R.TokenAt(n, R.Receive(n, x, t), t, false) && Hops(n, R.Receive(n, x, t), t, false) == Hops(n, x, t, true)
  {
    R.ReceiveKeeps(n, x, t, t, true);
    var y := R.Receive(n, x, t);
    var v := Visited(n, t, true);
    if !R.Terminates(t, x.wire[t][0]) {
      if t > 0 {
        if x.wire[t][0] != R.Black { BlackRange(x, y, v, n); }
        BlackRange(x, y, 1, v);
      } else {
        BlackRange(x, y, 1, n);
      }
    } else {
      assert !BlackIn(x, n, n);
    }
  }

  /** `h` sends are still to come; none after the decision. */
  ghost predicate Remaining(n: nat, x: R.Ring, t: nat, flying: bool, h: nat) {
    && R.RingInvAt(n, x, t, flying)
    && (R.Undecided(n, x, t, flying) ==> Hops(n, x, t, flying) == h)
    && (R.Decided(n, x, t, flying) ==> h == 0)
  }

  function SendsOf(a: Action): nat {
    if a.Token? && a.token.TokenSend? then 1 else 0
  }

  lemma TokenStepCounts(cfg: Config, w: World, a: TokenStep, t: nat, flying: bool, h: nat)
      returns (t': nat, flying': bool)
    requires Shaped(cfg, w) && TokenEnabled(cfg, w, a) && Remaining(cfg.n, w.ring, t, flying, h)
    ensures SendsOf(Action.Token(a)) <= h
    ensures Remaining(cfg.n, ApplyToken(cfg, w, a).ring, t', flying', h - SendsOf(Action.Token(a)))
  {
    t', flying' := t, flying;
    match a
    case TokenSend(r) =>
      R.SendKeeps(cfg.n, w.ring, r, t, flying);
      SendCountsDown(cfg.n, w.ring, t);
      t', flying' := R.TokenDest(t, cfg.n), true;
    case TokenReceive(r) =>
      R.ReceiveKeeps(cfg.n, w.ring, r, t, flying);
      var p := R.PlaceAfterReceive(cfg.n, w.ring, r);
      t', flying' := p.0, p.1;
      if R.Undecided(cfg.n, w.ring, t, flying) {
        ReceiveKeepsCount(cfg.n, w.ring, t);
      }
    case TokenTest(r) =>
      TestKeepsCount(cfg.n, w.ring, r, t, flying);
  }

  lemma TestKeepsCount(n: nat, x: R.Ring, r: nat, t: nat, flying: bool)
    requires R.RingInvAt(n, x, t, flying) && R.CanTest(n, x, r)
    ensures R.RingInvAt(n, R.Test(n, x, r), t, flying)
    ensures Hops(n, R.Test(n, x, r), t, flying) == Hops(n, x, t, flying)
    ensures R.Undecided(n, R.Test(n, x, r), t, flying) == R.Undecided(n, x, t, flying)
  {
    R.TestKeeps(n, x, r, t, flying);
    var y := R.Test(n, x, r);
    BlackRange(x, y, 1, n);
    BlackRange(x, y, Visited(n, t, flying), n);
    BlackRange(x, y, 1, Visited(n, t, flying));
  }

  lemma OtherStepKeepsRing(cfg: Config, w: World, a: Action)
    requires Layers(cfg, w) && Quiet(cfg, w) && Enabled(cfg, w, a) && Shaped(cfg, Apply(cfg, w, a)) && !a.Token?
    ensures Apply(cfg, w, a).ring == w.ring
  {
    QuietIsStable(cfg, w, a);
  }

  lemma QuietRingStep(cfg: Config, w: World, a: Action, t: nat, flying: bool, h: nat) returns (t': nat, flying': bool)
    requires BaseInv(cfg, w) && Quiet(cfg, w) && Enabled(cfg, w, a) && Remaining(cfg.n, w.ring, t, flying, h)
    ensures BaseInv(cfg, Apply(cfg, w, a)) && Quiet(cfg, Apply(cfg, w, a))
    ensures SendsOf(a) <= h && Remaining(cfg.n, Apply(cfg, w, a).ring, t', flying', h - SendsOf(a))
  {
    StepKeepsBase(cfg, w, a);
    QuietIsStable(cfg, w, a);
    t', flying' := t, flying;
    match a
    case Token(step) => t', flying' := TokenStepCounts(cfg, w, step, t, flying, h);
    case _ => OtherStepKeepsRing(cfg, w, a);
  }

  function Sends(acts: seq<Action>): nat {
    if acts == [] then 0 else SendsOf(acts[0]) + Sends(acts[1..])
  }

  lemma {:induction false} QuietRingRun(cfg: Config, w: World, acts: seq<Action>, w': World,
        t: nat, flying: bool, h: nat)
      returns (t': nat, flying': bool)
    requires BaseInv(cfg, w) && Quiet(cfg, w) && Runs(cfg, w, acts, w') && Remaining(cfg.n, w.ring, t, flying, h)
    ensures BaseInv(cfg, w') && Quiet(cfg, w')
    ensures Sends(acts) <= h && Remaining(cfg.n, w'.ring, t', flying', h - Sends(acts))
    decreases |acts|
  {
    t', flying' := t, flying;
    if acts != [] {
      t', flying' := QuietRingStep(cfg, w, acts[0], t, flying, h);
      t', flying' := QuietRingRun(cfg, Apply(cfg, w, acts[0]), acts[1..], w', t', flying', h - SendsOf(acts[0]));
    }
  }

  /** The hop count of a state, wherever its token is. */
  ghost function HopsLeft(cfg: Config, w: World): (h: nat)
    requires R.RingInv(cfg.n, w.ring)
    ensures h < 3 * cfg.n
  {
    var t, flying :| R.RingInvAt(cfg.n, w.ring, t, flying);
    if R.Undecided(cfg.n, w.ring, t, flying) then Hops(cfg.n, w.ring, t, flying) else 0
  }

  lemma HopsLeftRemain(cfg: Config, w: World) returns (t: nat, flying: bool)
    requires R.RingInv(cfg.n, w.ring)
    ensures Remaining(cfg.n, w.ring, t, flying, HopsLeft(cfg, w))
  {
    t, flying :| R.RingInvAt(cfg.n, w.ring, t, flying) &&
      HopsLeft(cfg, w) == if R.Undecided(cfg.n, w.ring, t, flying) then Hops(cfg.n, w.ring, t, flying) else 0;
  }

  /**
   * From any reachable state in which all work is done and rank 0 has not decided, the number of
   * token sends until it decides is fixed in advance and below three rounds.
   */
  lemma RingDetectsInThreeRounds(cfg: Config, w: World, acts: seq<Action>, w': World)
    requires Reachable(cfg, w) && !cfg.tree && Quiet(cfg, w) && Runs(cfg, w, acts, w')
    ensures BaseInv(cfg, w') && R.RingInv(cfg.n, w.ring)
    ensures HopsLeft(cfg, w) < 3 * cfg.n && Sends(acts) <= HopsLeft(cfg, w)
    ensures w'.phase[0] != Working ==> Sends(acts) == HopsLeft(cfg, w)
  {
    ReachableBase(cfg, w);
    var t, flying := HopsLeftRemain(cfg, w);
    var t', flying' := QuietRingRun(cfg, w, acts, w', t, flying, HopsLeft(cfg, w));
    assert ModeAt(cfg, w', 0);
  }

  /** Until then the token can always move: detection never gets stuck. */
  lemma RingNeverStuck(cfg: Config, w: World)
    requires Reachable(cfg, w) && !cfg.tree && Quiet(cfg, w) && w.phase[0] == Working
    ensures exists a: Action :: a.Token? && Enabled(cfg, w, a)
  {
    ReachableBase(cfg, w);
    var t, flying :| R.RingInvAt(cfg.n, w.ring, t, flying);
    assert ModeAt(cfg, w, 0) && ModeAt(cfg, w, t) && Idle(w.work, t);
    var a := Action.Token(if flying then TokenReceive(t) else TokenSend(t));
    assert Enabled(cfg, w, a);
  }

  // ---------------------------------------------------------------- the tree

  /** How many waves `r` has contributed to. */
  function Contributions(x: V.Wave, r: nat): nat
    requires r < |x.up| == |x.round|
  {
    x.round[r] + if x.up[r] then 1 else 0
  }

  /** Flags left over from before wave `m + 1` are gone from the contributions to wave `m + 2`. */
  predicate FreshAt(cfg: Config, w: World, m: nat, r: nat)
    requires Shaped(cfg, w) && r < cfg.n
  {
    && (Contributions(w.term, r) >= m + 2 ==> w.flag[r])
    && (w.term.rise[r] != [] && Contributions(w.term, r) >= m + 3 ==> w.term.rise[r][0])
  }

  /** All work is done and acknowledged, so no flag is cleared any more except by a child's. */
  predicate SpentAt(cfg: Config, w: World, r: nat)
    requires Shaped(cfg, w) && r < cfg.n
  {
    Idle(w.work, r) && w.work.outstanding[r] == 0
  }

  ghost predicate TreeSpent(cfg: Config, w: World, m: nat) {
    && BaseInv(cfg, w) && cfg.tree
    && forall r: nat | r < cfg.n :: SpentAt(cfg, w, r) && (cfg.asWritten || FreshAt(cfg, w, m, r))
  }

  lemma TermStepKeepsFresh(cfg: Config, w: World, a: TermStep, m: nat, r: nat)
    requires Layers(cfg, w) && !cfg.asWritten && TermEnabled(cfg, w, a) && r < cfg.n
    requires forall q: nat | q < cfg.n :: FreshAt(cfg, w, m, q)
    ensures Shaped(cfg, ApplyTerm(cfg, w, a)) && FreshAt(cfg, ApplyTerm(cfg, w, a), m, r)
  {
    assert FreshAt(cfg, w, m, r);
    match a
    case TermAbsorb(p, src) =>
      V.ProbeFindsOnlyChildren(cfg.n, cfg.k, w.term, p, src);
      assert FreshAt(cfg, w, m, src) && V.EdgeOk(w.term, src, p);
    case TermRaise(q) => assert V.EdgeOk(w.term, q, Parent(q, cfg.k));
    case TermLower(q) => assert V.EdgeOk(w.term, q, Parent(q, cfg.k));
    case TermFinish =>
  }

  /** A step other than a wave step changes no flag and no wave, once all work is acknowledged. */
  lemma SpentFrame(cfg: Config, w: World, a: Action, m: nat)
    requires TreeSpent(cfg, w, m) && Enabled(cfg, w, a) && !a.Term?
    ensures Shaped(cfg, Apply(cfg, w, a))
    ensures Apply(cfg, w, a).term == w.term && Apply(cfg, w, a).flag == w.flag
  {
    if a.Work? && a.work.Acknowledge? { SpentBlocks(cfg, w, a.work.s, m); }
    match a
    case Work(step) => WorkKeepsWave(cfg, w, step);
    case Token(step) => TokenKeepsWave(cfg, w, step);
    case Bar(step) => BarKeepsWave(cfg, w, step);
    case Red(step) => RedKeepsWave(cfg, w, step);
  }

  lemma WorkKeepsWave(cfg: Config, w: World, a: W.WorkStep)
    requires Shaped(cfg, w) && W.Enabled(cfg.n, w.work, a) && !a.Acknowledge?
    ensures var w' := ApplyWork(cfg, w, a); Shaped(cfg, w') && w'.term == w.term && w'.flag == w.flag
  {
  }

  lemma TokenKeepsWave(cfg: Config, w: World, a: TokenStep)
    requires Shaped(cfg, w) && TokenEnabled(cfg, w, a)
    ensures var w' := ApplyToken(cfg, w, a); Shaped(cfg, w') && w'.term == w.term && w'.flag == w.flag
  {
  }

  lemma BarKeepsWave(cfg: Config, w: World, a: BarStep)
    requires Shaped(cfg, w) && BarEnabled(cfg, w, a)
    ensures var w' := ApplyBar(cfg, w, a); Shaped(cfg, w') && w'.term == w.term && w'.flag == w.flag
  {
  }

  lemma RedKeepsWave(cfg: Config, w: World, a: RedStep)
    requires Shaped(cfg, w) && RedEnabled(cfg, w, a)
    ensures var w' := ApplyRed(cfg, w, a); Shaped(cfg, w') && w'.term == w.term && w'.flag == w.flag
  {
  }

  lemma SameFlagsSameFresh(cfg: Config, w: World, w': World, m: nat, r: nat)
    requires Shaped(cfg, w) && Shaped(cfg, w') && r < cfg.n && FreshAt(cfg, w, m, r)
    requires w'.term == w.term && w'.flag == w.flag
    ensures FreshAt(cfg, w', m, r)
  {
  }

  lemma StepKeepsFresh(cfg: Config, w: World, a: Action, m: nat, r: nat)
    requires TreeSpent(cfg, w, m) && !cfg.asWritten && Enabled(cfg, w, a) && r < cfg.n
    ensures Shaped(cfg, Apply(cfg, w, a)) && FreshAt(cfg, Apply(cfg, w, a), m, r)
  {
    if a.Term? {
      TermStepKeepsFresh(cfg, w, a.term, m, r);
    } else {
      SpentFrame(cfg, w, a, m);
      SameFlagsSameFresh(cfg, w, Apply(cfg, w, a), m, r);
    }
  }

  lemma SpentStep(cfg: Config, w: World, a: Action, m: nat)
    requires TreeSpent(cfg, w, m) && Enabled(cfg, w, a)
    ensures TreeSpent(cfg, Apply(cfg, w, a), m)
  {
    StepKeepsBase(cfg, w, a);
    SpentIsQuiet(cfg, w, m);
    QuietIsStable(cfg, w, a);
    forall r: nat | r < cfg.n
      ensures SpentAt(cfg, Apply(cfg, w, a), r) && (cfg.asWritten || FreshAt(cfg, Apply(cfg, w, a), m, r))
    {
      if !cfg.asWritten { StepKeepsFresh(cfg, w, a, m, r); }
      SpentBlocks(cfg, w, r, m);
    }
  }

  lemma SpentIsQuiet(cfg: Config, w: World, m: nat)
    requires TreeSpent(cfg, w, m)
    ensures Quiet(cfg, w)
  {
    forall r: nat | r < cfg.n ensures Idle(w.work, r) { assert SpentAt(cfg, w, r); }
  }

  lemma SpentBlocks(cfg: Config, w: World, r: nat, m: nat)
    requires TreeSpent(cfg, w, m) && r < cfg.n
    ensures w.work.outstanding[r] == 0
  {
    assert SpentAt(cfg, w, r);
  }

  lemma {:induction false} SpentRun(cfg: Config, w: World, acts: seq<Action>, w': World, m: nat)
    requires TreeSpent(cfg, w, m) && Runs(cfg, w, acts, w')
    ensures TreeSpent(cfg, w', m)
    decreases |acts|
  {
    if acts != [] {
      SpentStep(cfg, w, acts[0], m);
      SpentRun(cfg, Apply(cfg, w, acts[0]), acts[1..], w', m);
    }
  }

  lemma StartsSpent(cfg: Config, w: World)
    requires Reachable(cfg, w) && cfg.tree && forall r: nat | r < cfg.n :: SpentAt(cfg, w, r)
    ensures TreeSpent(cfg, w, w.term.round[0])
  {
    ReachableBase(cfg, w);
    forall r: nat | r < cfg.n ensures FreshAt(cfg, w, w.term.round[0], r) { assert V.RoundOk(w.term, r); }
  }

  /** A wave of round `m + 2` or later ends with 1; with the flag shadowed every wave does. */
  lemma LateFinishStops(cfg: Config, w: World, m: nat)
    requires TreeSpent(cfg, w, m) && Enabled(cfg, w, Action.Term(TermFinish))
    requires w.term.round[0] >= m + 2 || cfg.asWritten
    ensures Apply(cfg, w, Action.Term(TermFinish)).phase[0] == CleanUp
  {
    if !cfg.asWritten { assert FreshAt(cfg, w, m, 0); }
    SetFlagTerminates(cfg, w);
  }

  /**
   * Once all work is done and acknowledged, the allreduce in progress may fail and so may the
   * next one, but the one after that ends with 1: the wave of round `round + 2` terminates.
   */
  lemma TreeDetectsInTwoMoreWaves(cfg: Config, w: World, acts: seq<Action>, w': World)
    requires Reachable(cfg, w) && cfg.tree && Runs(cfg, w, acts, w')
    requires forall r: nat | r < cfg.n :: SpentAt(cfg, w, r)
    requires Enabled(cfg, w', Action.Term(TermFinish)) && w'.term.round[0] >= w.term.round[0] + 2
    ensures Apply(cfg, w', Action.Term(TermFinish)).phase[0] == CleanUp
  {
    StartsSpent(cfg, w);
    SpentRun(cfg, w, acts, w', w.term.round[0]);
    LateFinishStops(cfg, w', w.term.round[0]);
  }

  lemma SetFlagTerminates(cfg: Config, w: World)
    requires Enabled(cfg, w, Action.Term(TermFinish)) && RootFlag(cfg.asWritten, w.flag[0])
    ensures Apply(cfg, w, Action.Term(TermFinish)).phase[0] == CleanUp
  {
  }
}
