/** What every step of every configuration keeps, safe or not. */
module Invariants {
  import opened Common
  import opened KaryTree
  import opened System
  import W = WorkProtocol
  import V = TreeWave
  import R = TokenRing
  import D = BackgroundReduce

  ghost predicate Layers(cfg: Config, w: World) {
    && Shaped(cfg, w)
    && W.WorkInv(cfg.n, w.work)
    && V.WaveInv(cfg.n, cfg.k, w.term) && V.WaveInv(cfg.n, cfg.k, w.bar)
    && R.RingInv(cfg.n, w.ring)
    && D.Framed(cfg.n, cfg.k, w.red)
  }

  /** The termination protocol that is not selected stands still; the selected one moves the phase. */
  predicate ModeAt(cfg: Config, w: World, r: nat)
    requires Shaped(cfg, w) && r < cfg.n
  {
    if cfg.tree then w.ring.wire[r] == [] && !w.ring.pending[r] && w.ring.proc[r] != R.Terminate
    else w.phase[r] != Working <==> w.ring.proc[r] == R.Terminate
  }

  ghost predicate Modes(cfg: Config, w: World)
    requires Shaped(cfg, w)
  {
    && (forall r: nat | r < cfg.n :: ModeAt(cfg, w, r))
    && (!cfg.tree ==> w.term == V.Start(cfg.n))
  }

  /** A rank is in the barrier only with nothing outstanding; it leaves once. */
  predicate GateAt(cfg: Config, w: World, r: nat)
    requires Shaped(cfg, w) && r < cfg.n
  {
    && (w.started[r] ==> w.phase[r] == CleanUp)
    && (w.started[r] || w.phase[r] == Left ==> Clear(cfg, w, r))
    && (w.bar.up[r] ==> w.started[r])
    && w.bar.round[r] == (if w.phase[r] == Left then 1 else 0)
  }

  /** Every rank has entered the barrier, so nobody waits for anything. */
  predicate PassedAt(cfg: Config, w: World, r: nat)
    requires Shaped(cfg, w) && r < cfg.n
  {
    w.phase[r] != Working && Clear(cfg, w, r)
  }

  ghost predicate Gates(cfg: Config, w: World)
    requires Shaped(cfg, w)
  {
    && (forall r: nat | r < cfg.n :: GateAt(cfg, w, r))
    && (w.phase[0] == Left ==> forall r: nat | r < cfg.n :: PassedAt(cfg, w, r))
  }

  ghost predicate BaseInv(cfg: Config, w: World) {
    Layers(cfg, w) && Modes(cfg, w) && Gates(cfg, w)
  }

  lemma InitBase(cfg: Config, w: World)
    requires Init(cfg, w)
    ensures BaseInv(cfg, w)
  {
    W.InitEstablishes(cfg.n, w.work);
    V.StartEstablishes(cfg.n, cfg.k);
    R.StartEstablishes(cfg.n);
    assert R.RingInv(cfg.n, w.ring);
    assert D.Framed(cfg.n, cfg.k, w.red) by {
      forall c: nat | 0 < c < cfg.n ensures D.EdgeOk(w.red, c, Parent(c, cfg.k)) {}
    }
  }

  /** A token on the wire is heading for a rank that is still in the work loop. */
  lemma TokenMeetsWorker(cfg: Config, w: World, r: nat)
    requires Layers(cfg, w) && Modes(cfg, w) && R.CanReceive(cfg.n, w.ring, r)
    ensures !cfg.tree && w.phase[r] == Working
  {
    assert ModeAt(cfg, w, r);
    var t, flying :| R.RingInvAt(cfg.n, w.ring, t, flying);
  }

  // ---------------------------------------------------------------- layers

  lemma WorkKeepsLayers(cfg: Config, w: World, a: W.WorkStep)
    requires Layers(cfg, w) && Modes(cfg, w) && Enabled(cfg, w, Work(a))
    ensures Layers(cfg, Apply(cfg, w, Work(a)))
  {
    W.StepKeepsWorkInv(cfg.n, w.work, a);
    if a.Serve? && a.share > 0 {
      var t, flying :| R.RingInvAt(cfg.n, w.ring, t, flying);
      assert ModeAt(cfg, w, a.s);
      var dest := w.work.gathered[a.s][0];
      R.PaintKeeps(cfg.n, w.ring, a.s, dest, t, flying);
      assert R.RingInv(cfg.n, R.Paint(cfg.n, w.ring, a.s, dest));
    }
  }

  lemma TermKeepsLayers(cfg: Config, w: World, a: TermStep)
    requires Layers(cfg, w) && Enabled(cfg, w, Term(a))
    ensures Layers(cfg, Apply(cfg, w, Term(a)))
  {
    match a
    case TermAbsorb(r, src) => V.AbsorbKeeps(cfg.n, cfg.k, w.term, r, src);
    case TermRaise(r) => V.RaiseKeeps(cfg.n, cfg.k, w.term, r, SentFlag(cfg.asWritten, w.flag[r]));
    case TermLower(r) => V.LowerKeeps(cfg.n, cfg.k, w.term, r);
    case TermFinish => V.FinishKeeps(cfg.n, cfg.k, w.term, RootFlag(cfg.asWritten, w.flag[0]));
  }

  lemma TokenKeepsLayers(cfg: Config, w: World, a: TokenStep)
    requires Layers(cfg, w) && Enabled(cfg, w, Token(a))
    ensures Layers(cfg, Apply(cfg, w, Token(a)))
  {
    var t, flying :| R.RingInvAt(cfg.n, w.ring, t, flying);
    var ring' := Apply(cfg, w, Token(a)).ring;
    match a
    case TokenSend(r) => R.SendKeeps(cfg.n, w.ring, r, t, flying);
    case TokenReceive(r) => R.ReceiveKeeps(cfg.n, w.ring, r, t, flying);
    case TokenTest(r) => R.TestKeeps(cfg.n, w.ring, r, t, flying);
    assert R.RingInv(cfg.n, ring');
  }

  lemma BarKeepsLayers(cfg: Config, w: World, a: BarStep)
    requires Layers(cfg, w) && Enabled(cfg, w, Bar(a))
    ensures Layers(cfg, Apply(cfg, w, Bar(a)))
  {
    match a
    case BarStart(r) =>
    case BarAbsorb(r, src) => V.AbsorbKeeps(cfg.n, cfg.k, w.bar, r, src);
    case BarRaise(r) => V.RaiseKeeps(cfg.n, cfg.k, w.bar, r, true);
    case BarLower(r) => V.LowerKeeps(cfg.n, cfg.k, w.bar, r);
    case BarFinish => V.FinishKeeps(cfg.n, cfg.k, w.bar, true);
  }

  lemma RedKeepsLayers(cfg: Config, w: World, a: RedStep)
    requires Layers(cfg, w) && Enabled(cfg, w, Red(a))
    ensures Layers(cfg, Apply(cfg, w, Red(a)))
  {
    match a
    case RedBegin(r, val) => D.BeginKeepsFraming(cfg.n, cfg.k, w.red, r, val);
    case RedRefuse(r) => D.RefuseKeepsFraming(cfg.n, cfg.k, w.red, r);
    case RedGather(r, src) => D.GatherKeepsFraming(cfg.n, cfg.k, w.red, cfg.op, r, src);
    case RedReply(r) => D.ReplyKeepsFraming(cfg.n, cfg.k, w.red, r, w.work.handled[r]);
  }

  lemma StepKeepsLayers(cfg: Config, w: World, a: Action)
    requires Layers(cfg, w) && Modes(cfg, w) && Enabled(cfg, w, a)
    ensures Layers(cfg, Apply(cfg, w, a))
  {
    match a
    case Work(step) => WorkKeepsLayers(cfg, w, step);
    case Term(step) => TermKeepsLayers(cfg, w, step);
    case Token(step) => TokenKeepsLayers(cfg, w, step);
    case Bar(step) => BarKeepsLayers(cfg, w, step);
    case Red(step) => RedKeepsLayers(cfg, w, step);
  }

  // ---------------------------------------------------------------- modes

  lemma WorkKeepsModeAt(cfg: Config, w: World, a: W.WorkStep, r: nat)
    requires Shaped(cfg, w) && WorkGuard(w, a) && W.Enabled(cfg.n, w.work, a) && r < cfg.n && ModeAt(cfg, w, r)
    ensures var w' := ApplyWork(cfg, w, a); Shaped(cfg, w') && ModeAt(cfg, w', r)
  {
  }

  lemma TermKeepsModeAt(cfg: Config, w: World, a: TermStep, r: nat)
    requires Shaped(cfg, w) && TermEnabled(cfg, w, a) && r < cfg.n && ModeAt(cfg, w, r)
    ensures var w' := ApplyTerm(cfg, w, a); Shaped(cfg, w') && ModeAt(cfg, w', r)
  {
  }

  lemma TokenKeepsModeAt(cfg: Config, w: World, a: TokenStep, r: nat)
    requires Shaped(cfg, w) && TokenEnabled(cfg, w, a) && r < cfg.n && ModeAt(cfg, w, r)
    requires a.TokenReceive? ==> w.phase[a.r] == Working
    ensures var w' := ApplyToken(cfg, w, a); Shaped(cfg, w') && ModeAt(cfg, w', r)
  {
  }

  lemma BarKeepsModeAt(cfg: Config, w: World, a: BarStep, r: nat)
    requires Shaped(cfg, w) && BarEnabled(cfg, w, a) && r < cfg.n && ModeAt(cfg, w, r)
    ensures var w' := ApplyBar(cfg, w, a); Shaped(cfg, w') && ModeAt(cfg, w', r)
  {
  }

  lemma RedKeepsModeAt(cfg: Config, w: World, a: RedStep, r: nat)
    requires Shaped(cfg, w) && RedEnabled(cfg, w, a) && r < cfg.n && ModeAt(cfg, w, r)
    ensures var w' := ApplyRed(cfg, w, a); Shaped(cfg, w') && ModeAt(cfg, w', r)
  {
  }

  lemma StepKeepsModes(cfg: Config, w: World, a: Action)
    requires Layers(cfg, w) && Modes(cfg, w) && Enabled(cfg, w, a)
    ensures Shaped(cfg, Apply(cfg, w, a)) && Modes(cfg, Apply(cfg, w, a))
  {
    if a.Token? && a.token.TokenReceive? { TokenMeetsWorker(cfg, w, a.token.r); }
    ModesStep(cfg, w, a);
  }

  lemma StepKeepsModeAt(cfg: Config, w: World, a: Action, r: nat)
    requires Shaped(cfg, w) && Enabled(cfg, w, a) && r < cfg.n && ModeAt(cfg, w, r)
    requires a.Token? && a.token.TokenReceive? ==> w.phase[a.token.r] == Working
    ensures Shaped(cfg, Apply(cfg, w, a)) && ModeAt(cfg, Apply(cfg, w, a), r)
  {
    match a
    case Work(step) => WorkKeepsModeAt(cfg, w, step, r);
    case Term(step) => TermKeepsModeAt(cfg, w, step, r);
    case Token(step) => TokenKeepsModeAt(cfg, w, step, r);
    case Bar(step) => BarKeepsModeAt(cfg, w, step, r);
    case Red(step) => RedKeepsModeAt(cfg, w, step, r);
  }

  lemma RingModeKeepsTerm(cfg: Config, w: World, a: Action)
    requires Enabled(cfg, w, a) && !cfg.tree
    ensures Apply(cfg, w, a).term == w.term
  {
  }

  lemma ModesStep(cfg: Config, w: World, a: Action)
    requires Shaped(cfg, w) && Modes(cfg, w) && Enabled(cfg, w, a)
    requires a.Token? && a.token.TokenReceive? ==> w.phase[a.token.r] == Working
    ensures Shaped(cfg, Apply(cfg, w, a)) && Modes(cfg, Apply(cfg, w, a))
  {
    var w' := Apply(cfg, w, a);
    assert ModeAt(cfg, w, 0);
    StepKeepsModeAt(cfg, w, a, 0);
    forall r: nat | r < cfg.n ensures ModeAt(cfg, w', r) {
      assert ModeAt(cfg, w, r);
      StepKeepsModeAt(cfg, w, a, r);
    }
    if !cfg.tree { RingModeKeepsTerm(cfg, w, a); }
  }

  // ---------------------------------------------------------------- gates

  /** What the gates need of a rank, step by step; a rank past the barrier never waits again. */
  ghost predicate GatePair(cfg: Config, w: World, w': World, r: nat)
    requires Shaped(cfg, w) && r < cfg.n
  {
    && Shaped(cfg, w')
    && GateAt(cfg, w', r)
    && (PassedAt(cfg, w, r) ==> PassedAt(cfg, w', r))
  }

  /** A work step touches no phase, barrier or reduction, and only a working rank asks for work. */
  lemma WorkFrame(cfg: Config, w: World, a: W.WorkStep, r: nat)
    requires Shaped(cfg, w) && WorkGuard(w, a) && W.Enabled(cfg.n, w.work, a) && r < cfg.n
    ensures var w' := ApplyWork(cfg, w, a);
      && Shaped(cfg, w') && w'.phase == w.phase && w'.started == w.started && w'.bar == w.bar && w'.red == w.red
      && w'.ring.pending == w.ring.pending
      && (w.work.asked[r] == None && w.phase[r] != Working ==> w'.work.asked[r] == None)
  {
  }

  lemma WorkKeepsGateAt(cfg: Config, w: World, a: W.WorkStep, r: nat)
    requires Shaped(cfg, w) && WorkGuard(w, a) && W.Enabled(cfg.n, w.work, a) && r < cfg.n && GateAt(cfg, w, r)
    ensures GatePair(cfg, w, ApplyWork(cfg, w, a), r)
  {
    WorkFrame(cfg, w, a, r);
  }

  lemma TermKeepsGateAt(cfg: Config, w: World, a: TermStep, r: nat)
    requires Shaped(cfg, w) && TermEnabled(cfg, w, a) && r < cfg.n && GateAt(cfg, w, r)
    ensures GatePair(cfg, w, ApplyTerm(cfg, w, a), r)
  {
  }

  lemma TokenKeepsGateAt(cfg: Config, w: World, a: TokenStep, r: nat)
    requires Shaped(cfg, w) && TokenEnabled(cfg, w, a) && r < cfg.n && GateAt(cfg, w, r)
    requires a.TokenReceive? ==> w.phase[a.r] == Working
    ensures GatePair(cfg, w, ApplyToken(cfg, w, a), r)
  {
  }

  lemma BarKeepsGateAt(cfg: Config, w: World, a: BarStep, r: nat)
    requires Shaped(cfg, w) && BarEnabled(cfg, w, a) && r < cfg.n && GateAt(cfg, w, r)
    requires !w.bar.up[0]
    ensures GatePair(cfg, w, ApplyBar(cfg, w, a), r)
  {
  }

  lemma RedIsOwn(cfg: Config, w: World, a: RedStep)
    requires Shaped(cfg, w) && RedEnabled(cfg, w, a)
    ensures var w' := ApplyRed(cfg, w, a); Shaped(cfg, w') && w' == w.(red := w'.red)
  {
  }

  /** A rank outside the work loop never has a new reduction outstanding. */
  lemma RedOutFalls(cfg: Config, w: World, a: RedStep, r: nat)
    requires Shaped(cfg, w) && RedEnabled(cfg, w, a) && r < cfg.n
    ensures var w' := ApplyRed(cfg, w, a);
      Shaped(cfg, w') && w' == w.(red := w'.red) && (w'.red.out[r] ==> w.red.out[r] || w.phase[r] == Working)
  {
    RedIsOwn(cfg, w, a);
  }

  lemma RedKeepsGateAt(cfg: Config, w: World, a: RedStep, r: nat)
    requires Shaped(cfg, w) && RedEnabled(cfg, w, a) && r < cfg.n && GateAt(cfg, w, r)
    ensures GatePair(cfg, w, ApplyRed(cfg, w, a), r)
  {
    RedOutFalls(cfg, w, a, r);
  }

  lemma StepKeepsGateAt(cfg: Config, w: World, a: Action, r: nat)
    requires Shaped(cfg, w) && Enabled(cfg, w, a) && r < cfg.n && GateAt(cfg, w, r)
    requires a.Token? && a.token.TokenReceive? ==> w.phase[a.token.r] == Working
    requires !w.bar.up[0]
    ensures GatePair(cfg, w, Apply(cfg, w, a), r)
  {
    match a
    case Work(step) => WorkKeepsGateAt(cfg, w, step, r);
    case Term(step) => TermKeepsGateAt(cfg, w, step, r);
    case Token(step) => TokenKeepsGateAt(cfg, w, step, r);
    case Bar(step) => BarKeepsGateAt(cfg, w, step, r);
    case Red(step) => RedKeepsGateAt(cfg, w, step, r);
  }

  /** When the root's barrier completes, every rank has entered it. */
  lemma BarrierCollectsEveryone(cfg: Config, w: World)
    requires BaseInv(cfg, w) && BarEnabled(cfg, w, BarFinish)
    ensures forall r: nat | r < cfg.n :: w.started[r] && PassedAt(cfg, w, r)
  {
    V.RootSeesEveryone(cfg.n, cfg.k, w.bar);
    forall r: nat | r < cfg.n ensures w.started[r] && PassedAt(cfg, w, r) {
      assert GateAt(cfg, w, r);
      if r > 0 { assert V.Arrived(w.bar, r); }
    }
  }

  lemma StepKeepsGates(cfg: Config, w: World, a: Action)
    requires BaseInv(cfg, w) && Enabled(cfg, w, a)
    ensures Shaped(cfg, Apply(cfg, w, a)) && Gates(cfg, Apply(cfg, w, a))
  {
    if a.Token? && a.token.TokenReceive? { TokenMeetsWorker(cfg, w, a.token.r); }
    if a == Bar(BarFinish) { BarrierCollectsEveryone(cfg, w); }
    GatesStep(cfg, w, a);
  }

  lemma GatesStep(cfg: Config, w: World, a: Action)
    requires Shaped(cfg, w) && Enabled(cfg, w, a) && Gates(cfg, w) && !w.bar.up[0]
    requires a.Token? && a.token.TokenReceive? ==> w.phase[a.token.r] == Working
    requires a == Bar(BarFinish) ==> forall r: nat | r < cfg.n :: PassedAt(cfg, w, r)
    ensures Shaped(cfg, Apply(cfg, w, a)) && Gates(cfg, Apply(cfg, w, a))
  {
    var w' := Apply(cfg, w, a);
    forall r: nat | r < cfg.n ensures GatePair(cfg, w, w', r) {
      assert GateAt(cfg, w, r);
      StepKeepsGateAt(cfg, w, a, r);
    }
    assert GatePair(cfg, w, w', 0);
    forall r: nat | r < cfg.n ensures GateAt(cfg, w', r) { assert GatePair(cfg, w, w', r); }
    if w'.phase[0] == Left {
      if w.phase[0] != Left { OnlyFinishLeaves(cfg, w, a); }
      forall r: nat | r < cfg.n ensures PassedAt(cfg, w', r) {
        assert PassedAt(cfg, w, r);
        assert GatePair(cfg, w, w', r);
      }
    }
  }

  /** The root leaves the clean-up loop only when its own barrier completes. */
  lemma OnlyFinishLeaves(cfg: Config, w: World, a: Action)
    requires Shaped(cfg, w) && Enabled(cfg, w, a) && w.phase[0] != Left && Apply(cfg, w, a).phase[0] == Left
    ensures a == Bar(BarFinish)
  {
  }

  lemma StepKeepsBase(cfg: Config, w: World, a: Action)
    requires BaseInv(cfg, w) && Enabled(cfg, w, a)
    ensures BaseInv(cfg, Apply(cfg, w, a))
  {
    StepKeepsLayers(cfg, w, a);
    StepKeepsModes(cfg, w, a);
    StepKeepsGates(cfg, w, a);
  }

  lemma {:induction false} RunKeepsBase(cfg: Config, w: World, acts: seq<Action>, w': World)
    requires BaseInv(cfg, w) && Runs(cfg, w, acts, w')
    ensures BaseInv(cfg, w')
    decreases |acts|
  {
    if acts != [] {
      StepKeepsBase(cfg, w, acts[0]);
      RunKeepsBase(cfg, Apply(cfg, w, acts[0]), acts[1..], w');
    }
  }

  lemma ReachableBase(cfg: Config, w: World)
    requires Reachable(cfg, w)
    ensures BaseInv(cfg, w)
  {
    var w0, acts :| Init(cfg, w0) && Runs(cfg, w0, acts, w);
    InitBase(cfg, w0);
    RunKeepsBase(cfg, w0, acts, w);
  }

  lemma ReachableRun(cfg: Config, w: World, acts: seq<Action>, w': World)
    requires Reachable(cfg, w) && Runs(cfg, w, acts, w')
    ensures Reachable(cfg, w')
  {
    ReachableBase(cfg, w);
    RunKeepsBase(cfg, w, acts, w');
    var w0, before :| Init(cfg, w0) && Runs(cfg, w0, before, w);
    RunsAppend(cfg, w0, before, w, acts, w');
  }

  /** Some run leads from `w` to `w'`. */
  ghost predicate Leads(cfg: Config, w: World, w': World) {
    exists acts :: Runs(cfg, w, acts, w')
  }

  lemma LeadsNowhere(cfg: Config, w: World)
    ensures Leads(cfg, w, w)
  {
    assert Runs(cfg, w, [], w);
  }

  lemma LeadsOn(cfg: Config, u: World, v: World, w: World)
    requires Leads(cfg, u, v) && Leads(cfg, v, w)
    ensures Leads(cfg, u, w)
  {
    var a :| Runs(cfg, u, a, v);
    var b :| Runs(cfg, v, b, w);
    RunsAppend(cfg, u, a, v, b, w);
  }

  /** One step on the way. */
  lemma StepOn(cfg: Config, w: World, a: Action) returns (w': World)
    requires Reachable(cfg, w) && Enabled(cfg, w, a)
    ensures w' == Apply(cfg, w, a) && Reachable(cfg, w') && Leads(cfg, w, w')
  {
    w' := Apply(cfg, w, a);
    RunsOne(cfg, w, a);
    ReachableRun(cfg, w, [a], w');
  }
}
