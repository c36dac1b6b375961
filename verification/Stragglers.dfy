/**
 * Between the root's decision and the moment every rank has left the work loop: the result goes down
 * the tree, or the terminate token goes round.
 */
module Stragglers {
  import opened Common
  import opened KaryTree
  import opened System
  import opened Invariants
  import opened TreeSafety
  import opened RingSafety
  import opened EndToEnd
  import W = WorkProtocol
  import V = TreeWave
  import R = TokenRing

  /** A step that, once the root has stopped, takes one more rank out of the work loop. */
  predicate IsRelease(a: Action) {
    a.Term? || (a.Token? && a.token.TokenReceive?)
  }

  // ---------------------------------------------------------------- the tree, sound or not

  /** The root has stopped: the ranks still working are those that wait for its result, which is 1. */
  predicate ReleasedAt(cfg: Config, w: World, r: nat)
    requires Shaped(cfg, w) && r < cfg.n
  {
    && (w.phase[r] == Working <==> w.term.up[r])
    && w.term.round[0] == w.term.round[r] + (if w.phase[r] == Working then 1 else 0)
    && w.term.rise[r] == []
    && (w.phase[r] == Working && w.term.fall[r] != [] ==> w.term.fall[r][0])
  }

  /** With the flag shadowed or not: either nobody has stopped, or the result 1 is on its way to the others. */
  predicate StageAt(cfg: Config, w: World, r: nat)
    requires Shaped(cfg, w) && r < cfg.n
  {
    if w.phase[0] == Working then LiveAt(cfg, w, r) else ReleasedAt(cfg, w, r)
  }

  ghost predicate Stage(cfg: Config, w: World)
    requires Shaped(cfg, w)
  {
    forall r: nat | r < cfg.n :: StageAt(cfg, w, r)
  }

  lemma StageNow(cfg: Config, w: World, r: nat)
    requires Shaped(cfg, w) && Stage(cfg, w) && r < cfg.n
    ensures StageAt(cfg, w, r)
  {
  }

  lemma FinishKeepsStage(cfg: Config, w: World, q: nat)
    requires Shaped(cfg, w) && V.WaveInv(cfg.n, cfg.k, w.term) && Stage(cfg, w) && q < cfg.n
    requires TermEnabled(cfg, w, TermFinish)
    ensures Shaped(cfg, ApplyTerm(cfg, w, TermFinish)) && StageAt(cfg, ApplyTerm(cfg, w, TermFinish), q)
  {
    V.RootSeesEveryone(cfg.n, cfg.k, w.term);
    StageNow(cfg, w, q);
    if q > 0 { assert V.Arrived(w.term, q); }
  }

  lemma AbsorbKeepsStage(cfg: Config, w: World, r: nat, src: nat, q: nat)
    requires Shaped(cfg, w) && V.WaveInv(cfg.n, cfg.k, w.term) && Stage(cfg, w) && q < cfg.n
    requires TermEnabled(cfg, w, TermAbsorb(r, src))
    ensures Shaped(cfg, ApplyTerm(cfg, w, TermAbsorb(r, src))) && StageAt(cfg, ApplyTerm(cfg, w, TermAbsorb(r, src)), q)
  {
    V.ProbeFindsOnlyChildren(cfg.n, cfg.k, w.term, r, src);
    StageNow(cfg, w, q);
  }

  lemma RaiseKeepsStage(cfg: Config, w: World, r: nat, q: nat)
    requires Shaped(cfg, w) && Stage(cfg, w) && q < cfg.n && TermEnabled(cfg, w, TermRaise(r))
    ensures Shaped(cfg, ApplyTerm(cfg, w, TermRaise(r))) && StageAt(cfg, ApplyTerm(cfg, w, TermRaise(r)), q)
  {
    StageNow(cfg, w, q);
    StageNow(cfg, w, r);
  }

  lemma LowerKeepsStage(cfg: Config, w: World, r: nat, q: nat)
    requires Shaped(cfg, w) && V.WaveInv(cfg.n, cfg.k, w.term) && Stage(cfg, w) && q < cfg.n
    requires TermEnabled(cfg, w, TermLower(r))
    ensures Shaped(cfg, ApplyTerm(cfg, w, TermLower(r))) && StageAt(cfg, ApplyTerm(cfg, w, TermLower(r)), q)
  {
    StageNow(cfg, w, q);
    StageNow(cfg, w, r);
    V.UpMeansFull(cfg.n, cfg.k, w.term, r);
    V.FullCount(cfg.n, cfg.k, w.term, r);
    if q > 0 && Parent(q, cfg.k) == r { assert V.Arrived(w.term, q); }
  }

  /** The steps of the other protocols do not touch the allreduce, and no rank stops or starts working. */
  predicate OnlyElsewhere(w: World, w': World) {
    && w'.term == w.term && |w'.phase| == |w.phase|
    && forall r: nat | r < |w.phase| :: w'.phase[r] == Working <==> w.phase[r] == Working
  }

  lemma WorkIsElsewhere(cfg: Config, w: World, a: W.WorkStep)
    requires Shaped(cfg, w) && W.Enabled(cfg.n, w.work, a)
    ensures Shaped(cfg, ApplyWork(cfg, w, a)) && OnlyElsewhere(w, ApplyWork(cfg, w, a))
  {
  }

  lemma BarIsElsewhere(cfg: Config, w: World, a: BarStep)
    requires Shaped(cfg, w) && BarEnabled(cfg, w, a)
    ensures Shaped(cfg, ApplyBar(cfg, w, a)) && OnlyElsewhere(w, ApplyBar(cfg, w, a))
  {
  }

  lemma RedIsElsewhere(cfg: Config, w: World, a: RedStep)
    requires Shaped(cfg, w) && RedEnabled(cfg, w, a)
    ensures Shaped(cfg, ApplyRed(cfg, w, a)) && OnlyElsewhere(w, ApplyRed(cfg, w, a))
  {
  }

  /** Sending and testing tokens stops nobody. */
  lemma TokenIsElsewhere(cfg: Config, w: World, a: TokenStep)
    requires Shaped(cfg, w) && TokenEnabled(cfg, w, a) && !a.TokenReceive?
    ensures Shaped(cfg, ApplyToken(cfg, w, a)) && OnlyElsewhere(w, ApplyToken(cfg, w, a))
  {
  }

  lemma OthersAreElsewhere(cfg: Config, w: World, a: Action)
    requires Enabled(cfg, w, a) && !IsRelease(a)
    ensures Shaped(cfg, Apply(cfg, w, a)) && OnlyElsewhere(w, Apply(cfg, w, a))
  {
    match a
    case Work(step) => WorkIsElsewhere(cfg, w, step);
    case Bar(step) => BarIsElsewhere(cfg, w, step);
    case Red(step) => RedIsElsewhere(cfg, w, step);
    case Token(step) => TokenIsElsewhere(cfg, w, step);
    case Term(_) =>
  }

  lemma ElsewhereKeepsStage(cfg: Config, w: World, w': World, q: nat)
    requires Shaped(cfg, w) && Stage(cfg, w) && Shaped(cfg, w') && OnlyElsewhere(w, w') && q < cfg.n
    ensures StageAt(cfg, w', q)
  {
    StageNow(cfg, w, q);
    assert w'.phase[0] == Working <==> w.phase[0] == Working;
    assert w'.phase[q] == Working <==> w.phase[q] == Working;
  }

  lemma TermKeepsStage(cfg: Config, w: World, a: TermStep, q: nat)
    requires Shaped(cfg, w) && V.WaveInv(cfg.n, cfg.k, w.term) && Stage(cfg, w) && q < cfg.n && TermEnabled(cfg, w, a)
    ensures Shaped(cfg, ApplyTerm(cfg, w, a)) && StageAt(cfg, ApplyTerm(cfg, w, a), q)
  {
    match a
    case TermAbsorb(r, src) => AbsorbKeepsStage(cfg, w, r, src, q);
    case TermRaise(r) => RaiseKeepsStage(cfg, w, r, q);
    case TermLower(r) => LowerKeepsStage(cfg, w, r, q);
    case TermFinish => FinishKeepsStage(cfg, w, q);
  }

  lemma StepKeepsStage(cfg: Config, w: World, a: Action, q: nat)
    requires Layers(cfg, w) && cfg.tree && Stage(cfg, w) && Enabled(cfg, w, a) && q < cfg.n
    ensures Shaped(cfg, Apply(cfg, w, a)) && StageAt(cfg, Apply(cfg, w, a), q)
  {
    if a.Term? {
      TermKeepsStage(cfg, w, a.term, q);
    } else {
      OthersAreElsewhere(cfg, w, a);
      ElsewhereKeepsStage(cfg, w, Apply(cfg, w, a), q);
    }
  }

  lemma {:induction false} RunKeepsStage(cfg: Config, w: World, acts: seq<Action>, w': World)
    requires BaseInv(cfg, w) && cfg.tree && Stage(cfg, w) && Runs(cfg, w, acts, w')
    ensures BaseInv(cfg, w') && Stage(cfg, w')
    decreases |acts|
  {
    if acts != [] {
      StepKeepsBase(cfg, w, acts[0]);
      StepKeepsWholeStage(cfg, w, acts[0]);
      var u := Apply(cfg, w, acts[0]);
      RunKeepsStage(cfg, u, acts[1..], w');
    }
  }

  lemma InitStage(cfg: Config, w: World)
    requires Init(cfg, w)
    ensures Stage(cfg, w)
  {
    forall r: nat | r < cfg.n ensures StageAt(cfg, w, r) {}
  }

  lemma ReachableStage(cfg: Config, w: World)
    requires Reachable(cfg, w) && cfg.tree
    ensures Stage(cfg, w)
  {
    var w0, acts :| Init(cfg, w0) && Runs(cfg, w0, acts, w);
    InitBase(cfg, w0);
    InitStage(cfg, w0);
    RunKeepsStage(cfg, w0, acts, w);
  }

  // ---------------------------------------------------------------- how many are left

  /** What holds once the root has left the work loop, in every configuration. */
  ghost predicate Deciding(cfg: Config, w: World) {
    BaseInv(cfg, w) && w.phase[0] != Working && (cfg.tree ==> Stage(cfg, w))
  }

  ghost function StillWorking(w: World): set<nat> {
    set r: nat | r < |w.phase| && w.phase[r] == Working
  }

  lemma TermReleases(cfg: Config, w: World, a: TermStep)
    requires Deciding(cfg, w) && TermEnabled(cfg, w, a)
    ensures a.TermLower? && w.phase[a.r] == Working && ApplyTerm(cfg, w, a).phase == w.phase[a.r := CleanUp]
  {
    match a
    case TermAbsorb(r, src) =>
      V.ProbeFindsOnlyChildren(cfg.n, cfg.k, w.term, r, src);
      StageNow(cfg, w, src);
    case TermRaise(r) => StageNow(cfg, w, r);
    case TermLower(r) => StageNow(cfg, w, r);
    case TermFinish =>
  }

  /** Once rank 0 has stopped, the only token is the terminate token. */
  lemma TokenIsLast(cfg: Config, w: World) returns (t: nat, flying: bool)
    requires BaseInv(cfg, w) && !cfg.tree && w.phase[0] != Working
    ensures R.RingInvAt(cfg.n, w.ring, t, flying) && R.Decided(cfg.n, w.ring, t, flying)
  {
    t, flying :| R.RingInvAt(cfg.n, w.ring, t, flying);
    assert ModeAt(cfg, w, 0);
  }

  lemma TokenReleases(cfg: Config, w: World, r: nat)
    requires Deciding(cfg, w) && TokenEnabled(cfg, w, TokenReceive(r))
    ensures w.phase[r] == Working && ApplyToken(cfg, w, TokenReceive(r)).phase == w.phase[r := CleanUp]
  {
    TokenMeetsWorker(cfg, w, r);
    var t, flying := TokenIsLast(cfg, w);
    R.ReceiveKeeps(cfg.n, w.ring, r, t, flying);
  }

  /** The rank a releasing step takes out of the work loop. */
  lemma ReleaseTakesOneOut(cfg: Config, w: World, a: Action) returns (r: nat)
    requires Deciding(cfg, w) && Enabled(cfg, w, a) && IsRelease(a)
    ensures r < cfg.n && w.phase[r] == Working && Apply(cfg, w, a).phase == w.phase[r := CleanUp]
  {
    if a.Term? {
      TermReleases(cfg, w, a.term);
      r := a.term.r;
    } else {
      TokenReleases(cfg, w, a.token.r);
      r := a.token.r;
    }
  }

  lemma OneFewer(w: World, w': World, r: nat)
    requires r < |w.phase| && w.phase[r] == Working && w'.phase == w.phase[r := CleanUp]
    ensures |StillWorking(w')| == |StillWorking(w)| - 1
    ensures |w.phase| > 0 && w.phase[0] != Working ==> w'.phase[0] != Working
  {
    assert StillWorking(w') == StillWorking(w) - {r};
  }

  lemma NoneFewer(w: World, w': World)
    requires OnlyElsewhere(w, w')
    ensures |StillWorking(w')| == |StillWorking(w)|
    ensures |w.phase| > 0 && w.phase[0] != Working ==> w'.phase[0] != Working
  {
    assert StillWorking(w') == StillWorking(w);
  }

  lemma StepCounts(cfg: Config, w: World, a: Action)
    requires Deciding(cfg, w) && Enabled(cfg, w, a) && Shaped(cfg, Apply(cfg, w, a))
    ensures Apply(cfg, w, a).phase[0] != Working
    ensures |StillWorking(Apply(cfg, w, a))| == |StillWorking(w)| - if IsRelease(a) then 1 else 0
  {
    if IsRelease(a) {
      var r := ReleaseTakesOneOut(cfg, w, a);
      OneFewer(w, Apply(cfg, w, a), r);
    } else {
      OthersAreElsewhere(cfg, w, a);
      NoneFewer(w, Apply(cfg, w, a));
    }
  }

  lemma StepKeepsWholeStage(cfg: Config, w: World, a: Action)
    requires Layers(cfg, w) && cfg.tree && Stage(cfg, w) && Enabled(cfg, w, a)
    ensures Shaped(cfg, Apply(cfg, w, a)) && Stage(cfg, Apply(cfg, w, a))
  {
    StepKeepsStage(cfg, w, a, 0);
    forall q: nat | q < cfg.n ensures StageAt(cfg, Apply(cfg, w, a), q) { StepKeepsStage(cfg, w, a, q); }
  }

  lemma StepKeepsDeciding(cfg: Config, w: World, a: Action)
    requires Deciding(cfg, w) && Enabled(cfg, w, a)
    ensures Deciding(cfg, Apply(cfg, w, a))
    ensures |StillWorking(Apply(cfg, w, a))| == |StillWorking(w)| - if IsRelease(a) then 1 else 0
  {
    StepKeepsBase(cfg, w, a);
    if cfg.tree { StepKeepsWholeStage(cfg, w, a); }
    StepCounts(cfg, w, a);
  }

  function Releases(acts: seq<Action>): nat {
    if acts == [] then 0 else (if IsRelease(acts[0]) then 1 else 0) + Releases(acts[1..])
  }

  lemma {:induction false} RunReleases(cfg: Config, w: World, acts: seq<Action>, w': World)
    requires Deciding(cfg, w) && Runs(cfg, w, acts, w')
    ensures Deciding(cfg, w') && Releases(acts) + |StillWorking(w')| == |StillWorking(w)|
    decreases |acts|
  {
    if acts != [] {
      StepKeepsDeciding(cfg, w, acts[0]);
      RunReleases(cfg, Apply(cfg, w, acts[0]), acts[1..], w');
    }
  }

  lemma ReachableDeciding(cfg: Config, w: World)
    requires Reachable(cfg, w) && w.phase[0] != Working
    ensures Deciding(cfg, w)
  {
    ReachableBase(cfg, w);
    if cfg.tree { ReachableStage(cfg, w); }
  }

  /**
   * In every configuration: once the root has left the work loop, each releasing step takes exactly
   * one more rank out of it and no other step does, so there are fewer than n of them.
   */
  lemma ReleasesAreBounded(cfg: Config, w: World, acts: seq<Action>, w': World)
    requires Reachable(cfg, w) && w.phase[0] != Working && Runs(cfg, w, acts, w')
    ensures Releases(acts) + |StillWorking(w')| == |StillWorking(w)| < cfg.n
  {
    ReachableDeciding(cfg, w);
    RunReleases(cfg, w, acts, w');
    var others := Below(cfg.n) - {0};
    assert StillWorking(w) <= others;
    SubsetSize(StillWorking(w), others);
  }

  // ---------------------------------------------------------------- never stuck

  /** The topmost rank that still works finds the result waiting. */
  lemma {:induction false} ResultWaits(cfg: Config, w: World, r: nat) returns (q: nat)
    requires Deciding(cfg, w) && cfg.tree && r < cfg.n && w.phase[r] == Working
    ensures 0 < q < cfg.n && w.phase[q] == Working && V.CanLower(cfg.n, cfg.k, w.term, q)
    decreases r
  {
    var p := Parent(r, cfg.k);
    if w.phase[p] == Working {
      q := ResultWaits(cfg, w, p);
    } else {
      q := r;
      StageNow(cfg, w, r);
      StageNow(cfg, w, p);
      assert V.EdgeOk(w.term, r, p);
    }
  }

  /** A step that gives a busy rank's work or acknowledgement its due. */
  predicate IsProgress(a: Action) {
    IsRelease(a) || (a.Work? && (a.work.Process? || a.work.Accept? || a.work.Acknowledge?))
  }

  lemma SomeCarrier(n: nat, w: W.Work, s: nat) returns (r: nat)
    requires W.Shaped(n, w) && W.Paired(n, w) && W.Balanced(n, w) && s < n && w.outstanding[s] > w.receipts[s]
    ensures r < n && w.asked[r] == Some(s) && W.OldestFrom(w.replies[r], s, 0) && w.replies[r][0].items != []
  {
    assert w.outstanding[s] == w.receipts[s] + |W.Carriers(w, s)|;
    r :| r in W.Carriers(w, s);
    assert W.PairedAt(n, w, r);
  }

  /** A step that leaves less to be done: no new items, and no reply that carries none. */
  predicate IsSettling(w: W.Work, a: W.WorkStep) {
    match a
    case Process(_, spawned) => spawned == []
    case Accept(r, j) => j == 0 && r < |w.replies| && w.replies[r] != [] && w.replies[r][0].items != []
    case Acknowledge(_) => true
    case _ => false
  }

  /** A rank that still has work, or transfers outstanding, is not waiting for nothing. */
  lemma BusyMoves(cfg: Config, w: World, q: nat) returns (a: Action)
    requires BaseInv(cfg, w) && q < cfg.n && w.phase[q] == Working
    requires w.work.queue[q] != [] || w.work.outstanding[q] > 0
    ensures Enabled(cfg, w, a) && IsProgress(a) && a.Work? && IsSettling(w.work, a.work)
  {
    if w.work.queue[q] != [] {
      a := Action.Work(W.Process(q, []));
    } else if w.work.receipts[q] > 0 {
      a := Action.Work(W.Acknowledge(q));
    } else {
      var r := SomeCarrier(cfg.n, w.work, q);
      assert W.PairedAt(cfg.n, w.work, r) && GateAt(cfg, w, r);
      a := Action.Work(W.Accept(r, 0));
    }
  }

  lemma ResultIsTaken(cfg: Config, w: World, q: nat) returns (a: Action)
    requires BaseInv(cfg, w) && cfg.tree && q < cfg.n && w.phase[q] == Working && V.CanLower(cfg.n, cfg.k, w.term, q)
    requires w.work.queue[q] == [] && w.work.outstanding[q] == 0
    ensures Enabled(cfg, w, a) && IsRelease(a)
  {
    a := Action.Term(TermLower(q));
  }

  lemma TokenIsTaken(cfg: Config, w: World, q: nat) returns (a: Action)
    requires BaseInv(cfg, w) && !cfg.tree && R.CanReceive(cfg.n, w.ring, q) && w.phase[q] == Working
    requires !w.ring.local[q] && w.work.queue[q] == []
    ensures Enabled(cfg, w, a) && IsRelease(a)
  {
    assert ModeAt(cfg, w, q);
    a := Action.Token(TokenReceive(q));
  }

  /** Where the token is while some rank still works. */
  lemma TokenWaits(cfg: Config, w: World, r: nat) returns (q: nat)
    requires Deciding(cfg, w) && !cfg.tree && r < cfg.n && w.phase[r] == Working
    ensures q < cfg.n && w.phase[q] == Working && R.CanReceive(cfg.n, w.ring, q) && !w.ring.local[q]
  {
    var t, flying := TokenIsLast(cfg, w);
    assert ModeAt(cfg, w, r) && ModeAt(cfg, w, t);
    q := t;
  }

  /**
   * In every configuration: once the root has left the work loop and while some rank has not, a rank can
   * leave it, process an item, take a reply or take a receipt.
   */
  lemma StragglersNeverStuck(cfg: Config, w: World, r: nat) returns (a: Action)
    requires Reachable(cfg, w) && w.phase[0] != Working && r < cfg.n && w.phase[r] == Working
    ensures Enabled(cfg, w, a) && IsProgress(a)
  {
    ReachableDeciding(cfg, w);
    var q;
    if cfg.tree { q := ResultWaits(cfg, w, r); } else { q := TokenWaits(cfg, w, r); }
    if w.work.queue[q] != [] || (cfg.tree && w.work.outstanding[q] > 0) {
      a := BusyMoves(cfg, w, q);
    } else if cfg.tree {
      a := ResultIsTaken(cfg, w, q);
    } else {
      a := TokenIsTaken(cfg, w, q);
    }
  }

  /** In a sound configuration there is nothing else to do, so a releasing step itself is possible. */
  lemma SoundStragglersLeave(cfg: Config, w: World, r: nat) returns (a: Action)
    requires Sound(cfg) && Reachable(cfg, w) && w.phase[0] != Working && r < cfg.n && w.phase[r] == Working
    ensures Enabled(cfg, w, a) && IsRelease(a)
  {
    ReachableDeciding(cfg, w);
    TerminationIsComplete(cfg, w);
    var q;
    if cfg.tree {
      q := ResultWaits(cfg, w, r);
      ReachableSafe(cfg, w);
      assert OverAt(cfg, w, q);
      a := ResultIsTaken(cfg, w, q);
    } else {
      q := TokenWaits(cfg, w, r);
      assert Idle(w.work, q);
      a := TokenIsTaken(cfg, w, q);
    }
  }
}
