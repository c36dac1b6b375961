/** Whole runs: exactly-once processing at termination, and an empty network at exit. */
module EndToEnd {
  import opened Common
  import opened KaryTree
  import opened System
  import opened Invariants
  import opened TreeSafety
  import opened RingSafety
  import W = WorkProtocol
  import V = TreeWave
  import R = TokenRing
  import D = BackgroundReduce

  /** What a caller can check up front: the selected protocol is one that never ends too early. */
  predicate Sound(cfg: Config) {
    cfg.n == 1 || if cfg.tree then !cfg.asWritten else cfg.delivery
  }

  ghost predicate SafeInv(cfg: Config, w: World) {
    BaseInv(cfg, w) && if cfg.tree then TreeSafe(cfg, w) else RingSafe(cfg, w)
  }

  lemma {:induction false} RunKeepsSafe(cfg: Config, w: World, acts: seq<Action>, w': World)
    requires Sound(cfg) && SafeInv(cfg, w) && Runs(cfg, w, acts, w')
    ensures SafeInv(cfg, w')
    decreases |acts|
  {
    if acts != [] {
      StepKeepsBase(cfg, w, acts[0]);
      if cfg.tree { StepKeepsTreeSafe(cfg, w, acts[0]); } else { StepKeepsRingSafe(cfg, w, acts[0]); }
      RunKeepsSafe(cfg, Apply(cfg, w, acts[0]), acts[1..], w');
    }
  }

  lemma ReachableSafe(cfg: Config, w: World)
    requires Sound(cfg) && Reachable(cfg, w)
    ensures SafeInv(cfg, w)
  {
    var w0, acts :| Init(cfg, w0) && Runs(cfg, w0, acts, w);
    InitBase(cfg, w0);
    if cfg.tree { InitTreeSafe(cfg, w0); } else { InitRingSafe(cfg, w0); }
    RunKeepsSafe(cfg, w0, acts, w);
  }

  /** Some rank has left the work loop. */
  ghost predicate Terminated(cfg: Config, w: World)
    requires Shaped(cfg, w)
  {
    exists r: nat :: r < cfg.n && w.phase[r] != Working
  }

  /** Nothing is queued or travelling, and every item ever created was processed exactly once. */
  ghost predicate Complete(cfg: Config, w: World)
    requires Shaped(cfg, w)
  {
    Quiet(cfg, w) && w.work.processed == w.work.created
  }

  lemma QuietIsComplete(cfg: Config, w: World)
    requires Layers(cfg, w) && Quiet(cfg, w)
    ensures Complete(cfg, w)
  {
    var h := W.Held(cfg.n, w.work);
    forall r | 0 <= r < cfg.n ensures h[r] == multiset{} {
      assert Idle(w.work, r) && W.PairedAt(cfg.n, w.work, r);
      var box := w.work.replies[r];
      if box != [] {
        assert box[0].items == [] && box[1..] == [];
        assert W.InBox(box) == multiset(box[0].items) + W.InBox(box[1..]);
      }
    }
    UnionOfEmpties(h);
  }

  /** Exactly-once: from the moment any rank leaves the work loop, all work has been done once. */
  lemma TerminationIsComplete(cfg: Config, w: World)
    requires Sound(cfg) && Reachable(cfg, w) && Terminated(cfg, w)
    ensures Complete(cfg, w)
  {
    ReachableSafe(cfg, w);
    var r: nat :| r < cfg.n && w.phase[r] != Working;
    if cfg.tree {
      if w.phase[0] == Working { AllWorking(cfg, w, r); } else {
        forall q: nat | q < cfg.n ensures Idle(w.work, q) { assert OverAt(cfg, w, q); }
      }
    } else {
      var t, flying :| RingSafeAt(cfg, w, t, flying);
      assert ModeAt(cfg, w, r);
    }
    QuietIsComplete(cfg, w);
  }

  /** When the root's allreduce yields 1, all queues are empty and no transfer is travelling or unacknowledged. */
  lemma AllreduceDecisionIsRight(cfg: Config, w: World, r: nat)
    requires Sound(cfg) && Reachable(cfg, w) && Enabled(cfg, w, Action.Term(TermFinish))
    requires RootFlag(cfg.asWritten, w.flag[0]) && r < cfg.n
    ensures Idle(w.work, r) && w.work.outstanding[r] == 0 && w.work.receipts[r] == 0
  {
    ReachableSafe(cfg, w);
    DecisionIsRight(cfg, w);
  }

  /** Any-source probes for a child's message, of the allreduce and of the barrier, never find the parent's. */
  lemma ProbesFindOnlyChildren(cfg: Config, w: World, wave: V.Wave, r: nat, src: nat)
    requires Reachable(cfg, w) && (wave == w.term || wave == w.bar) && V.CanAbsorb(cfg.n, cfg.k, wave, r, src)
    ensures 0 < src && Parent(src, cfg.k) == r && wave.rise[src] != [] && wave.fall[r] == []
  {
    ReachableBase(cfg, w);
    V.ProbeFindsOnlyChildren(cfg.n, cfg.k, wave, r, src);
  }

  // ---------------------------------------------------------------- clean-up

  /** No work request, work reply, token or reduce message is in flight, and none is being held. */
  predicate DrainedAt(cfg: Config, w: World, r: nat)
    requires r < |w.work.requests| == |w.work.gathered| == |w.work.replies|
    requires r < |w.ring.wire| && r < |w.red.start| && r < |w.red.up|
  {
    && w.work.requests[r] == multiset{} && w.work.gathered[r] == [] && w.work.replies[r] == []
    && w.ring.wire[r] == [] && w.red.start[r] == 0 && w.red.up[r] == []
  }

  /** No work receipt or termination message either. */
  predicate SettledWiresAt(cfg: Config, w: World, r: nat)
    requires r < |w.work.receipts| && r < |w.term.rise| && r < |w.term.fall|
  {
    w.work.receipts[r] == 0 && w.term.rise[r] == [] && w.term.fall[r] == []
  }

  /** A rank leaves the barrier only after the root has. */
  lemma RootLeavesFirst(cfg: Config, w: World, r: nat)
    requires BaseInv(cfg, w) && r < cfg.n && w.phase[r] == Left
    ensures w.phase[0] == Left
  {
    assert GateAt(cfg, w, r) && GateAt(cfg, w, 0) && V.RoundOk(w.bar, r);
  }

  lemma PassedMeansDrained(cfg: Config, w: World, r: nat)
    requires Layers(cfg, w) && r < cfg.n && forall q: nat | q < cfg.n :: PassedAt(cfg, w, q)
    ensures DrainedAt(cfg, w, r)
  {
    forall q: nat ensures W.Requests(cfg.n, w.work, r, q) == 0 {
      if q < cfg.n { assert PassedAt(cfg, w, q); }
    }
    assert forall q: nat :: w.work.requests[r][q] == 0 && multiset(w.work.gathered[r])[q] == 0 by {
      forall q: nat ensures w.work.requests[r][q] == 0 && multiset(w.work.gathered[r])[q] == 0 {
        assert W.Requests(cfg.n, w.work, r, q) == 0;
      }
    }
    EmptyBag(w.work.gathered[r]);
    assert PassedAt(cfg, w, r) && W.PairedAt(cfg.n, w.work, r);
    var t, flying :| R.RingInvAt(cfg.n, w.ring, t, flying);
    assert PassedAt(cfg, w, R.TokenSrc(t, cfg.n));
    if r > 0 {
      assert D.EdgeOk(w.red, r, Parent(r, cfg.k)) && PassedAt(cfg, w, Parent(r, cfg.k));
    }
  }

  lemma Occurs(s: seq<nat>)
    requires s != []
    ensures multiset(s)[s[0]] > 0
  {
    assert s[0] in multiset(s);
  }

  lemma EmptyBag(s: seq<nat>)
    requires forall q: nat :: multiset(s)[q] == 0
    ensures s == []
  {
    if s != [] { Occurs(s); }
  }

  /**
   * Once the barrier has completed at any rank, no request, reply, token or reduce message is left
   * for the next execution.  This holds in every configuration, whether or not the work was finished.
   */
  lemma BarrierMeansDrained(cfg: Config, w: World, r: nat)
    requires Reachable(cfg, w) && r < cfg.n && w.phase[r] == Left
    ensures forall q: nat | q < cfg.n :: w.phase[q] != Working && DrainedAt(cfg, w, q)
  {
    ReachableBase(cfg, w);
    RootLeavesFirst(cfg, w, r);
    forall q: nat | q < cfg.n ensures w.phase[q] != Working && DrainedAt(cfg, w, q) {
      assert PassedAt(cfg, w, q);
      PassedMeansDrained(cfg, w, q);
    }
  }

  /** In tree mode a rank that has left the work loop has no transfer outstanding and no wave under way. */
  predicate RestsAt(cfg: Config, w: World, r: nat)
    requires Shaped(cfg, w) && r < cfg.n
  {
    w.phase[r] != Working ==> w.work.outstanding[r] == 0 && !w.term.up[r]
  }

  lemma WorkKeepsRest(cfg: Config, w: World, a: W.WorkStep, r: nat)
    requires Shaped(cfg, w) && WorkGuard(w, a) && W.Enabled(cfg.n, w.work, a) && r < cfg.n && RestsAt(cfg, w, r)
    ensures Shaped(cfg, ApplyWork(cfg, w, a)) && RestsAt(cfg, ApplyWork(cfg, w, a), r)
  {
  }

  lemma TermKeepsRest(cfg: Config, w: World, a: TermStep, r: nat)
    requires Shaped(cfg, w) && V.WaveInv(cfg.n, cfg.k, w.term) && TermEnabled(cfg, w, a) && r < cfg.n
    requires RestsAt(cfg, w, r)
    ensures Shaped(cfg, ApplyTerm(cfg, w, a)) && RestsAt(cfg, ApplyTerm(cfg, w, a), r)
  {
  }

  lemma BarKeepsRest(cfg: Config, w: World, a: BarStep, r: nat)
    requires Shaped(cfg, w) && BarEnabled(cfg, w, a) && r < cfg.n && RestsAt(cfg, w, r)
    ensures Shaped(cfg, ApplyBar(cfg, w, a)) && RestsAt(cfg, ApplyBar(cfg, w, a), r)
  {
  }

  lemma RedKeepsRest(cfg: Config, w: World, a: RedStep, r: nat)
    requires Shaped(cfg, w) && RedEnabled(cfg, w, a) && r < cfg.n && RestsAt(cfg, w, r)
    ensures Shaped(cfg, ApplyRed(cfg, w, a)) && RestsAt(cfg, ApplyRed(cfg, w, a), r)
  {
  }

  lemma StepKeepsRest(cfg: Config, w: World, a: Action, r: nat)
    requires Layers(cfg, w) && cfg.tree && Enabled(cfg, w, a) && r < cfg.n && RestsAt(cfg, w, r)
    ensures Shaped(cfg, Apply(cfg, w, a)) && RestsAt(cfg, Apply(cfg, w, a), r)
  {
    match a
    case Work(step) => WorkKeepsRest(cfg, w, step, r);
    case Term(step) => TermKeepsRest(cfg, w, step, r);
    case Bar(step) => BarKeepsRest(cfg, w, step, r);
    case Red(step) => RedKeepsRest(cfg, w, step, r);
    case Token(_) =>
  }

  lemma {:induction false} RunKeepsRest(cfg: Config, w: World, acts: seq<Action>, w': World, r: nat)
    requires BaseInv(cfg, w) && cfg.tree && r < cfg.n && RestsAt(cfg, w, r) && Runs(cfg, w, acts, w')
    ensures BaseInv(cfg, w') && RestsAt(cfg, w', r)
    decreases |acts|
  {
    if acts != [] {
      StepKeepsBase(cfg, w, acts[0]);
      StepKeepsRest(cfg, w, acts[0], r);
      RunKeepsRest(cfg, Apply(cfg, w, acts[0]), acts[1..], w', r);
    }
  }

  lemma ReachableRest(cfg: Config, w: World, r: nat)
    requires Reachable(cfg, w) && cfg.tree && r < cfg.n
    ensures RestsAt(cfg, w, r)
  {
    var w0, acts :| Init(cfg, w0) && Runs(cfg, w0, acts, w);
    InitBase(cfg, w0);
    RunKeepsRest(cfg, w0, acts, w, r);
  }

  /**
   * In tree mode receipts and termination messages are gone as well once the barrier has completed
   * at any rank, with the flag shadowed or not, and whether or not the work was finished.
   */
  lemma TreeBarrierMeansSettled(cfg: Config, w: World, r: nat)
    requires Reachable(cfg, w) && r < cfg.n && w.phase[r] == Left && cfg.tree
    ensures forall q: nat | q < cfg.n :: SettledWiresAt(cfg, w, q)
  {
    ReachableBase(cfg, w);
    BarrierMeansDrained(cfg, w, r);
    forall q: nat | q < cfg.n ensures SettledWiresAt(cfg, w, q) {
      ReachableRest(cfg, w, q);
      assert w.phase[q] != Working && w.work.outstanding[q] == w.work.receipts[q] + |W.Carriers(w.work, q)|;
      if q > 0 {
        ReachableRest(cfg, w, Parent(q, cfg.k));
        assert V.EdgeOk(w.term, q, Parent(q, cfg.k));
      }
    }
  }

  /** While messages are drained, no reply carries work: clean-up never receives any. */
  lemma CleanUpReceivesNoWork(cfg: Config, w: World, r: nat, j: nat)
    requires Sound(cfg) && Reachable(cfg, w) && Enabled(cfg, w, Action.Work(W.Accept(r, j))) && w.phase[r] == CleanUp
    ensures w.work.replies[r][j].items == []
  {
    TerminationIsComplete(cfg, w);
    assert Idle(w.work, r);
  }

  // ---------------------------------------------------------------- requests and replies

  /**
   * Receiving work never overwrites queued work, in the work loop or in clean-up, and the reply
   * is the only message waiting.
   */
  lemma AcceptNeverOverwrites(cfg: Config, w: World, r: nat, j: nat)
    requires Reachable(cfg, w) && Enabled(cfg, w, Action.Work(W.Accept(r, j)))
    ensures w.work.queue[r] == [] && j == 0 && |w.work.replies[r]| == 1
  {
    ReachableBase(cfg, w);
    assert W.PairedAt(cfg.n, w.work, r);
  }

  /** The requestors a rank has collected are distinct other ranks, so they fit its array. */
  lemma RequestorsFit(cfg: Config, w: World, s: nat)
    requires Reachable(cfg, w) && s < cfg.n
    ensures var g := w.work.gathered[s];
      && (forall i | 0 <= i < |g| :: g[i] < cfg.n && g[i] != s)
      && (forall i, j | 0 <= i < j < |g| :: g[i] != g[j])
      && |g| + |w.work.requests[s]| < cfg.n
  {
    ReachableBase(cfg, w);
    RequestorsAreDistinct(cfg.n, w.work, s);
    RequestorsAreFew(cfg.n, w.work, s);
  }

  lemma RequestorIsPeer(n: nat, w: W.Work, s: nat, r: nat)
    requires W.Shaped(n, w) && W.Paired(n, w) && s < n
    ensures W.Requests(n, w, s, r) <= 1 && (W.Requests(n, w, s, r) == 1 ==> r < n && r != s)
  {
    if r < n { assert W.PairedAt(n, w, r); }
  }

  lemma RequestorsAreDistinct(n: nat, w: W.Work, s: nat)
    requires W.Shaped(n, w) && W.Paired(n, w) && s < n
    ensures var g := w.gathered[s];
      && (forall i | 0 <= i < |g| :: g[i] < n && g[i] != s)
      && (forall i, j | 0 <= i < j < |g| :: g[i] != g[j])
  {
    var g := w.gathered[s];
    forall i | 0 <= i < |g| ensures g[i] < n && g[i] != s {
      assert g[i] in multiset(g);
      RequestorIsPeer(n, w, s, g[i]);
    }
    forall i, j | 0 <= i < j < |g| ensures g[i] != g[j] {
      RepeatCounts(g, i, j);
      RequestorIsPeer(n, w, s, g[i]);
    }
  }

  lemma RequestorsAreFew(n: nat, w: W.Work, s: nat)
    requires W.Shaped(n, w) && W.Paired(n, w) && s < n
    ensures |w.gathered[s]| + |w.requests[s]| < n
  {
    var all := multiset(w.gathered[s]) + w.requests[s];
    var others := Below(n) - {s};
    forall r: nat ensures all[r] <= 1 && (r in all ==> r in others) {
      RequestorIsPeer(n, w, s, r);
    }
    assert |others| == n - 1;
    SimpleBagSize(all, others);
  }

  lemma RepeatCounts(g: seq<nat>, i: nat, j: nat)
    requires i < j < |g|
    ensures g[i] == g[j] ==> multiset(g)[g[i]] >= 2
  {
    assert g == g[..i] + [g[i]] + g[i + 1..j] + [g[j]] + g[j + 1..];
  }

  lemma {:induction false} SimpleBagSize(m: multiset<nat>, s: set<nat>)
    requires forall r: nat :: m[r] <= 1 && (r in m ==> r in s)
    ensures |m| <= |s|
    decreases |s|
  {
    if s == {} {
      assert m == multiset{};
    } else {
      var r :| r in s;
      SimpleBagSize(m[r := 0], s - {r});
    }
  }

  ghost predicate SoleToken(n: nat, x: R.Ring, t: nat, flying: bool)
    requires R.Shaped(n, x)
  {
    && R.TokenAt(n, x, t, flying)
    && forall t', flying' :: R.TokenAt(n, x, t', flying') ==> t' == t && flying' == flying
  }

  /** One token, held or on the wire; it is never overwritten while a send is pending. */
  lemma ExactlyOneToken(cfg: Config, w: World)
    requires Reachable(cfg, w)
    ensures exists t, flying :: SoleToken(cfg.n, w.ring, t, flying)
    ensures forall r: nat | r < cfg.n && w.ring.local[r] :: !w.ring.pending[r]
    ensures forall r: nat | R.CanReceive(cfg.n, w.ring, r) ::
      w.ring.wire[R.TokenDest(r, cfg.n)] == if R.TokenDest(r, cfg.n) == r then w.ring.wire[r] else []
  {
    ReachableBase(cfg, w);
    var t, flying :| R.RingInvAt(cfg.n, w.ring, t, flying);
    forall t', flying' | R.TokenAt(cfg.n, w.ring, t', flying') ensures t' == t && flying' == flying {
      R.SingleToken(cfg.n, w.ring, t, flying, t', flying');
    }
    assert SoleToken(cfg.n, w.ring, t, flying);
  }
}
