/** Termination by the tree allreduce is safe on a fully asynchronous network. */
module TreeSafety {
  import opened Common
  import opened KaryTree
  import opened System
  import opened Invariants
  import W = WorkProtocol
  import V = TreeWave
  import D = BackgroundReduce

  /** `r` holds no work and none is travelling to it. */
  predicate Idle(work: W.Work, r: nat)
    requires r < |work.queue| == |work.replies|
  {
    work.queue[r] == [] && !W.HasWork(work.replies[r])
  }

  /** All the work there was has been processed, at every rank and on the network. */
  ghost predicate Quiet(cfg: Config, w: World)
    requires Shaped(cfg, w)
  {
    forall r: nat | r < cfg.n :: Idle(w.work, r)
  }

  /** `r` has sent its flag for the wave the root is collecting. */
  predicate Counted(x: V.Wave, r: nat)
    requires r < |x.up| == |x.round|
  {
    x.up[r] && x.round[r] == x.round[0]
  }

  /** `r` is going to spoil the current wave, or has already done so. */
  predicate AlarmAt(cfg: Config, w: World, r: nat)
    requires Shaped(cfg, w) && r < cfg.n
  {
    || (!Counted(w.term, r) && (!w.flag[r] || w.work.outstanding[r] > 0))
    || (w.term.rise[r] != [] && !w.term.rise[r][0])
  }

  ghost predicate Alarm(cfg: Config, w: World)
    requires Shaped(cfg, w)
  {
    exists r: nat :: r < cfg.n && AlarmAt(cfg, w, r)
  }

  predicate SettledAt(cfg: Config, w: World, r: nat)
    requires Shaped(cfg, w) && r < cfg.n
  {
    Counted(w.term, r) ==> Idle(w.work, r) && w.work.outstanding[r] == 0
  }

  ghost predicate Settled(cfg: Config, w: World)
    requires Shaped(cfg, w)
  {
    forall r: nat | r < cfg.n :: SettledAt(cfg, w, r)
  }

  predicate LiveAt(cfg: Config, w: World, r: nat)
    requires Shaped(cfg, w) && r < cfg.n
  {
    w.phase[r] == Working && (w.term.fall[r] != [] ==> !w.term.fall[r][0])
  }

  /** Before the decision: an alarm is pending, or every rank already counted is done for good. */
  ghost predicate TreeLive(cfg: Config, w: World)
    requires Shaped(cfg, w)
  {
    && (forall r: nat | r < cfg.n :: LiveAt(cfg, w, r))
    && (Alarm(cfg, w) || Settled(cfg, w))
  }

  predicate OverAt(cfg: Config, w: World, r: nat)
    requires Shaped(cfg, w) && r < cfg.n
  {
    && Idle(w.work, r) && w.work.outstanding[r] == 0 && w.work.receipts[r] == 0
    && w.term.rise[r] == []
    && (w.phase[r] == Working <==> w.term.up[r])
    && (w.phase[r] == Working && w.term.fall[r] != [] ==> w.term.fall[r][0])
  }

  /** After the decision: nothing is left to do but pass the result down. */
  ghost predicate TreeOver(cfg: Config, w: World)
    requires Shaped(cfg, w)
  {
    forall r: nat | r < cfg.n :: OverAt(cfg, w, r)
  }

  ghost predicate TreeSafe(cfg: Config, w: World)
    requires Shaped(cfg, w)
  {
    if w.phase[0] == Working then TreeLive(cfg, w) else TreeOver(cfg, w)
  }

  predicate SoundTree(cfg: Config) {
    cfg.tree && (cfg.asWritten ==> cfg.n == 1)
  }

  // ---------------------------------------------------------------- work layer facts

  /** Work in flight means that some sender still has it outstanding. */
  lemma WorkMeansOutstanding(n: nat, w: W.Work, r: nat) returns (s: nat)
    requires W.Shaped(n, w) && W.Paired(n, w) && W.Balanced(n, w) && r < n && W.HasWork(w.replies[r])
    ensures s < n && w.outstanding[s] > 0
  {
    assert W.PairedAt(n, w, r);
    s := w.asked[r].value;
    assert r in W.Carriers(w, s);
  }

  lemma NothingInFlight(n: nat, w: W.Work, r: nat)
    requires W.Shaped(n, w) && W.Paired(n, w) && W.Balanced(n, w) && r < n
    requires forall s: nat | s < n :: w.outstanding[s] == 0
    ensures !W.HasWork(w.replies[r]) && w.receipts[r] == 0
  {
    if W.HasWork(w.replies[r]) { var s := WorkMeansOutstanding(n, w, r); }
  }

  /** A reply box that carries nothing still carries nothing when something is taken out. */
  lemma FewerReplies(box: seq<W.Reply>, j: nat)
    requires j < |box| && !W.HasWork(box)
    ensures box[j].items == [] && !W.HasWork(box[..j] + box[j + 1..])
  {
    var rest := box[..j] + box[j + 1..];
    if i :| 0 <= i < |rest| && rest[i].items != [] {
      NothingCarried(box, if i < j then i else i + 1);
    }
  }

  lemma NothingCarried(box: seq<W.Reply>, i: nat)
    requires i < |box| && !W.HasWork(box)
    ensures box[i].items == []
  {
  }

  lemma ServeIdle(n: nat, w: W.Work, s: nat, share: nat, r: nat)
    requires W.Shaped(n, w) && W.Paired(n, w) && W.Enabled(n, w, W.Serve(s, share)) && r < n
    requires Idle(w, r)
    ensures Idle(W.Apply(n, w, W.Serve(s, share)), r) || (share > 0 && w.gathered[s][0] == r)
  {
    var w' := W.Apply(n, w, W.Serve(s, share));
    W.ServeMoves(n, w, s, share);
    if share == 0 {
      assert w.queue[s] == W.Kept(w.queue[s], 0) && W.Sent(w.queue[s], 0) == [];
      if r == w.gathered[s][0] { EmptyReply(s); }
    }
  }

  lemma EmptyReply(src: nat)
    ensures !W.HasWork([W.Reply(src, [])])
  {
  }

  lemma AcceptIdle(n: nat, w: W.Work, t: nat, j: nat, r: nat)
    requires W.Shaped(n, w) && W.Paired(n, w) && W.Enabled(n, w, W.Accept(t, j)) && r < n
    requires Idle(w, r)
    ensures Idle(W.Apply(n, w, W.Accept(t, j)), r)
  {
    if r == t { FewerReplies(w.replies[t], j); }
  }

  /** Only a transfer wakes an idle rank up. */
  lemma WorkStepIdle(n: nat, w: W.Work, a: W.WorkStep, r: nat)
    requires W.Shaped(n, w) && W.Paired(n, w) && W.Enabled(n, w, a) && r < n
    ensures Idle(w, r) && !Idle(W.Apply(n, w, a), r) ==> a.Serve? && a.share > 0 && w.gathered[a.s][0] == r
  {
    if Idle(w, r) {
      match a
      case Serve(s, share) => ServeIdle(n, w, s, share, r);
      case Accept(t, j) => AcceptIdle(n, w, t, j, r);
      case _ =>
    }
  }

  /** An idle rank neither sends work nor processes any. */
  lemma IdleDoesNothing(n: nat, w: W.Work, a: W.WorkStep)
    requires W.Shaped(n, w) && W.Enabled(n, w, a)
    ensures a.Serve? && a.share > 0 ==> !Idle(w, a.s)
    ensures a.Process? ==> !Idle(w, a.r)
  {
  }

  lemma OutstandingMoves(n: nat, w: W.Work, a: W.WorkStep, r: nat)
    requires W.Shaped(n, w) && W.Enabled(n, w, a) && r < n
    ensures W.Apply(n, w, a).outstanding[r] == w.outstanding[r]
         + (if a.Serve? && a.s == r && a.share > 0 then 1 else 0) - (if a.Acknowledge? && a.s == r then 1 else 0)
  {
  }

  lemma WorkStepEffect(n: nat, w: W.Work, a: W.WorkStep, r: nat)
    requires W.Shaped(n, w) && W.Paired(n, w) && W.Enabled(n, w, a) && r < n
    ensures var w' := W.Apply(n, w, a);
      && (Idle(w, r) && !Idle(w', r) ==> a.Serve? && a.share > 0 && w.gathered[a.s][0] == r)
      && (a.Serve? && a.share > 0 ==> !Idle(w, a.s))
      && (a.Process? ==> !Idle(w, a.r))
      && w'.outstanding[r] == w.outstanding[r]
           + (if a.Serve? && a.s == r && a.share > 0 then 1 else 0) - (if a.Acknowledge? && a.s == r then 1 else 0)
  {
    WorkStepIdle(n, w, a, r);
    IdleDoesNothing(n, w, a);
    OutstandingMoves(n, w, a, r);
  }

  // ---------------------------------------------------------------- before the decision

  lemma WorkKeepsLiveAt(cfg: Config, w: World, a: W.WorkStep)
    requires Shaped(cfg, w) && W.Enabled(cfg.n, w.work, a)
    ensures var w' := ApplyWork(cfg, w, a);
      && Shaped(cfg, w') && w'.phase == w.phase && w'.term == w.term
      && forall q: nat | q < cfg.n && w'.flag[q] :: w.flag[q]
  {
  }

  lemma WorkKeepsAlarm(cfg: Config, w: World, a: W.WorkStep, r: nat)
    requires Shaped(cfg, w) && W.Paired(cfg.n, w.work) && W.Enabled(cfg.n, w.work, a) && r < cfg.n && AlarmAt(cfg, w, r)
    ensures Shaped(cfg, ApplyWork(cfg, w, a)) && AlarmAt(cfg, ApplyWork(cfg, w, a), r)
  {
    WorkStepEffect(cfg.n, w.work, a, r);
  }

  /** Sending work or taking a receipt raises an alarm at the rank that does so. */
  lemma TransferRaisesAlarm(cfg: Config, w: World, a: W.WorkStep)
    requires Shaped(cfg, w) && W.Paired(cfg.n, w.work) && W.Enabled(cfg.n, w.work, a) && Settled(cfg, w)
    requires (a.Serve? && a.share > 0) || a.Acknowledge?
    ensures Shaped(cfg, ApplyWork(cfg, w, a)) && a.s < cfg.n && AlarmAt(cfg, ApplyWork(cfg, w, a), a.s)
  {
    WorkStepEffect(cfg.n, w.work, a, a.s);
    assert SettledAt(cfg, w, a.s);
  }

  lemma WorkKeepsSettled(cfg: Config, w: World, a: W.WorkStep, r: nat)
    requires Shaped(cfg, w) && W.Paired(cfg.n, w.work) && W.Enabled(cfg.n, w.work, a)
    requires r < cfg.n && SettledAt(cfg, w, r)
    requires !(a.Serve? && a.share > 0) && !a.Acknowledge?
    ensures Shaped(cfg, ApplyWork(cfg, w, a)) && SettledAt(cfg, ApplyWork(cfg, w, a), r)
  {
    WorkStepEffect(cfg.n, w.work, a, r);
  }

  lemma LiveWork(cfg: Config, w: World, a: W.WorkStep)
    requires Layers(cfg, w) && TreeLive(cfg, w) && Enabled(cfg, w, Work(a)) && cfg.tree
    ensures var w' := ApplyWork(cfg, w, a); Shaped(cfg, w') && TreeLive(cfg, w')
  {
    var w' := ApplyWork(cfg, w, a);
    WorkKeepsLiveAt(cfg, w, a);
    forall r: nat | r < cfg.n ensures LiveAt(cfg, w', r) { assert LiveAt(cfg, w, r); }
    if Alarm(cfg, w) {
      var r: nat :| r < cfg.n && AlarmAt(cfg, w, r);
      WorkKeepsAlarm(cfg, w, a, r);
    } else if (a.Serve? && a.share > 0) || a.Acknowledge? {
      TransferRaisesAlarm(cfg, w, a);
    } else {
      forall r: nat | r < cfg.n ensures SettledAt(cfg, w', r) {
        assert SettledAt(cfg, w, r);
        WorkKeepsSettled(cfg, w, a, r);
      }
    }
  }

  lemma LiveAbsorb(cfg: Config, w: World, r: nat, src: nat)
    requires Layers(cfg, w) && TreeLive(cfg, w) && Shaped(cfg, w) && TermEnabled(cfg, w, TermAbsorb(r, src))
    ensures var w' := ApplyTerm(cfg, w, TermAbsorb(r, src)); Shaped(cfg, w') && TreeLive(cfg, w')
  {
    var w' := ApplyTerm(cfg, w, TermAbsorb(r, src));
    V.ProbeFindsOnlyChildren(cfg.n, cfg.k, w.term, r, src);
    forall q: nat | q < cfg.n ensures LiveAt(cfg, w', q) { assert LiveAt(cfg, w, q); }
    if Alarm(cfg, w) {
      var q: nat :| q < cfg.n && AlarmAt(cfg, w, q);
      assert AlarmAt(cfg, w', q) || AlarmAt(cfg, w', r);
    } else {
      forall q: nat | q < cfg.n ensures SettledAt(cfg, w', q) { assert SettledAt(cfg, w, q); }
    }
  }

  lemma LiveRaise(cfg: Config, w: World, r: nat)
    requires Layers(cfg, w) && TreeLive(cfg, w) && SoundTree(cfg) && TermEnabled(cfg, w, TermRaise(r))
    ensures var w' := ApplyTerm(cfg, w, TermRaise(r)); Shaped(cfg, w') && TreeLive(cfg, w')
  {
    var w' := ApplyTerm(cfg, w, TermRaise(r));
    assert V.EdgeOk(w.term, r, Parent(r, cfg.k));
    forall q: nat | q < cfg.n ensures LiveAt(cfg, w', q) { assert LiveAt(cfg, w, q); }
    if Alarm(cfg, w) {
      var q: nat :| q < cfg.n && AlarmAt(cfg, w, q);
      assert AlarmAt(cfg, w', q);
    } else {
      forall s: nat | s < cfg.n ensures w.work.outstanding[s] == 0 {
        assert SettledAt(cfg, w, s) && !AlarmAt(cfg, w, s);
      }
      NothingInFlight(cfg.n, w.work, r);
      forall q: nat | q < cfg.n ensures SettledAt(cfg, w', q) { assert SettledAt(cfg, w, q); }
    }
  }

  lemma LiveLower(cfg: Config, w: World, r: nat)
    requires Layers(cfg, w) && TreeLive(cfg, w) && TermEnabled(cfg, w, TermLower(r))
    ensures var w' := ApplyTerm(cfg, w, TermLower(r)); Shaped(cfg, w') && TreeLive(cfg, w') && w'.phase[0] == Working
  {
    var w' := ApplyTerm(cfg, w, TermLower(r));
    var p := Parent(r, cfg.k);
    assert V.EdgeOk(w.term, r, p) && V.RoundOk(w.term, p) && V.RoundOk(w.term, r);
    assert LiveAt(cfg, w, r) && LiveAt(cfg, w, 0);
    forall q: nat | q < cfg.n ensures LiveAt(cfg, w', q) { assert LiveAt(cfg, w, q); }
    if Alarm(cfg, w) {
      var q: nat :| q < cfg.n && AlarmAt(cfg, w, q);
      assert AlarmAt(cfg, w', q);
    } else {
      forall q: nat | q < cfg.n ensures SettledAt(cfg, w', q) { assert SettledAt(cfg, w, q); }
    }
  }

  /** At a positive decision nothing is left anywhere: the heart of the matter. */
  lemma DecisionIsRight(cfg: Config, w: World)
    requires Layers(cfg, w) && TreeLive(cfg, w) && SoundTree(cfg) && TermEnabled(cfg, w, TermFinish)
    requires RootFlag(cfg.asWritten, w.flag[0])
    ensures forall r: nat | r < cfg.n :: Idle(w.work, r) && w.work.outstanding[r] == 0 && w.work.receipts[r] == 0
  {
    V.RootSeesEveryone(cfg.n, cfg.k, w.term);
    forall r: nat | r < cfg.n && !cfg.asWritten ensures !AlarmAt(cfg, w, r) {
      if r > 0 { assert V.Arrived(w.term, r); }
    }
    forall r: nat | r < cfg.n ensures w.work.outstanding[r] == 0 && w.work.queue[r] == [] {
      if r > 0 { assert V.Arrived(w.term, r) && SettledAt(cfg, w, r); }
    }
    forall r: nat | r < cfg.n ensures Idle(w.work, r) && w.work.receipts[r] == 0 {
      NothingInFlight(cfg.n, w.work, r);
    }
  }

  lemma LiveFinish(cfg: Config, w: World)
    requires Layers(cfg, w) && TreeLive(cfg, w) && SoundTree(cfg) && TermEnabled(cfg, w, TermFinish)
    ensures var w' := ApplyTerm(cfg, w, TermFinish); Shaped(cfg, w') && TreeSafe(cfg, w')
  {
    var w' := ApplyTerm(cfg, w, TermFinish);
    V.RootSeesEveryone(cfg.n, cfg.k, w.term);
    if RootFlag(cfg.asWritten, w.flag[0]) {
      DecisionIsRight(cfg, w);
      forall q: nat | q < cfg.n ensures OverAt(cfg, w', q) {
        assert LiveAt(cfg, w, q);
        if q > 0 { assert V.Arrived(w.term, q); }
      }
    } else {
      forall q: nat | q < cfg.n ensures LiveAt(cfg, w', q) && SettledAt(cfg, w', q) {
        assert LiveAt(cfg, w, q);
        if q > 0 { assert V.Arrived(w.term, q); }
      }
    }
  }

  // ---------------------------------------------------------------- after the decision

  lemma OverWorkAt(cfg: Config, w: World, a: W.WorkStep, q: nat)
    requires Shaped(cfg, w) && W.Paired(cfg.n, w.work) && TreeOver(cfg, w) && q < cfg.n
    requires WorkGuard(w, a) && W.Enabled(cfg.n, w.work, a)
    ensures var w' := ApplyWork(cfg, w, a); Shaped(cfg, w') && OverAt(cfg, w', q)
  {
    assert OverAt(cfg, w, q);
    WorkStepEffect(cfg.n, w.work, a, q);
    match a
    case Serve(s, _) => assert OverAt(cfg, w, s);
    case Accept(r, j) => assert OverAt(cfg, w, r) && !W.HasWork(w.work.replies[r]) && w.work.replies[r][j].items == [];
    case Acknowledge(s) => OverBlocks(cfg, w, s);
    case _ =>
  }

  lemma OverWork(cfg: Config, w: World, a: W.WorkStep)
    requires Layers(cfg, w) && TreeOver(cfg, w) && Enabled(cfg, w, Work(a))
    ensures var w' := ApplyWork(cfg, w, a); Shaped(cfg, w') && TreeOver(cfg, w')
  {
    OverWorkAt(cfg, w, a, 0);
    forall q: nat | q < cfg.n ensures OverAt(cfg, ApplyWork(cfg, w, a), q) { OverWorkAt(cfg, w, a, q); }
  }

  lemma OverBlocks(cfg: Config, w: World, r: nat)
    requires Shaped(cfg, w) && TreeOver(cfg, w) && r < cfg.n
    ensures w.phase[r] == Working ==> w.term.up[r]
    ensures w.work.outstanding[r] == 0
  {
    assert OverAt(cfg, w, r);
  }

  lemma OverTerm(cfg: Config, w: World, a: TermStep)
    requires Layers(cfg, w) && TreeOver(cfg, w) && w.phase[0] != Working && TermEnabled(cfg, w, a)
    ensures var w' := ApplyTerm(cfg, w, a); Shaped(cfg, w') && TreeOver(cfg, w') && w'.phase[0] != Working
  {
    match a
    case TermAbsorb(r, src) =>
      V.ProbeFindsOnlyChildren(cfg.n, cfg.k, w.term, r, src);
      OverBlocks(cfg, w, r);
    case TermRaise(r) => OverBlocks(cfg, w, r);
    case TermLower(r) =>
      var w' := ApplyTerm(cfg, w, a);
      assert OverAt(cfg, w, r) && V.EdgeOk(w.term, r, Parent(r, cfg.k));
      V.UpMeansFull(cfg.n, cfg.k, w.term, r);
      V.FullCount(cfg.n, cfg.k, w.term, r);
      forall q: nat | q < cfg.n ensures OverAt(cfg, w', q) {
        assert OverAt(cfg, w, q);
      }
    case TermFinish =>
  }

  lemma StepKeepsTreeSafe(cfg: Config, w: World, a: Action)
    requires Layers(cfg, w) && SoundTree(cfg) && TreeSafe(cfg, w) && Enabled(cfg, w, a)
    ensures Shaped(cfg, Apply(cfg, w, a)) && TreeSafe(cfg, Apply(cfg, w, a))
  {
    match a
    case Work(step) =>
      if w.phase[0] == Working { LiveWork(cfg, w, step); } else { OverWork(cfg, w, step); }
    case Term(step) =>
      if w.phase[0] == Working {
        match step
        case TermAbsorb(r, src) => LiveAbsorb(cfg, w, r, src);
        case TermRaise(r) => LiveRaise(cfg, w, r);
        case TermLower(r) => LiveLower(cfg, w, r);
        case TermFinish => LiveFinish(cfg, w);
      } else { OverTerm(cfg, w, step); }
    case Bar(step) => BarKeepsTreeSafe(cfg, w, step);
    case Red(step) => RedKeepsTreeSafe(cfg, w, step);
    case _ =>
  }

  lemma AllWorking(cfg: Config, w: World, r: nat)
    requires Shaped(cfg, w) && TreeLive(cfg, w) && r < cfg.n
    ensures w.phase[r] == Working
  {
    assert LiveAt(cfg, w, r);
  }

  lemma BarKeepsTreeSafe(cfg: Config, w: World, a: BarStep)
    requires Shaped(cfg, w) && TreeSafe(cfg, w) && BarEnabled(cfg, w, a)
    ensures var w' := ApplyBar(cfg, w, a); Shaped(cfg, w') && TreeSafe(cfg, w')
  {
    var w' := ApplyBar(cfg, w, a);
    if w.phase[0] == Working {
      AllWorking(cfg, w, if a.BarFinish? then 0 else a.r);
    } else {
      forall q: nat | q < cfg.n ensures OverAt(cfg, w', q) { assert OverAt(cfg, w, q); }
    }
  }

  lemma RedKeepsTreeSafe(cfg: Config, w: World, a: RedStep)
    requires Shaped(cfg, w) && TreeSafe(cfg, w) && RedEnabled(cfg, w, a)
    ensures var w' := ApplyRed(cfg, w, a); Shaped(cfg, w') && TreeSafe(cfg, w')
  {
    var w' := ApplyRed(cfg, w, a);
    if w.phase[0] == Working {
      forall q: nat | q < cfg.n ensures LiveAt(cfg, w', q) { assert LiveAt(cfg, w, q); }
      if Alarm(cfg, w) {
        var q: nat :| q < cfg.n && AlarmAt(cfg, w, q);
        assert AlarmAt(cfg, w', q);
      } else {
        forall q: nat | q < cfg.n ensures SettledAt(cfg, w', q) { assert SettledAt(cfg, w, q); }
      }
    } else {
      forall q: nat | q < cfg.n ensures OverAt(cfg, w', q) { assert OverAt(cfg, w, q); }
    }
  }

  lemma InitTreeSafe(cfg: Config, w: World)
    requires Init(cfg, w)
    ensures TreeSafe(cfg, w)
  {
    forall r: nat | r < cfg.n ensures LiveAt(cfg, w, r) && SettledAt(cfg, w, r) {}
  }
}
