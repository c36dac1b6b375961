/** Clean-up never gets stuck: until every rank has left, some rank can take a step that changes something. */
module CleanUpProgress {
  import opened Common
  import opened KaryTree
  import opened System
  import opened Invariants
  import opened EndToEnd
  import W = WorkProtocol
  import V = TreeWave
  import R = TokenRing
  import D = BackgroundReduce
  import Folding

  ghost predicate Moves(cfg: Config, w: World, a: Action) {
    Enabled(cfg, w, a) && Apply(cfg, w, a) != w
  }

  /** Every rank has left the work loop. */
  ghost predicate AllStopped(cfg: Config, w: World) {
    BaseInv(cfg, w) && forall r: nat | r < cfg.n :: w.phase[r] != Working
  }

  lemma RootGoneMeansClear(cfg: Config, w: World, r: nat)
    requires BaseInv(cfg, w) && r < cfg.n && w.phase[0] == Left
    ensures Clear(cfg, w, r)
  {
    assert PassedAt(cfg, w, r);
  }

  /** While one rank still waits for something, no rank has left. */
  lemma WaitingKeepsEveryone(cfg: Config, w: World, r: nat, q: nat)
    requires AllStopped(cfg, w) && r < cfg.n && q < cfg.n && !Clear(cfg, w, r)
    ensures w.phase[q] == CleanUp
  {
    if w.phase[q] == Left {
      RootLeavesFirst(cfg, w, q);
      RootGoneMeansClear(cfg, w, r);
    }
  }

  /** A rank that waits for a work reply gets it: its request is collected and answered. */
  lemma RequestMoves(cfg: Config, w: World, r: nat) returns (a: Action)
    requires AllStopped(cfg, w) && r < cfg.n && w.work.asked[r].Some?
    ensures Moves(cfg, w, a)
  {
    var s := w.work.asked[r].value;
    assert W.PairedAt(cfg.n, w.work, r);
    WaitingKeepsEveryone(cfg, w, r, r);
    WaitingKeepsEveryone(cfg, w, r, s);
    if w.work.replies[r] != [] {
      a := Action.Work(W.Accept(r, 0));
      assert W.OldestFrom(w.work.replies[r], s, 0);
      AcceptChanges(cfg, w, r);
    } else {
      assert W.Requests(cfg.n, w.work, s, r) == 1;
      a := AnswerRequest(cfg, w, s, r);
    }
  }

  lemma AcceptChanges(cfg: Config, w: World, r: nat)
    requires Enabled(cfg, w, Action.Work(W.Accept(r, 0)))
    ensures Apply(cfg, w, Action.Work(W.Accept(r, 0))).work.asked[r] == None
  {
  }

  lemma CollectMoves(cfg: Config, w: World, s: nat, r: nat)
    requires Enabled(cfg, w, Action.Work(W.Collect(s, r)))
    ensures Moves(cfg, w, Action.Work(W.Collect(s, r)))
  {
    assert |ApplyWork(cfg, w, W.Collect(s, r)).work.gathered[s]| == |w.work.gathered[s]| + 1;
  }

  lemma ServeMoves(cfg: Config, w: World, s: nat)
    requires Enabled(cfg, w, Action.Work(W.Serve(s, 0)))
    ensures Moves(cfg, w, Action.Work(W.Serve(s, 0)))
  {
    assert |ApplyWork(cfg, w, W.Serve(s, 0)).work.gathered[s]| == |w.work.gathered[s]| - 1;
  }

  lemma AnswerRequest(cfg: Config, w: World, s: nat, r: nat) returns (a: Action)
    requires BaseInv(cfg, w) && s < cfg.n && r < cfg.n && w.phase[s] == CleanUp
    requires W.Requests(cfg.n, w.work, s, r) == 1
    ensures Moves(cfg, w, a)
  {
    if r in w.work.requests[s] {
      a := Action.Work(W.Collect(s, r));
      CollectMoves(cfg, w, s, r);
    } else {
      assert r in multiset(w.work.gathered[s]);
      W.ServedIsAwaiting(cfg.n, w.work, s);
      a := Action.Work(W.Serve(s, 0));
      ServeMoves(cfg, w, s);
    }
  }

  /** A child that has not answered yet. */
  lemma MissingAnswer(n: nat, k: nat, x: D.Reduction, p: nat) returns (c: nat)
    requires D.Framed(n, k, x) && p < n && x.out[p] && x.replies[p] != ChildCount(p, k, n)
    ensures 0 < c < n && Parent(c, k) == p && p < c && !D.Done(x, c) && D.EdgeOk(x, c, p)
  {
    var a, b := D.DoneSet(n, k, x, p), ChildSet(p, k, n);
    ChildSetSize(p, k, n);
    assert a <= b && a != b;
    c :| c in b && c !in a;
  }

  /** An outstanding reduction moves on: the deepest rank that still waits can act, or its child can. */
  lemma {:induction false} ReductionMoves(cfg: Config, w: World, r: nat) returns (a: Action)
    requires AllStopped(cfg, w) && r < cfg.n && w.red.out[r]
    ensures Moves(cfg, w, a)
    decreases cfg.n - r
  {
    WaitingKeepsEveryone(cfg, w, r, r);
    if w.red.replies[r] == ChildCount(r, cfg.k, cfg.n) {
      a := Action.Red(RedReply(r));
      assert !Apply(cfg, w, a).red.out[r];
    } else {
      var c := MissingAnswer(cfg.n, cfg.k, w.red, r);
      if w.red.out[c] {
        a := ReductionMoves(cfg, w, c);
      } else {
        WaitingKeepsEveryone(cfg, w, r, c);
        a := ChildAnswers(cfg, w, r, c);
      }
    }
  }

  lemma RefuseMoves(cfg: Config, w: World, c: nat)
    requires Enabled(cfg, w, Action.Red(RedRefuse(c)))
    ensures Moves(cfg, w, Action.Red(RedRefuse(c)))
  {
    assert ApplyRed(cfg, w, RedRefuse(c)).red.start[c] == w.red.start[c] - 1;
  }

  lemma GatherMoves(cfg: Config, w: World, r: nat, c: nat)
    requires Enabled(cfg, w, Action.Red(RedGather(r, c)))
    ensures Moves(cfg, w, Action.Red(RedGather(r, c)))
  {
    assert ApplyRed(cfg, w, RedGather(r, c)).red.replies[r] == w.red.replies[r] + 1;
  }

  lemma ChildAnswers(cfg: Config, w: World, r: nat, c: nat) returns (a: Action)
    requires Shaped(cfg, w) && 0 < cfg.k && 0 < c < cfg.n && Parent(c, cfg.k) == r && D.EdgeOk(w.red, c, r)
    requires w.red.out[r] && !w.red.out[c] && !D.Done(w.red, c) && w.phase[r] == w.phase[c] == CleanUp
    ensures Moves(cfg, w, a)
  {
    if w.red.start[c] > 0 {
      a := Action.Red(RedRefuse(c));
      RefuseMoves(cfg, w, c);
    } else {
      a := Action.Red(RedGather(r, c));
      GatherMoves(cfg, w, r, c);
    }
  }

  /** A pending token send completes, because no token is on the wire any more. */
  lemma TokenMoves(cfg: Config, w: World, r: nat) returns (a: Action)
    requires AllStopped(cfg, w) && r < cfg.n && w.ring.pending[r]
    ensures Moves(cfg, w, a)
  {
    WaitingKeepsEveryone(cfg, w, r, r);
    assert ModeAt(cfg, w, r);
    var d := R.TokenDest(r, cfg.n);
    if w.ring.wire[d] != [] { TokenMeetsWorker(cfg, w, d); }
    a := Action.Token(TokenTest(r));
    assert !Apply(cfg, w, a).ring.pending[r];
  }

  /** Nobody has left and everybody is in the barrier: it can always advance. */
  lemma BarrierMoves(cfg: Config, w: World) returns (a: Action)
    requires BaseInv(cfg, w) && forall r: nat | r < cfg.n :: InBarrier(w, r)
    ensures Moves(cfg, w, a)
  {
    V.NeverStuck(cfg.n, cfg.k, w.bar);
    var m :| V.CanMove(cfg.n, cfg.k, w.bar, m);
    var step := match m
      case Absorbing(r, src) => BarAbsorb(r, src)
      case Raising(r) => BarRaise(r)
      case Lowering(r) => BarLower(r)
      case Finishing => BarFinish;
    assert InBarrier(w, 0) && (m.Finishing? || InBarrier(w, m.r));
    a := Action.Bar(step);
    BarStepChanges(cfg, w, step);
  }

  lemma BarStepChanges(cfg: Config, w: World, a: BarStep)
    requires Enabled(cfg, w, Action.Bar(a)) && !a.BarStart?
    ensures Apply(cfg, w, Action.Bar(a)) != w
  {
    match a
    case BarAbsorb(r, src) => assert ApplyBar(cfg, w, a).bar.replies[r] == w.bar.replies[r] + 1;
    case BarRaise(r) => assert ApplyBar(cfg, w, a).bar.up[r];
    case BarLower(r) => assert ApplyBar(cfg, w, a).phase[r] == Left;
    case BarFinish => assert ApplyBar(cfg, w, a).phase[0] == Left;
  }

  /** The root has left: the topmost rank that has not finds its parent's message waiting. */
  lemma {:induction false} ReleaseMoves(cfg: Config, w: World, r: nat) returns (a: Action)
    requires AllStopped(cfg, w) && r < cfg.n && w.phase[0] == Left && w.phase[r] == CleanUp
    ensures Moves(cfg, w, a)
    decreases r
  {
    var p := Parent(r, cfg.k);
    if w.phase[p] == CleanUp {
      a := ReleaseMoves(cfg, w, p);
    } else {
      assert GateAt(cfg, w, r) && GateAt(cfg, w, p) && V.EdgeOk(w.bar, r, p) && V.RoundOk(w.bar, r);
      assert GateAt(cfg, w, 0);
      a := Action.Bar(BarLower(r));
      BarStepChanges(cfg, w, BarLower(r));
    }
  }

  lemma StartMoves(cfg: Config, w: World, r: nat) returns (a: Action)
    requires BaseInv(cfg, w) && r < cfg.n && w.phase[r] == CleanUp && Clear(cfg, w, r) && !w.started[r]
    ensures Moves(cfg, w, a)
  {
    a := Action.Bar(BarStart(r));
    assert Apply(cfg, w, a).started[r];
  }

  /** While some rank has not left, some step is possible that changes the state. */
  lemma StoppedNeverStuck(cfg: Config, w: World, r: nat) returns (a: Action)
    requires AllStopped(cfg, w) && r < cfg.n && w.phase[r] == CleanUp
    ensures Moves(cfg, w, a)
  {
    if q: nat :| q < cfg.n && !Clear(cfg, w, q) {
      if w.work.asked[q].Some? {
        a := RequestMoves(cfg, w, q);
      } else if w.red.out[q] {
        a := ReductionMoves(cfg, w, q);
      } else {
        a := TokenMoves(cfg, w, q);
      }
    } else if w.phase[0] == Left {
      a := ReleaseMoves(cfg, w, r);
    } else if q: nat :| q < cfg.n && !w.started[q] {
      if w.phase[q] == Left { RootLeavesFirst(cfg, w, q); }
      a := StartMoves(cfg, w, q);
    } else {
      forall q: nat | q < cfg.n ensures InBarrier(w, q) {
        if w.phase[q] == Left { RootLeavesFirst(cfg, w, q); }
      }
      a := BarrierMoves(cfg, w);
    }
  }

  // ---------------------------------------------------------------- an end to it

  /** Steps still to be taken about the request of `r`: collecting, answering, receiving. */
  function RequestWeight(w: W.Work, r: nat): nat
    requires r < |w.asked| == |w.replies| == |w.requests|
  {
    match w.asked[r]
    case None => 0
    case Some(s) =>
      if w.replies[r] != [] then 1
      else if s < |w.requests| && r in w.requests[s] then 3
      else 2
  }

  /** Steps still to be taken about the part of `r` in a reduction. */
  function ReductionWeight(x: D.Reduction, r: nat): nat
    requires r < |x.out| == |x.start| == |x.up|
  {
    (if x.out[r] || x.start[r] > 0 then 2 else 0) + (if x.up[r] != [] then 1 else 0)
  }

  /** Steps still to be taken by `r` towards leaving the barrier. */
  function BarrierWeight(w: World, r: nat): nat
    requires r < |w.phase| == |w.started| == |w.bar.up| == |w.bar.rise|
  {
    if w.phase[r] == Left then 0
    else if w.bar.up[r] then (if w.bar.rise[r] != [] then 2 else 1)
    else if w.started[r] then 3
    else 4
  }

  function Weight(cfg: Config, w: World, r: nat): nat
    requires Shaped(cfg, w) && r < cfg.n
  {
    RequestWeight(w.work, r) + ReductionWeight(w.red, r) + BarrierWeight(w, r) + (if w.ring.pending[r] then 1 else 0)
  }

  function Weights(cfg: Config, w: World): (s: seq<int>)
    requires Shaped(cfg, w)
    ensures |s| == cfg.n
  {
    seq(cfg.n, r requires 0 <= r < cfg.n => Weight(cfg, w, r))
  }

  const MOST_STEPS: nat := 10

  lemma WeightIsSmall(cfg: Config, w: World, r: nat)
    requires BaseInv(cfg, w) && r < cfg.n
    ensures Weight(cfg, w, r) <= MOST_STEPS
  {
    if r > 0 { assert D.EdgeOk(w.red, r, Parent(r, cfg.k)); }
  }

  /** The rank whose business the step advances. */
  function Mover(w: World, a: Action): nat {
    match a
    case Work(Collect(_, r)) => r
    case Work(Serve(s, _)) => if s < |w.work.gathered| && w.work.gathered[s] != [] then w.work.gathered[s][0] else 0
    case Work(Accept(r, _)) => r
    case Token(TokenTest(r)) => r
    case Bar(BarStart(r)) => r
    case Bar(BarAbsorb(_, src)) => src
    case Bar(BarRaise(r)) => r
    case Bar(BarLower(r)) => r
    case Red(RedRefuse(r)) => r
    case Red(RedGather(_, src)) => src
    case Red(RedReply(r)) => r
    case _ => 0
  }

  lemma CollectLowers(n: nat, w: W.Work, s: nat, r: nat, q: nat)
    requires W.Shaped(n, w) && W.Paired(n, w) && W.Enabled(n, w, W.Collect(s, r)) && q < n
    ensures RequestWeight(W.Apply(n, w, W.Collect(s, r)), q) <= RequestWeight(w, q) - if q == r then 1 else 0
  {
    assert W.Requests(n, w, s, r) == if W.Awaiting(n, w, r, s) then 1 else 0;
  }

  lemma ServeLowers(n: nat, w: W.Work, s: nat, q: nat)
    requires W.Shaped(n, w) && W.Paired(n, w) && W.Enabled(n, w, W.Serve(s, 0)) && q < n
    ensures RequestWeight(W.Apply(n, w, W.Serve(s, 0)), q)
         <= RequestWeight(w, q) - if q == w.gathered[s][0] then 1 else 0
  {
    W.ServedIsAwaiting(n, w, s);
    assert W.Requests(n, w, s, w.gathered[s][0]) == 1;
  }

  lemma AcceptLowers(n: nat, w: W.Work, r: nat, j: nat, q: nat)
    requires W.Shaped(n, w) && W.Paired(n, w) && W.Enabled(n, w, W.Accept(r, j)) && q < n
    ensures RequestWeight(W.Apply(n, w, W.Accept(r, j)), q) <= RequestWeight(w, q) - if q == r then 1 else 0
  {
    assert W.PairedAt(n, w, r);
  }

  lemma WorkLowersWeight(cfg: Config, w: World, a: W.WorkStep, q: nat)
    requires AllStopped(cfg, w) && WorkGuard(w, a) && W.Enabled(cfg.n, w.work, a) && q < cfg.n
    ensures Mover(w, Action.Work(a)) < cfg.n
    ensures RequestWeight(W.Apply(cfg.n, w.work, a), q)
         <= RequestWeight(w.work, q) - if q == Mover(w, Action.Work(a)) then 1 else 0
  {
    match a
    case Collect(s, r) => CollectLowers(cfg.n, w.work, s, r, q);
    case Serve(s, _) => ServeLowers(cfg.n, w.work, s, q);
    case Accept(r, j) => AcceptLowers(cfg.n, w.work, r, j, q);
  }

  lemma WorkStepLowers(cfg: Config, w: World, a: W.WorkStep, q: nat)
    requires Shaped(cfg, w) && WorkGuard(w, a) && W.Enabled(cfg.n, w.work, a) && q < cfg.n
    requires var m := Mover(w, Action.Work(a));
      RequestWeight(W.Apply(cfg.n, w.work, a), q) <= RequestWeight(w.work, q) - if q == m then 1 else 0
    ensures Shaped(cfg, ApplyWork(cfg, w, a))
    ensures Weight(cfg, ApplyWork(cfg, w, a), q) <= Weight(cfg, w, q) - if q == Mover(w, Action.Work(a)) then 1 else 0
  {
    WorkFrame(cfg, w, a, q);
  }

  /** What the step does to the barrier's own state, at the rank it advances and at any other. */
  lemma BarLowersWeight(cfg: Config, w: World, a: BarStep, q: nat)
    requires Shaped(cfg, w) && V.WaveInv(cfg.n, cfg.k, w.bar) && BarEnabled(cfg, w, a) && q < cfg.n
    requires ApplyBar(cfg, w, a) != w
    requires forall r: nat | r < cfg.n :: GateAt(cfg, w, r)
    ensures Mover(w, Action.Bar(a)) < cfg.n && Shaped(cfg, ApplyBar(cfg, w, a))
    ensures BarrierWeight(ApplyBar(cfg, w, a), q) <= BarrierWeight(w, q) - if q == Mover(w, Action.Bar(a)) then 1 else 0
  {
    match a
    case BarStart(r) =>
      assert GateAt(cfg, w, r);
      if w.started[r] { StartedAlready(cfg, w, r); }
    case BarAbsorb(r, src) =>
      V.ProbeFindsOnlyChildren(cfg.n, cfg.k, w.bar, r, src);
      assert GateAt(cfg, w, src);
    case BarRaise(r) => assert V.EdgeOk(w.bar, r, Parent(r, cfg.k));
    case BarLower(r) =>
    case BarFinish =>
  }

  lemma StartedAlready(cfg: Config, w: World, r: nat)
    requires Shaped(cfg, w) && BarEnabled(cfg, w, BarStart(r)) && w.started[r]
    ensures ApplyBar(cfg, w, BarStart(r)) == w
  {
    assert w.started[r := true] == w.started;
  }

  lemma BarStepLowers(cfg: Config, w: World, a: BarStep, q: nat)
    requires Shaped(cfg, w) && BarEnabled(cfg, w, a) && q < cfg.n && Shaped(cfg, ApplyBar(cfg, w, a))
    requires var m := Mover(w, Action.Bar(a));
      BarrierWeight(ApplyBar(cfg, w, a), q) <= BarrierWeight(w, q) - if q == m then 1 else 0
    ensures Weight(cfg, ApplyBar(cfg, w, a), q) <= Weight(cfg, w, q) - if q == Mover(w, Action.Bar(a)) then 1 else 0
  {
  }

  lemma RefuseLowers(n: nat, k: nat, x: D.Reduction, r: nat, q: nat)
    requires D.Framed(n, k, x) && D.CanRefuse(n, x, r) && q < n
    ensures ReductionWeight(D.Refuse(n, x, r), q) <= ReductionWeight(x, q) - if q == r then 1 else 0
  {
    assert D.EdgeOk(x, r, Parent(r, k));
  }

  lemma GatherLowers(n: nat, k: nat, x: D.Reduction, op: Folding.Op, p: nat, c: nat, q: nat)
    requires D.Framed(n, k, x) && D.CanGather(n, k, x, p, c) && D.Parses(x.up[c]) && q < n
    ensures ReductionWeight(D.Gather(n, k, x, op, p, c), q) <= ReductionWeight(x, q) - if q == c then 1 else 0
  {
    D.NeverMisread(n, k, x, p, c);
  }

  lemma ReplyLowers(n: nat, k: nat, x: D.Reduction, r: nat, count: int, q: nat)
    requires D.Framed(n, k, x) && D.CanReply(n, k, x, r) && q < n
    ensures ReductionWeight(D.Reply(n, k, x, r, count), q) <= ReductionWeight(x, q) - if q == r then 1 else 0
  {
    if r > 0 { assert D.EdgeOk(x, r, Parent(r, k)); }
  }

  /** A reduction step of the machine is one of the reduction's own. */
  lemma DrainingStep(cfg: Config, w: World, a: RedStep)
    requires Shaped(cfg, w) && RedEnabled(cfg, w, a) && !a.RedBegin?
    ensures Shaped(cfg, ApplyRed(cfg, w, a))
    ensures ApplyRed(cfg, w, a).red ==
      match a
      case RedRefuse(r) => D.Refuse(cfg.n, w.red, r)
      case RedGather(r, src) => D.Gather(cfg.n, cfg.k, w.red, cfg.op, r, src)
      case RedReply(r) => D.Reply(cfg.n, cfg.k, w.red, r, w.work.handled[r])
  {
  }

  lemma RedLowersWeight(cfg: Config, w: World, a: RedStep, q: nat)
    requires Shaped(cfg, w) && D.Framed(cfg.n, cfg.k, w.red) && RedEnabled(cfg, w, a) && q < cfg.n
    requires !a.RedBegin?
    ensures Mover(w, Action.Red(a)) < cfg.n && Shaped(cfg, ApplyRed(cfg, w, a))
    ensures ReductionWeight(ApplyRed(cfg, w, a).red, q)
         <= ReductionWeight(w.red, q) - if q == Mover(w, Action.Red(a)) then 1 else 0
  {
    DrainingStep(cfg, w, a);
    match a
    case RedRefuse(r) => RefuseLowers(cfg.n, cfg.k, w.red, r, q);
    case RedGather(r, src) => GatherLowers(cfg.n, cfg.k, w.red, cfg.op, r, src, q);
    case RedReply(r) => ReplyLowers(cfg.n, cfg.k, w.red, r, w.work.handled[r], q);
  }

  lemma RedStepIsDraining(cfg: Config, w: World, a: RedStep)
    requires AllStopped(cfg, w) && RedEnabled(cfg, w, a)
    ensures !a.RedBegin?
  {
  }

  lemma RedStepLowers(cfg: Config, w: World, a: RedStep, q: nat)
    requires Shaped(cfg, w) && RedEnabled(cfg, w, a) && q < cfg.n && Shaped(cfg, ApplyRed(cfg, w, a))
    requires var m := Mover(w, Action.Red(a));
      ReductionWeight(ApplyRed(cfg, w, a).red, q) <= ReductionWeight(w.red, q) - if q == m then 1 else 0
    ensures Weight(cfg, ApplyRed(cfg, w, a), q) <= Weight(cfg, w, q) - if q == Mover(w, Action.Red(a)) then 1 else 0
  {
    RedOutFalls(cfg, w, a, q);
  }

  lemma TokenStepLowers(cfg: Config, w: World, a: TokenStep, q: nat)
    requires AllStopped(cfg, w) && TokenEnabled(cfg, w, a) && q < cfg.n
    ensures Mover(w, Action.Token(a)) < cfg.n && Shaped(cfg, ApplyToken(cfg, w, a))
    ensures Weight(cfg, ApplyToken(cfg, w, a), q)
         <= Weight(cfg, w, q) - if q == Mover(w, Action.Token(a)) then 1 else 0
  {
    if a.TokenReceive? { TokenMeetsWorker(cfg, w, a.r); }
  }

  lemma TermStandsStill(cfg: Config, w: World, a: TermStep)
    requires AllStopped(cfg, w)
    ensures !TermEnabled(cfg, w, a)
  {
  }

  lemma StepLowersWeight(cfg: Config, w: World, a: Action, q: nat)
    requires AllStopped(cfg, w) && Moves(cfg, w, a) && q < cfg.n
    ensures Mover(w, a) < cfg.n && Shaped(cfg, Apply(cfg, w, a))
    ensures Weight(cfg, Apply(cfg, w, a), q) <= Weight(cfg, w, q) - if q == Mover(w, a) then 1 else 0
  {
    match a
    case Work(step) => WorkLowersWeight(cfg, w, step, q); WorkStepLowers(cfg, w, step, q);
    case Bar(step) => BarLowersWeight(cfg, w, step, q); BarStepLowers(cfg, w, step, q);
    case Red(step) => RedStepIsDraining(cfg, w, step); RedLowersWeight(cfg, w, step, q); RedStepLowers(cfg, w, step, q);
    case Token(step) => TokenStepLowers(cfg, w, step, q);
    case Term(step) => TermStandsStill(cfg, w, step);
  }

  lemma StepKeepsStopped(cfg: Config, w: World, a: Action)
    requires AllStopped(cfg, w) && Enabled(cfg, w, a)
    ensures AllStopped(cfg, Apply(cfg, w, a))
  {
    StepKeepsBase(cfg, w, a);
    forall r: nat | r < cfg.n ensures Apply(cfg, w, a).phase[r] != Working { NobodyReturns(cfg, w, a, r); }
  }

  /** No step takes a rank back into the work loop once all have left it. */
  lemma NobodyReturns(cfg: Config, w: World, a: Action, r: nat)
    requires Enabled(cfg, w, a) && r < cfg.n && forall q: nat | q < cfg.n :: w.phase[q] != Working
    ensures |Apply(cfg, w, a).phase| == cfg.n && Apply(cfg, w, a).phase[r] != Working
  {
  }

  /** Every step that changes something brings clean-up closer to its end. */
  lemma StepLowersTotal(cfg: Config, w: World, a: Action)
    requires AllStopped(cfg, w) && Moves(cfg, w, a)
    ensures AllStopped(cfg, Apply(cfg, w, a)) && Sum(Weights(cfg, Apply(cfg, w, a))) < Sum(Weights(cfg, w))
  {
    StepKeepsStopped(cfg, w, a);
    var w' := Apply(cfg, w, a);
    forall q: nat | q < cfg.n
      ensures Weights(cfg, w')[q] <= Weights(cfg, w)[q] - if q == Mover(w, a) then 1 else 0
    {
      StepLowersWeight(cfg, w, a, q);
    }
    StepLowersWeight(cfg, w, a, 0);
    SumFalls(Weights(cfg, w), Weights(cfg, w'), Mover(w, a));
  }

  ghost function NextMove(cfg: Config): (World, Action) -> Option<World> {
    (w, a) => if Moves(cfg, w, a) then Some(Apply(cfg, w, a)) else None
  }

  lemma {:induction false} MovesRunDown(cfg: Config, w: World, acts: seq<Action>, w': World)
    requires AllStopped(cfg, w) && Path(NextMove(cfg), w, acts, w')
    ensures AllStopped(cfg, w') && |acts| + Sum(Weights(cfg, w')) <= Sum(Weights(cfg, w))
    decreases |acts|
  {
    if acts != [] {
      StepLowersTotal(cfg, w, acts[0]);
      MovesRunDown(cfg, Apply(cfg, w, acts[0]), acts[1..], w');
    }
  }

  lemma TotalIsSmall(cfg: Config, w: World)
    requires BaseInv(cfg, w)
    ensures 0 <= Sum(Weights(cfg, w)) <= MOST_STEPS * cfg.n
  {
    forall r | 0 <= r < cfg.n ensures 0 <= Weights(cfg, w)[r] <= MOST_STEPS { WeightIsSmall(cfg, w, r); }
    SumIsSmall(Weights(cfg, w), MOST_STEPS);
  }

  /**
   * Clean-up ends: once no rank is in the work loop, no run takes more than ten state-changing
   * steps per rank, and a run that cannot be continued has brought every rank past the barrier.
   */
  lemma CleanUpEnds(cfg: Config, w: World, acts: seq<Action>, w': World)
    requires Reachable(cfg, w) && (forall q: nat | q < cfg.n :: w.phase[q] != Working)
    requires Path(NextMove(cfg), w, acts, w')
    ensures |acts| <= MOST_STEPS * cfg.n
    ensures Shaped(cfg, w')
    ensures (exists a :: Moves(cfg, w', a)) || forall r: nat | r < cfg.n :: w'.phase[r] == Left
  {
    ReachableBase(cfg, w);
    MovesRunDown(cfg, w, acts, w');
    TotalIsSmall(cfg, w);
    TotalIsSmall(cfg, w');
    if r: nat :| r < cfg.n && w'.phase[r] != Left {
      var a := StoppedNeverStuck(cfg, w', r);
    }
  }

  /** State-changing steps are steps. */
  lemma {:induction false} MovesAreRuns(cfg: Config, w: World, acts: seq<Action>, w': World)
    requires Path(NextMove(cfg), w, acts, w')
    ensures Runs(cfg, w, acts, w')
    decreases |acts|
  {
    if acts != [] { MovesAreRuns(cfg, Apply(cfg, w, acts[0]), acts[1..], w'); }
  }

  /** Clean-up can always be completed. */
  lemma {:induction false} CleanUpCompletes(cfg: Config, w: World) returns (acts: seq<Action>, w': World)
    requires Reachable(cfg, w) && AllStopped(cfg, w)
    ensures Path(NextMove(cfg), w, acts, w') && Reachable(cfg, w') && forall r: nat | r < cfg.n :: w'.phase[r] == Left
    decreases Sum(Weights(cfg, w))
  {
    if r: nat :| r < cfg.n && w.phase[r] != Left {
      var a := StoppedNeverStuck(cfg, w, r);
      StepLowersTotal(cfg, w, a);
      TotalIsSmall(cfg, Apply(cfg, w, a));
      var u := StepOn(cfg, w, a);
      var rest;
      rest, w' := CleanUpCompletes(cfg, u);
      acts := [a] + rest;
      assert acts[1..] == rest;
    } else {
      acts, w' := [], w;
    }
  }
}
