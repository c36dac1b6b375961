/** Termination by the token ring is safe for any number of ranks under the delivery guard. */
module RingSafety {
  import opened Common
  import opened System
  import opened Invariants
  import opened TreeSafety
  import W = WorkProtocol
  import R = TokenRing

  predicate SoundRing(cfg: Config) {
    !cfg.tree && (cfg.delivery || cfg.n == 1)
  }

  /** The ranks below this one have passed the token on in the current round. */
  function Visited(n: nat, t: nat, flying: bool): nat {
    if t > 0 then t else if flying then n else 0
  }

  predicate BlackAhead(cfg: Config, w: World, v: nat, j: nat)
    requires Shaped(cfg, w)
  {
    v <= j < cfg.n && w.ring.proc[j] == R.Black
  }

  ghost predicate RingAlarm(cfg: Config, w: World, t: nat, flying: bool)
    requires Shaped(cfg, w) && R.TokenAt(cfg.n, w.ring, t, flying)
  {
    || R.TokenColour(cfg.n, w.ring, t, flying) == R.Black
    || exists j: nat :: BlackAhead(cfg, w, Visited(cfg.n, t, flying), j)
  }

  ghost predicate VisitedIdle(cfg: Config, w: World, v: nat)
    requires Shaped(cfg, w)
  {
    forall i: nat | i < v && i < cfg.n :: Idle(w.work, i)
  }

  /**
   * Before the decision: the ranks the token has visited are done, or a black rank is still
   * ahead of the token, or the token is black.  After it: everything is done.
   */
  ghost predicate RingSafeAt(cfg: Config, w: World, t: nat, flying: bool)
    requires Shaped(cfg, w)
  {
    && R.RingInvAt(cfg.n, w.ring, t, flying)
    && (R.Undecided(cfg.n, w.ring, t, flying) ==>
          RingAlarm(cfg, w, t, flying) || VisitedIdle(cfg, w, Visited(cfg.n, t, flying)))
    && (R.Decided(cfg.n, w.ring, t, flying) ==> Quiet(cfg, w))
  }

  ghost predicate RingSafe(cfg: Config, w: World)
    requires Shaped(cfg, w)
  {
    exists t, flying :: RingSafeAt(cfg, w, t, flying)
  }

  /** A rank is woken only by work from a rank that was not idle itself. */
  predicate Woken(cfg: Config, w: World, a: W.WorkStep, r: nat)
    requires Shaped(cfg, w)
  {
    && a.Serve? && a.share > 0 && a.s < cfg.n && w.work.gathered[a.s] != [] && w.work.gathered[a.s][0] == r
    && !Idle(w.work, a.s)
  }

  lemma WorkKeepsIdle(cfg: Config, w: World, a: W.WorkStep)
    requires Layers(cfg, w) && W.Enabled(cfg.n, w.work, a)
    ensures forall r: nat | r < cfg.n && Idle(w.work, r) :: Idle(ApplyWork(cfg, w, a).work, r) || Woken(cfg, w, a, r)
  {
    forall r: nat | r < cfg.n && Idle(w.work, r) ensures Idle(ApplyWork(cfg, w, a).work, r) || Woken(cfg, w, a, r) {
      WorkStepEffect(cfg.n, w.work, a, r);
    }
  }

  /** A transfer to a visited rank comes from a rank ahead of the token, which turns black. */
  lemma TransferKeepsRingSafe(cfg: Config, w: World, w': World, s: nat, dest: nat, t: nat, flying: bool)
    requires Shaped(cfg, w) && RingSafeAt(cfg, w, t, flying) && Shaped(cfg, w') && s < cfg.n && dest < cfg.n
    requires w'.ring == R.Paint(cfg.n, w.ring, s, dest) && w.ring.proc[s] != R.Terminate && !Idle(w.work, s)
    requires forall r: nat | r < cfg.n && Idle(w.work, r) :: Idle(w'.work, r) || r == dest
    ensures RingSafeAt(cfg, w', t, flying)
  {
    R.PaintKeeps(cfg.n, w.ring, s, dest, t, flying);
    if R.Undecided(cfg.n, w.ring, t, flying) {
      var v := Visited(cfg.n, t, flying);
      if j: nat :| BlackAhead(cfg, w, v, j) {
        assert BlackAhead(cfg, w', v, j);
      } else if dest < v <= s {
        assert BlackAhead(cfg, w', v, s);
      }
    }
  }

  /** Work steps: a visited rank can only be reactivated by a rank that turns black. */
  lemma WorkKeepsRingSafe(cfg: Config, w: World, a: W.WorkStep, t: nat, flying: bool)
    requires Layers(cfg, w) && Modes(cfg, w) && RingSafeAt(cfg, w, t, flying) && !cfg.tree
    requires WorkGuard(w, a) && W.Enabled(cfg.n, w.work, a)
    ensures var w' := ApplyWork(cfg, w, a); Shaped(cfg, w') && RingSafeAt(cfg, w', t, flying)
  {
    var w' := ApplyWork(cfg, w, a);
    WorkKeepsIdle(cfg, w, a);
    if a.Serve? && a.share > 0 {
      W.ServedIsAwaiting(cfg.n, w.work, a.s);
      assert ModeAt(cfg, w, a.s);
      TransferKeepsRingSafe(cfg, w, w', a.s, w.work.gathered[a.s][0], t, flying);
    } else {
      WorkElsewhereKeepsRingSafe(cfg, w, w', t, flying);
    }
  }

  lemma WorkElsewhereKeepsRingSafe(cfg: Config, w: World, w': World, t: nat, flying: bool)
    requires Shaped(cfg, w) && RingSafeAt(cfg, w, t, flying) && Shaped(cfg, w') && w'.ring == w.ring
    requires forall r: nat | r < cfg.n && Idle(w.work, r) :: Idle(w'.work, r)
    ensures RingSafeAt(cfg, w', t, flying)
  {
    var v := Visited(cfg.n, t, flying);
    if j: nat :| BlackAhead(cfg, w, v, j) { assert BlackAhead(cfg, w', v, j); }
  }

  lemma SenderIsIdle(cfg: Config, w: World, r: nat)
    requires Layers(cfg, w) && SoundRing(cfg) && TokenEnabled(cfg, w, TokenSend(r))
    ensures Idle(w.work, r)
  {
    if cfg.n == 1 { assert W.PairedAt(cfg.n, w.work, 0); }
  }

  lemma SendKeepsRingSafe(cfg: Config, w: World, r: nat, t: nat, flying: bool)
    requires Layers(cfg, w) && RingSafeAt(cfg, w, t, flying) && SoundRing(cfg) && TokenEnabled(cfg, w, TokenSend(r))
    ensures var w' := ApplyToken(cfg, w, TokenSend(r)); Shaped(cfg, w') && RingSafe(cfg, w')
  {
    var w' := ApplyToken(cfg, w, TokenSend(r));
    R.SendKeeps(cfg.n, w.ring, r, t, flying);
    SenderIsIdle(cfg, w, r);
    var d := R.TokenDest(r, cfg.n);
    var v, v' := Visited(cfg.n, t, flying), Visited(cfg.n, d, true);
    assert v == r && v' == r + 1;
    if R.TokenColour(cfg.n, w'.ring, d, true) != R.Black {
      if j: nat :| BlackAhead(cfg, w, v, j) && j != r { assert BlackAhead(cfg, w', v', j); }
    }
    assert RingSafeAt(cfg, w', d, true);
  }

  lemma ReceiveKeepsRingSafe(cfg: Config, w: World, r: nat, t: nat, flying: bool)
    requires Layers(cfg, w) && RingSafeAt(cfg, w, t, flying) && TokenEnabled(cfg, w, TokenReceive(r))
    ensures var w' := ApplyToken(cfg, w, TokenReceive(r)); Shaped(cfg, w') && RingSafe(cfg, w')
  {
    var w' := ApplyToken(cfg, w, TokenReceive(r));
    R.ReceiveKeeps(cfg.n, w.ring, r, t, flying);
    var p := R.PlaceAfterReceive(cfg.n, w.ring, r);
    var token := w.ring.wire[r][0];
    var v := Visited(cfg.n, t, flying);
    if R.Terminates(r, token) {
      assert Quiet(cfg, w);
    } else if token != R.Black {
      if j: nat :| BlackAhead(cfg, w, v, j) { assert BlackAhead(cfg, w', v, j); }
    }
    assert RingSafeAt(cfg, w', p.0, p.1);
  }

  lemma OthersKeepRingSafe(cfg: Config, w: World, w': World, t: nat, flying: bool)
    requires Shaped(cfg, w) && RingSafeAt(cfg, w, t, flying) && Shaped(cfg, w')
    requires w'.work == w.work && R.RingInvAt(cfg.n, w'.ring, t, flying)
    requires w'.ring.proc == w.ring.proc && w'.ring.wire == w.ring.wire && w'.ring.buf == w.ring.buf
    ensures RingSafeAt(cfg, w', t, flying)
  {
    var v := Visited(cfg.n, t, flying);
    if j: nat :| BlackAhead(cfg, w, v, j) { assert BlackAhead(cfg, w', v, j); }
  }

  lemma TokenKeepsRingSafe(cfg: Config, w: World, a: TokenStep, t: nat, flying: bool)
    requires Layers(cfg, w) && RingSafeAt(cfg, w, t, flying) && SoundRing(cfg) && TokenEnabled(cfg, w, a)
    ensures var w' := ApplyToken(cfg, w, a); Shaped(cfg, w') && RingSafe(cfg, w')
  {
    match a
    case TokenSend(r) => SendKeepsRingSafe(cfg, w, r, t, flying);
    case TokenReceive(r) => ReceiveKeepsRingSafe(cfg, w, r, t, flying);
    case TokenTest(r) =>
      R.TestKeeps(cfg.n, w.ring, r, t, flying);
      OthersKeepRingSafe(cfg, w, ApplyToken(cfg, w, a), t, flying);
  }

  lemma BarKeepsRingSafe(cfg: Config, w: World, a: BarStep, t: nat, flying: bool)
    requires Shaped(cfg, w) && RingSafeAt(cfg, w, t, flying) && BarEnabled(cfg, w, a)
    ensures var w' := ApplyBar(cfg, w, a); Shaped(cfg, w') && RingSafe(cfg, w')
  {
    OthersKeepRingSafe(cfg, w, ApplyBar(cfg, w, a), t, flying);
  }

  lemma RedKeepsRingSafe(cfg: Config, w: World, a: RedStep, t: nat, flying: bool)
    requires Shaped(cfg, w) && RingSafeAt(cfg, w, t, flying) && RedEnabled(cfg, w, a)
    ensures var w' := ApplyRed(cfg, w, a); Shaped(cfg, w') && RingSafe(cfg, w')
  {
    OthersKeepRingSafe(cfg, w, ApplyRed(cfg, w, a), t, flying);
  }

  lemma StepKeepsRingSafe(cfg: Config, w: World, a: Action)
    requires Layers(cfg, w) && Modes(cfg, w) && SoundRing(cfg) && RingSafe(cfg, w) && Enabled(cfg, w, a)
    ensures Shaped(cfg, Apply(cfg, w, a)) && RingSafe(cfg, Apply(cfg, w, a))
  {
    var t, flying :| RingSafeAt(cfg, w, t, flying);
    match a
    case Work(step) => WorkKeepsRingSafe(cfg, w, step, t, flying);
    case Token(step) => TokenKeepsRingSafe(cfg, w, step, t, flying);
    case Bar(step) => BarKeepsRingSafe(cfg, w, step, t, flying);
    case Red(step) => RedKeepsRingSafe(cfg, w, step, t, flying);
    case Term(_) =>
  }

  lemma InitRingSafe(cfg: Config, w: World)
    requires Init(cfg, w)
    ensures RingSafe(cfg, w)
  {
    R.StartEstablishes(cfg.n);
    assert RingSafeAt(cfg, w, 0, false);
  }
}
