/** One call of each remaining handler at one rank, and the steps of the machine it amounts to. */
module HandlerRuns {
  import opened Common
  import opened KaryTree
  import opened System
  import opened Invariants
  import W = WorkProtocol
  import R = TokenRing
  import V = TreeWave
  import B = BarrierRounds

  /** A call that is at most one step. */
  lemma AtMostOne(cfg: Config, w: World, step: Option<Action>) returns (acts: seq<Action>, w': World)
    requires BaseInv(cfg, w) && (step.Some? ==> Enabled(cfg, w, step.value))
    ensures Runs(cfg, w, acts, w') && BaseInv(cfg, w')
    ensures w' == if step.Some? then Apply(cfg, w, step.value) else w
  {
    acts, w' := [], w;
    if step.Some? {
      StepKeepsBase(cfg, w, step.value);
      RunsOne(cfg, w, step.value);
      acts, w' := [step.value], Apply(cfg, w, step.value);
    }
  }

  // ---------------------------------------------------------------- requestWork

  /** The request recorded after the call. */
  function AskedAfter(asked: Option<nat>, ask: Option<nat>, found: bool): Option<nat> {
    if found then None else if ask.Some? then ask else asked
  }

  /** What the call does: it asks, or takes a reply and acknowledges the items in it, or neither. */
  ghost predicate Requested(n: nat, w: W.Work, w': W.Work, r: nat, ask: Option<nat>, found: Option<W.Reply>)
    requires W.Shaped(n, w) && W.Shaped(n, w') && r < n
    requires (ask.Some? ==> ask.value < n) && (found.Some? ==> found.value.src < n)
  {
    && w'.asked == w.asked[r := AskedAfter(w.asked[r], ask, found.Some?)]
    && w'.requests == (if ask.Some? then w.requests[ask.value := w.requests[ask.value] + multiset{r}] else w.requests)
    && w'.replies == (if found.Some? then w.replies[r := []] else w.replies)
    && w'.queue == (if found.Some? && found.value.items != [] then w.queue[r := found.value.items] else w.queue)
    && w'.receipts == (if found.Some? && found.value.items != []
                       then w.receipts[found.value.src := w.receipts[found.value.src] + 1] else w.receipts)
    && w' == w.(asked := w'.asked, requests := w'.requests, replies := w'.replies, queue := w'.queue,
                receipts := w'.receipts)
  }

  lemma AskEffect(n: nat, w: W.Work, r: nat, s: nat)
    requires W.Shaped(n, w) && W.Enabled(n, w, W.Ask(r, s))
    ensures Requested(n, w, W.Apply(n, w, W.Ask(r, s)), r, Some(s), None)
  {
  }

  lemma AcceptEffect(n: nat, w: W.Work, r: nat)
    requires W.Shaped(n, w) && W.Paired(n, w) && r < n && w.asked[r].Some? && w.replies[r] != []
    ensures w.replies[r][0].src < n && W.Enabled(n, w, W.Accept(r, 0))
    ensures Requested(n, w, W.Apply(n, w, W.Accept(r, 0)), r, None, Some(w.replies[r][0]))
  {
    assert W.PairedAt(n, w, r);
    assert W.OldestFrom(w.replies[r], w.asked[r].value, 0);
    assert w.replies[r][..0] + w.replies[r][1..] == [];
  }

  lemma NoEffect(n: nat, w: W.Work, r: nat)
    requires W.Shaped(n, w) && r < n
    ensures Requested(n, w, w, r, None, None)
  {
    assert w.asked[r := w.asked[r]] == w.asked;
  }

  /**
   * A call of requestWork is a run; the main loop calls it with an empty queue, clean-up with any.  `reply` is
   * what the probe finds and `next` whom to ask.  A rank that waits for a reply takes it if it is there; one
   * that does not asks `next` if it is in the work loop; otherwise nothing happens.
   */
  lemma RequestWorkCallIsARun(cfg: Config, w: World, r: nat, reply: Option<W.Reply>, next: Option<nat>)
      returns (acts: seq<Action>, w': World)
    requires BaseInv(cfg, w) && r < cfg.n && w.phase[r] != Left && (w.phase[r] == Working ==> w.work.queue[r] == [])
    requires reply.Some? ==> w.work.replies[r] != [] && reply.value == w.work.replies[r][0]
    requires next.Some? ==> next.value < cfg.n && next.value != r
    ensures Runs(cfg, w, acts, w') && BaseInv(cfg, w') && w' == w.(work := w'.work)
    ensures w.work.asked[r].Some? ==>
      (reply.Some? ==> reply.value.src < cfg.n) && Requested(cfg.n, w.work, w'.work, r, None, reply)
    ensures w.work.asked[r] == None && w.phase[r] == Working ==> Requested(cfg.n, w.work, w'.work, r, next, None)
    ensures w.work.asked[r] == None && w.phase[r] == CleanUp ==> w' == w
  {
    var step: Option<Action> := None;
    if w.work.asked[r].Some? && reply.Some? {
      AcceptEffect(cfg.n, w.work, r);
      step := Some(Action.Work(W.Accept(r, 0)));
    } else if w.work.asked[r] == None && w.phase[r] == Working && next.Some? {
      AskEffect(cfg.n, w.work, r, next.value);
      step := Some(Action.Work(W.Ask(r, next.value)));
    } else {
      NoEffect(cfg.n, w.work, r);
    }
    acts, w' := AtMostOne(cfg, w, step);
  }

  // ---------------------------------------------------------------- workreceiptCheck

  /** `taken` receipts have been taken; nothing else has changed. */
  predicate Acknowledged(w: World, w': World, s: nat, taken: nat)
    requires s < |w.work.outstanding| && s < |w.work.receipts| && s < |w.flag|
    requires taken <= w.work.outstanding[s] && taken <= w.work.receipts[s]
  {
    && w'.work.outstanding == w.work.outstanding[s := w.work.outstanding[s] - taken]
    && w'.work.receipts == w.work.receipts[s := w.work.receipts[s] - taken]
    && w'.flag == w.flag[s := w.flag[s] && taken == 0]
    && w'.work == w.work.(outstanding := w'.work.outstanding, receipts := w'.work.receipts)
    && w' == w.(work := w'.work, flag := w'.flag)
  }

  lemma AcknowledgeOne(cfg: Config, w: World, s: nat)
    requires Shaped(cfg, w) && s < cfg.n && w.phase[s] == Working && w.work.outstanding[s] > 0 && w.work.receipts[s] > 0
    ensures Enabled(cfg, w, Action.Work(W.Acknowledge(s)))
    ensures Acknowledged(w, Apply(cfg, w, Action.Work(W.Acknowledge(s))), s, 1)
  {
  }

  lemma AcknowledgedOneMore(cfg: Config, w: World, w1: World, w': World, s: nat, taken: nat)
    requires Shaped(cfg, w) && s < cfg.n && 0 < w.work.outstanding[s] && 0 < w.work.receipts[s]
    requires Acknowledged(w, w1, s, 1) && taken <= w1.work.outstanding[s] && taken <= w1.work.receipts[s]
    requires Acknowledged(w1, w', s, taken)
    ensures Acknowledged(w, w', s, taken + 1)
  {
    var o, c, f := w.work.outstanding, w.work.receipts, w.flag;
    assert o[s := o[s] - 1][s := o[s] - 1 - taken] == o[s := o[s] - (taken + 1)];
    assert c[s := c[s] - 1][s := c[s] - 1 - taken] == c[s := c[s] - (taken + 1)];
    assert f[s := false][s := false] == f[s := false];
  }

  lemma AcknowledgedNone(cfg: Config, w: World, s: nat)
    requires Shaped(cfg, w) && s < cfg.n
    ensures Acknowledged(w, w, s, 0)
  {
    assert w.work.outstanding[s := w.work.outstanding[s]] == w.work.outstanding;
    assert w.work.receipts[s := w.work.receipts[s]] == w.work.receipts;
    assert w.flag[s := w.flag[s]] == w.flag;
  }

  lemma JoinReceipts(cfg: Config, w: World, w1: World, w': World, s: nat, arrived: nat, first: seq<Action>,
        rest: seq<Action>) returns (acts: seq<Action>)
    requires Shaped(cfg, w) && s < cfg.n && 0 < arrived && arrived <= w.work.outstanding[s]
    requires arrived <= w.work.receipts[s] && Acknowledged(w, w1, s, 1)
    requires arrived - 1 <= w1.work.outstanding[s] && arrived - 1 <= w1.work.receipts[s]
    requires Acknowledged(w1, w', s, arrived - 1) && Runs(cfg, w, first, w1) && Runs(cfg, w1, rest, w')
    ensures Runs(cfg, w, acts, w') && Acknowledged(w, w', s, arrived)
  {
    AcknowledgedOneMore(cfg, w, w1, w', s, arrived - 1);
    RunsAppend(cfg, w, first, w1, rest, w');
    acts := first + rest;
  }

  lemma ReceiptsAreOutstanding(cfg: Config, w: World, s: nat)
    requires BaseInv(cfg, w) && s < cfg.n
    ensures w.work.receipts[s] <= w.work.outstanding[s]
  {
    assert w.work.outstanding[s] == w.work.receipts[s] + |W.Carriers(w.work, s)|;
  }

  lemma TakeReceipt(cfg: Config, w: World, s: nat) returns (acts: seq<Action>, w': World)
    requires Shaped(cfg, w) && s < cfg.n && w.phase[s] == Working && w.work.outstanding[s] > 0 && w.work.receipts[s] > 0
    ensures Runs(cfg, w, acts, w') && Shaped(cfg, w') && Acknowledged(w, w', s, 1)
    ensures w'.phase[s] == Working && w'.work.receipts[s] == w.work.receipts[s] - 1
    ensures w'.work.outstanding[s] == w.work.outstanding[s] - 1
  {
    var a := Action.Work(W.Acknowledge(s));
    AcknowledgeOne(cfg, w, s);
    RunsOne(cfg, w, a);
    acts, w' := [a], Apply(cfg, w, a);
  }

  lemma {:induction false} TakeReceipts(cfg: Config, w: World, s: nat, arrived: nat)
      returns (acts: seq<Action>, w': World)
    requires Shaped(cfg, w) && s < cfg.n && w.phase[s] == Working
    requires arrived <= w.work.receipts[s] && arrived <= w.work.outstanding[s]
    ensures Runs(cfg, w, acts, w') && Acknowledged(w, w', s, arrived)
    decreases arrived
  {
    if arrived == 0 {
      acts, w' := [], w;
      AcknowledgedNone(cfg, w, s);
    } else {
      var first, w1 := TakeReceipt(cfg, w, s);
      var rest;
      rest, w' := TakeReceipts(cfg, w1, s, arrived - 1);
      acts := JoinReceipts(cfg, w, w1, w', s, arrived, first, rest);
    }
  }

  /** A call of workreceiptCheck that finds `arrived` receipts is a run, and takes them all. */
  lemma ReceiptCallIsARun(cfg: Config, w: World, s: nat, arrived: nat) returns (acts: seq<Action>, w': World)
    requires BaseInv(cfg, w) && s < cfg.n && w.phase[s] == Working && arrived <= w.work.receipts[s]
    ensures Runs(cfg, w, acts, w') && BaseInv(cfg, w')
    ensures arrived <= w.work.outstanding[s] && Acknowledged(w, w', s, arrived)
  {
    ReceiptsAreOutstanding(cfg, w, s);
    acts, w' := TakeReceipts(cfg, w, s, arrived);
    RunKeepsBase(cfg, w, acts, w');
  }

  // ---------------------------------------------------------------- checkForTerm, tokenCheck

  /**
   * A call of checkForTerm at an idle rank in the work loop is the ring's send step if the rank holds the
   * token, its receive step if it sees one, or nothing.
   */
  lemma TokenCallIsARun(cfg: Config, w: World, r: nat, see: bool) returns (acts: seq<Action>, w': World)
    requires BaseInv(cfg, w) && !cfg.tree && Polls(cfg, w, r)
    requires w.ring.local[r] && cfg.delivery ==> !W.HasWork(w.work.replies[r])
    ensures Runs(cfg, w, acts, w') && BaseInv(cfg, w') && w' == w.(ring := w'.ring, phase := w'.phase)
    ensures w.ring.proc[r] != R.Terminate
    ensures
      if w.ring.local[r] then w'.ring == R.Send(cfg.n, w.ring, r)
      else if see && w.ring.wire[r] != [] then w'.ring == R.Receive(cfg.n, w.ring, r)
      else w'.ring == w.ring
    ensures w'.phase == w.phase[r := if w'.ring.proc[r] == R.Terminate then CleanUp else Working]
  {
    assert ModeAt(cfg, w, r);
    assert w.phase[r := Working] == w.phase;
    var step := if w.ring.local[r] then Some(Action.Token(TokenSend(r)))
                else if see && w.ring.wire[r] != [] then Some(Action.Token(TokenReceive(r)))
                else None;
    acts, w' := AtMostOne(cfg, w, step);
  }

  /** In clean-up no token can arrive any more; the test of a pending send is a step once it has been matched. */
  lemma CleanUpTokenCallIsARun(cfg: Config, w: World, r: nat, matched: bool) returns (acts: seq<Action>, w': World)
    requires BaseInv(cfg, w) && !cfg.tree && r < cfg.n && w.phase[r] == CleanUp
    requires matched ==> w.ring.wire[R.TokenDest(r, cfg.n)] == []
    ensures Runs(cfg, w, acts, w') && BaseInv(cfg, w') && w.ring.wire[r] == []
    ensures w' == w.(ring := w.ring.(pending := w.ring.pending[r := w.ring.pending[r] && !matched]))
  {
    if w.ring.wire[r] != [] { TokenMeetsWorker(cfg, w, r); }
    var step := if w.ring.pending[r] && matched then Some(Action.Token(TokenTest(r))) else None;
    if step == None { assert w.ring.pending[r := w.ring.pending[r]] == w.ring.pending; }
    acts, w' := AtMostOne(cfg, w, step);
  }

  // ---------------------------------------------------------------- barrierTest

  function BarrierOf(w: World): B.Barrier {
    B.Barrier(w.bar, w.started)
  }

  function AsBarStep(a: B.Step): BarStep {
    match a
    case Start(r) => BarStart(r)
    case Take(r, src) => BarAbsorb(r, src)
    case SendUp(r) => BarRaise(r)
    case Complete(r) => if r == 0 then BarFinish else BarLower(r)
  }

  /** In clean-up, a step of the barrier on its own is a step of the machine; completing means leaving. */
  lemma BarrierStepIsAStep(cfg: Config, w: World, a: B.Step)
    requires Shaped(cfg, w) && B.Enabled(cfg.n, cfg.k, BarrierOf(w), a) && !a.Start? && a.r < cfg.n
    requires w.phase[a.r] == CleanUp
    ensures BarEnabled(cfg, w, AsBarStep(a))
    ensures var w' := ApplyBar(cfg, w, AsBarStep(a));
      && BarrierOf(w') == B.Apply(cfg.n, cfg.k, BarrierOf(w), a)
      && w' == w.(bar := w'.bar, started := w'.started, phase := w'.phase)
      && w'.phase == if a.Complete? then w.phase[a.r := Left] else w.phase
  {
  }

  lemma OneBarrierStep(cfg: Config, w: World, a: B.Step) returns (acts: seq<Action>, w': World)
    requires BaseInv(cfg, w) && B.Enabled(cfg.n, cfg.k, BarrierOf(w), a) && !a.Start? && a.r < cfg.n
    requires w.phase[a.r] == CleanUp
    ensures Runs(cfg, w, acts, w') && BaseInv(cfg, w') && BarrierOf(w') == B.Apply(cfg.n, cfg.k, BarrierOf(w), a)
    ensures w' == w.(bar := w'.bar, started := w'.started, phase := w'.phase)
    ensures w'.phase == if a.Complete? then w.phase[a.r := Left] else w.phase
  {
    BarrierStepIsAStep(cfg, w, a);
    acts, w' := AtMostOne(cfg, w, Some(Action.Bar(AsBarStep(a))));
  }

  lemma FirstBarrierStep(n: nat, k: nat, b: B.Barrier, steps: seq<B.Step>, b': B.Barrier)
    requires B.Runs(n, k, b, steps, b') && steps != []
    ensures B.Enabled(n, k, b, steps[0]) && B.Runs(n, k, B.Apply(n, k, b, steps[0]), steps[1..], b')
  {
  }

  lemma {:induction false} BarrierStepsAreARun(cfg: Config, w: World, steps: seq<B.Step>, b': B.Barrier, r: nat,
        complete: bool) returns (acts: seq<Action>, w': World)
    requires BaseInv(cfg, w) && r < cfg.n && (steps == [] || w.phase[r] == CleanUp)
    requires steps != [] ==> B.OneCall(steps, r, complete)
    requires B.Runs(cfg.n, cfg.k, BarrierOf(w), steps, b')
    ensures Runs(cfg, w, acts, w') && BaseInv(cfg, w') && BarrierOf(w') == b'
    ensures w' == w.(bar := w'.bar, started := w'.started, phase := w'.phase)
    ensures w'.phase == if complete && steps != [] then w.phase[r := Left] else w.phase
    decreases |steps|
  {
    if steps == [] {
      acts, w' := [], w;
    } else {
      FirstBarrierStep(cfg.n, cfg.k, BarrierOf(w), steps, b');
      var first, w1 := OneBarrierStep(cfg, w, steps[0]);
      var rest;
      rest, w' := BarrierStepsAreARun(cfg, w1, steps[1..], b', r, complete);
      RunsAppend(cfg, w, first, w1, rest, w');
      acts := first + rest;
    }
  }

  /**
   * A call of barrierTest in clean-up is a run of the machine; the rank leaves exactly if the call completes.
   * A rank that has not started the barrier stays as it is.
   */
  lemma BarrierCallIsARun(cfg: Config, w: World, r: nat, src: nat, child: bool, parent: bool)
      returns (acts: seq<Action>, w': World, call: B.BarCall)
    requires BaseInv(cfg, w) && r < cfg.n && w.phase[r] == CleanUp
    requires child && w.started[r] ==> V.CanAbsorb(cfg.n, cfg.k, w.bar, r, src)
    requires parent ==> w.bar.fall[r] != []
    ensures Runs(cfg, w, acts, w') && BaseInv(cfg, w')
    ensures w' == w.(bar := w'.bar, started := w'.started, phase := w'.phase)
    ensures call == B.TestCall(r == 0, ChildCount(r, cfg.k, cfg.n), B.Slice(BarrierOf(w), r), child, parent)
    ensures B.Polled(cfg.n, cfg.k, BarrierOf(w), BarrierOf(w'), r, src, child && w.started[r], call)
    ensures w'.phase == if call.complete then w.phase[r := Left] else w.phase
    ensures if w.started[r] then B.Advanced(cfg.n, cfg.k, BarrierOf(w), BarrierOf(w'), r, child, parent, call)
      else w' == w && !call.sentUp && !call.complete
  {
    BarrierHolds(cfg, w);
    var steps, b';
    steps, b', call := B.TestCallIsARun(cfg.n, cfg.k, BarrierOf(w), r, src, child, parent);
    acts, w' := BarrierStepsAreARun(cfg, w, steps, b', r, call.complete);
  }

  lemma BarrierHolds(cfg: Config, w: World)
    requires BaseInv(cfg, w)
    ensures B.BarrierInv(cfg.n, cfg.k, BarrierOf(w))
  {
    forall r: nat | r < cfg.n && w.bar.up[r] ensures w.started[r] { assert GateAt(cfg, w, r); }
  }
}
