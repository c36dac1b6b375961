/** One call of workreqCheck at one rank, and the steps of the machine it amounts to. */
module RequestCalls {
  import opened Common
  import opened System
  import opened Invariants
  import opened WorkSplit
  import RankState
  import EndToEnd
  import W = WorkProtocol
  import R = TokenRing

  // ---------------------------------------------------------------- collecting

  /** The requests `reqs` have moved from the wire to the list of requestors; nothing else has changed. */
  ghost predicate Collected(cfg: Config, w: World, w': World, s: nat, reqs: seq<nat>)
    requires Shaped(cfg, w) && s < cfg.n
  {
    w' == w.(work := w.work.(requests := w.work.requests[s := w.work.requests[s] - multiset(reqs)],
                             gathered := w.work.gathered[s := w.work.gathered[s] + reqs]))
  }

  lemma CollectOne(cfg: Config, w: World, s: nat, r: nat) returns (w': World)
    requires Shaped(cfg, w) && s < cfg.n && r < cfg.n && w.phase[s] != Left && r in w.work.requests[s]
    ensures Enabled(cfg, w, Action.Work(W.Collect(s, r))) && w' == Apply(cfg, w, Action.Work(W.Collect(s, r)))
    ensures Shaped(cfg, w') && Collected(cfg, w, w', s, [r])
  {
    w' := Apply(cfg, w, Action.Work(W.Collect(s, r)));
    assert multiset([r]) == multiset{r};
  }

  lemma CollectedTwice(cfg: Config, w: World, w1: World, w': World, s: nat, r: nat, rest: seq<nat>)
    requires Shaped(cfg, w) && Shaped(cfg, w1) && s < cfg.n
    requires Collected(cfg, w, w1, s, [r]) && Collected(cfg, w1, w', s, rest)
    ensures Collected(cfg, w, w', s, [r] + rest)
  {
    var q, g := w.work.requests[s], w.work.gathered[s];
    assert multiset([r] + rest) == multiset([r]) + multiset(rest);
    assert q - multiset([r]) - multiset(rest) == q - multiset([r] + rest);
    Reassociate(g, [r], rest);
    assert w'.work.requests == w.work.requests[s := q - multiset([r] + rest)];
    assert w'.work.gathered == w.work.gathered[s := g + ([r] + rest)];
  }

  lemma NothingCollected(cfg: Config, w: World, s: nat)
    requires Shaped(cfg, w) && s < cfg.n
    ensures Collected(cfg, w, w, s, [])
  {
    assert w.work.requests[s] - multiset([]) == w.work.requests[s];
    assert w.work.gathered[s] + [] == w.work.gathered[s];
    assert w.work.requests[s := w.work.requests[s]] == w.work.requests;
    assert w.work.gathered[s := w.work.gathered[s]] == w.work.gathered;
  }

  lemma {:induction false} CollectAll(cfg: Config, w: World, s: nat, reqs: seq<nat>)
      returns (acts: seq<Action>, w': World)
    requires Shaped(cfg, w) && s < cfg.n && w.phase[s] != Left && multiset(reqs) <= w.work.requests[s]
    requires forall i | 0 <= i < |reqs| :: reqs[i] < cfg.n
    ensures Runs(cfg, w, acts, w') && Shaped(cfg, w') && Collected(cfg, w, w', s, reqs)
    decreases |reqs|
  {
    if reqs == [] {
      acts, w' := [], w;
      NothingCollected(cfg, w, s);
    } else {
      var r, rest := reqs[0], reqs[1..];
      assert reqs == [r] + rest && r in multiset(reqs);
      var w1 := CollectOne(cfg, w, s, r);
      var more;
      more, w' := CollectAll(cfg, w1, s, rest);
      CollectedTwice(cfg, w, w1, w', s, r, rest);
      RunsCons(cfg, w, Action.Work(W.Collect(s, r)), more, w');
      acts := [Action.Work(W.Collect(s, r))] + more;
    }
  }

  /** Collecting any requests that are there is a run. */
  lemma CollectingIsARun(cfg: Config, w: World, s: nat, reqs: seq<nat>) returns (acts: seq<Action>, w': World)
    requires BaseInv(cfg, w) && s < cfg.n && w.phase[s] != Left && multiset(reqs) <= w.work.requests[s]
    ensures Runs(cfg, w, acts, w') && BaseInv(cfg, w') && Collected(cfg, w, w', s, reqs)
  {
    forall i | 0 <= i < |reqs| ensures reqs[i] < cfg.n {
      assert reqs[i] in multiset(reqs);
      EndToEnd.RequestorIsPeer(cfg.n, w.work, s, reqs[i]);
    }
    acts, w' := CollectAll(cfg, w, s, reqs);
    RunKeepsBase(cfg, w, acts, w');
  }

  // ---------------------------------------------------------------- answering

  /** The blocks have the sizes given and stack up with what is kept to the old queue. */
  ghost predicate Cut(before: seq<Item>, after: seq<Item>, shares: seq<nat>, blocks: seq<seq<Item>>) {
    && |blocks| == |shares| && (forall i | 0 <= i < |blocks| :: |blocks[i]| == shares[i])
    && Stacked(after, blocks) == before && |after| + Sum(shares) == |before|
  }

  /** Requestor `i` finds block `i`, and nobody else finds anything new. */
  ghost predicate Delivered(before: seq<seq<W.Reply>>, after: seq<seq<W.Reply>>, s: nat, dests: seq<nat>,
        blocks: seq<seq<Item>>)
  {
    && |before| == |after| && |dests| == |blocks|
    && (forall i | 0 <= i < |dests| :: dests[i] < |after| && after[dests[i]] == [W.Reply(s, blocks[i])])
    && (forall r: nat | r < |after| && r !in dests :: after[r] == before[r])
  }

  /** Counter and colour of the sender, and its list of requestors; nothing else differs. */
  ghost predicate Noted(cfg: Config, w: World, w': World, s: nat, m: nat, blocks: seq<seq<Item>>)
    requires Shaped(cfg, w) && Shaped(cfg, w') && s < cfg.n && m == |blocks| <= |w.work.gathered[s]|
  {
    && w'.work.outstanding == w.work.outstanding[s := w.work.outstanding[s] + RankState.Transfers(blocks)]
    && w'.ring == w.ring.(proc := w.ring.proc[s :=
         RankState.Darkened(s, cfg.n, w.ring.proc[s], w.work.gathered[s][..m], blocks)])
    && w'.work.gathered == w.work.gathered[s := w.work.gathered[s][m..]]
    && w'.work.queue == w.work.queue[s := w'.work.queue[s]]
    && w'.work.asked == w.work.asked && w'.work.requests == w.work.requests && w'.work.receipts == w.work.receipts
    && w' == w.(work := w'.work, ring := w'.ring)
  }

  /** The first requestors of `s` have been answered with blocks of the sizes given. */
  ghost predicate Answered(cfg: Config, w: World, w': World, s: nat, shares: seq<nat>, blocks: seq<seq<Item>>)
    requires Shaped(cfg, w) && Shaped(cfg, w') && s < cfg.n && |shares| <= |w.work.gathered[s]|
  {
    && Cut(w.work.queue[s], w'.work.queue[s], shares, blocks)
    && Delivered(w.work.replies, w'.work.replies, s, w.work.gathered[s][..|shares|], blocks)
    && Noted(cfg, w, w', s, |shares|, blocks)
  }

  /** What answering the first requestor with `share` items does. */
  ghost predicate Served(cfg: Config, w: World, w': World, s: nat, share: nat)
    requires Shaped(cfg, w) && Shaped(cfg, w') && s < cfg.n && w.work.gathered[s] != [] && share <= |w.work.queue[s]|
  {
    var d, block := w.work.gathered[s][0], W.Sent(w.work.queue[s], share);
    && d < cfg.n
    && w'.work.queue == w.work.queue[s := W.Kept(w.work.queue[s], share)]
    && w'.work.replies == w.work.replies[d := [W.Reply(s, block)]]
    && w'.work.outstanding == w.work.outstanding[s := w.work.outstanding[s] + if share > 0 then 1 else 0]
    && w'.work.gathered == w.work.gathered[s := w.work.gathered[s][1..]]
    && w'.ring == (if share > 0 then R.Paint(cfg.n, w.ring, s, d) else w.ring)
    && w'.work.asked == w.work.asked && w'.work.requests == w.work.requests && w'.work.receipts == w.work.receipts
    && w' == w.(work := w'.work, ring := w'.ring)
  }

  lemma ServeEffect(cfg: Config, w: World, s: nat, share: nat)
    requires Shaped(cfg, w) && W.Paired(cfg.n, w.work) && W.Enabled(cfg.n, w.work, W.Serve(s, share))
    ensures var w' := ApplyWork(cfg, w, W.Serve(s, share)); Shaped(cfg, w') && Served(cfg, w, w', s, share)
  {
    W.ServedIsAwaiting(cfg.n, w.work, s);
    W.ServeMoves(cfg.n, w.work, s, share);
  }

  lemma ServeOne(cfg: Config, w: World, s: nat, share: nat) returns (w': World)
    requires BaseInv(cfg, w) && s < cfg.n && w.phase[s] != Left && w.work.gathered[s] != []
    requires (share == 0 || share < |w.work.queue[s]|) && (w.phase[s] == CleanUp ==> share == 0)
    ensures Enabled(cfg, w, Action.Work(W.Serve(s, share))) && w' == Apply(cfg, w, Action.Work(W.Serve(s, share)))
    ensures BaseInv(cfg, w') && Served(cfg, w, w', s, share)
  {
    W.ServedIsAwaiting(cfg.n, w.work, s);
    ServeEffect(cfg, w, s, share);
    StepKeepsBase(cfg, w, Action.Work(W.Serve(s, share)));
    w' := ApplyWork(cfg, w, W.Serve(s, share));
  }

  lemma NoneAnswered(cfg: Config, w: World, s: nat)
    requires Shaped(cfg, w) && s < cfg.n
    ensures Answered(cfg, w, w, s, [], [])
  {
    assert w.work.gathered[s][0..] == w.work.gathered[s];
    assert w.work.queue[s := w.work.queue[s]] == w.work.queue;
    assert w.work.gathered[s := w.work.gathered[s]] == w.work.gathered;
    assert w.work.outstanding[s := w.work.outstanding[s]] == w.work.outstanding;
    assert w.ring.proc[s := w.ring.proc[s]] == w.ring.proc;
  }

  /** The requestors still to be answered are other ranks than those that have been. */
  lemma NextRequestor(cfg: Config, w: World, s: nat, m: nat)
    requires BaseInv(cfg, w) && s < cfg.n && m < |w.work.gathered[s]|
    ensures var g := w.work.gathered[s];
      && g[m] !in g[..m] && g[..m + 1] == g[..m] + [g[m]]
      && g[m..] != [] && g[m..][0] == g[m] && g[m..][1..] == g[m + 1..]
  {
    EndToEnd.RequestorsAreDistinct(cfg.n, w.work, s);
  }

  lemma CutOneMore(before: seq<Item>, q: seq<Item>, shares: seq<nat>, share: nat, blocks: seq<seq<Item>>)
    requires Cut(before, q, shares, blocks) && share <= |q|
    ensures Cut(before, W.Kept(q, share), shares + [share], blocks + [W.Sent(q, share)])
  {
    RankState.CutOneBlock(q, share, blocks);
    assert (shares + [share])[..|shares|] == shares;
  }

  lemma DeliverOneMore(before: seq<seq<W.Reply>>, mid: seq<seq<W.Reply>>, s: nat, dests: seq<nat>,
        blocks: seq<seq<Item>>, d: nat, block: seq<Item>)
    requires Delivered(before, mid, s, dests, blocks) && d < |mid| && d !in dests
    ensures Delivered(before, mid[d := [W.Reply(s, block)]], s, dests + [d], blocks + [block])
  {
  }

  lemma NoteOneMore(cfg: Config, w: World, w1: World, w': World, s: nat, share: nat, blocks: seq<seq<Item>>)
    requires BaseInv(cfg, w) && Shaped(cfg, w1) && Shaped(cfg, w') && s < cfg.n
    requires |blocks| < |w.work.gathered[s]| && Noted(cfg, w, w1, s, |blocks|, blocks)
    requires w1.work.gathered[s] != [] && share <= |w1.work.queue[s]| && Served(cfg, w1, w', s, share)
    ensures Noted(cfg, w, w', s, |blocks| + 1, blocks + [W.Sent(w1.work.queue[s], share)])
  {
    var m, block := |blocks|, W.Sent(w1.work.queue[s], share);
    NextRequestor(cfg, w, s, m);
    RankState.DarkenedOneMore(s, cfg.n, w.ring.proc[s], w.work.gathered[s], m, blocks, block);
    assert (blocks + [block])[..m] == blocks;
  }

  /** Answering one more requestor. */
  lemma AnsweredOneMore(cfg: Config, w: World, w1: World, w': World, s: nat, shares: seq<nat>, share: nat,
        blocks: seq<seq<Item>>)
    requires BaseInv(cfg, w) && Shaped(cfg, w1) && Shaped(cfg, w') && s < cfg.n
    requires |shares| < |w.work.gathered[s]| && Answered(cfg, w, w1, s, shares, blocks)
    requires w1.work.gathered[s] != [] && share <= |w1.work.queue[s]| && Served(cfg, w1, w', s, share)
    ensures Answered(cfg, w, w', s, shares + [share], blocks + [W.Sent(w1.work.queue[s], share)])
  {
    var m, g, block := |shares|, w.work.gathered[s], W.Sent(w1.work.queue[s], share);
    NextRequestor(cfg, w, s, m);
    CutOneMore(w.work.queue[s], w1.work.queue[s], shares, share, blocks);
    DeliverOneMore(w.work.replies, w1.work.replies, s, g[..m], blocks, g[m], block);
    NoteOneMore(cfg, w, w1, w', s, share, blocks);
  }

  /** What may be given away by a rank in this phase with this queue. */
  predicate Affordable(w: World, s: nat, shares: seq<nat>)
    requires s < |w.phase| == |w.work.queue|
  {
    Sum(shares) == 0 || (w.phase[s] == Working && Sum(shares) < |w.work.queue[s]|)
  }

  lemma AffordablePrefix(w: World, s: nat, shares: seq<nat>, share: nat)
    requires s < |w.phase| == |w.work.queue| && Affordable(w, s, shares + [share])
    ensures Affordable(w, s, shares)
    ensures share == 0 || (w.phase[s] == Working && Sum(shares) + share < |w.work.queue[s]|)
  {
    assert (shares + [share])[..|shares|] == shares;
    SumIsNonNegative(shares);
  }

  lemma AnswerNext(cfg: Config, w: World, w1: World, s: nat, shares: seq<nat>, share: nat, blocks: seq<seq<Item>>)
      returns (acts: seq<Action>, w': World)
    requires BaseInv(cfg, w) && BaseInv(cfg, w1) && s < cfg.n && w.phase[s] != Left && |shares| < |w.work.gathered[s]|
    requires Answered(cfg, w, w1, s, shares, blocks)
    requires Affordable(w, s, shares + [share])
    ensures Runs(cfg, w1, acts, w') && BaseInv(cfg, w') && share <= |w1.work.queue[s]|
    ensures Answered(cfg, w, w', s, shares + [share], blocks + [W.Sent(w1.work.queue[s], share)])
  {
    NextRequestor(cfg, w, s, |shares|);
    AffordablePrefix(w, s, shares, share);
    w' := ServeOne(cfg, w1, s, share);
    AnsweredOneMore(cfg, w, w1, w', s, shares, share, blocks);
    acts := [Action.Work(W.Serve(s, share))];
    RunsOne(cfg, w1, Action.Work(W.Serve(s, share)));
  }

  /** Answering the first requestors in turn is a run. */
  lemma {:induction false} AnsweringIsARun(cfg: Config, w: World, s: nat, shares: seq<nat>)
      returns (acts: seq<Action>, w': World, blocks: seq<seq<Item>>)
    requires BaseInv(cfg, w) && s < cfg.n && w.phase[s] != Left && |shares| <= |w.work.gathered[s]|
    requires Affordable(w, s, shares)
    ensures Runs(cfg, w, acts, w') && BaseInv(cfg, w') && Answered(cfg, w, w', s, shares, blocks)
    decreases |shares|
  {
    if shares == [] {
      acts, w', blocks := [], w, [];
      NoneAnswered(cfg, w, s);
    } else {
      var m := |shares| - 1;
      assert shares == shares[..m] + [shares[m]];
      AffordablePrefix(w, s, shares[..m], shares[m]);
      var first, w1, blocks1 := AnsweringIsARun(cfg, w, s, shares[..m]);
      var last;
      last, w' := AnswerNext(cfg, w, w1, s, shares[..m], shares[m], blocks1);
      RunsAppend(cfg, w, first, w1, last, w');
      acts, blocks := first + last, blocks1 + [W.Sent(w1.work.queue[s], shares[m])];
    }
  }

  // ---------------------------------------------------------------- the whole call

  lemma ChooseShares(w: World, s: nat, splitEqual: bool, rcount: nat, pick: nat) returns (shares: seq<nat>)
    requires s < |w.phase| == |w.work.queue| && w.phase[s] != Left
    ensures |shares| == rcount && Affordable(w, s, shares)
    ensures if rcount == 0 || w.phase[s] == CleanUp || w.work.queue[s] == []
      then forall i | 0 <= i < rcount :: shares[i] == 0
      else shares == Sizes(splitEqual, |w.work.queue[s]|, rcount, pick)[1..]
  {
    shares := seq(rcount, _ => 0);
    SumOfZeros(shares);
    if rcount > 0 && w.phase[s] != CleanUp && w.work.queue[s] != [] {
      SizesAreFair(splitEqual, |w.work.queue[s]|, rcount, pick);
      shares := Sizes(splitEqual, |w.work.queue[s]|, rcount, pick)[1..];
    }
  }

  /**
   * A call of workreqCheck that finds the requests `reqs` is a run: it collects them all and
   * answers them all, dividing the queue by the sizes the call chooses.
   */
  lemma RequestCallIsARun(cfg: Config, w: World, s: nat, reqs: seq<nat>, splitEqual: bool, pick: nat)
      returns (acts: seq<Action>, w1: World, w': World, shares: seq<nat>, blocks: seq<seq<Item>>)
    requires BaseInv(cfg, w) && s < cfg.n && w.phase[s] != Left && w.work.gathered[s] == []
    requires multiset(reqs) <= w.work.requests[s]
    ensures Runs(cfg, w, acts, w') && BaseInv(cfg, w')
    ensures BaseInv(cfg, w1) && Collected(cfg, w, w1, s, reqs) && w1.work.gathered[s] == reqs
    ensures |shares| == |reqs|
    ensures if reqs == [] || w.phase[s] == CleanUp || w.work.queue[s] == []
      then forall i | 0 <= i < |shares| :: shares[i] == 0
      else shares == Sizes(splitEqual, |w.work.queue[s]|, |reqs|, pick)[1..]
    ensures Answered(cfg, w1, w', s, shares, blocks) && w'.work.gathered[s] == []
  {
    var first, second;
    first, w1 := CollectingIsARun(cfg, w, s, reqs);
    shares := ChooseShares(w, s, splitEqual, |reqs|, pick);
    second, w', blocks := AnsweringIsARun(cfg, w1, s, shares);
    RunsAppend(cfg, w, first, w1, second, w');
    acts := first + second;
  }
}
