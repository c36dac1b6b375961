/**
 * The whole machine: `n` ranks running the main loop, any interleaving, any delay.
 *
 * Each protocol owns one layer of the state; an action is one micro-step of one handler at one
 * rank.  A call of a handler is a sequence of such steps, so the system allows every
 * interleaving of calls and more.
 */
module System {
  import opened Common
  import opened KaryTree
  import W = WorkProtocol
  import V = TreeWave
  import R = TokenRing
  import D = BackgroundReduce
  import Folding

  /**
   * `tree` selects tree termination instead of the token ring.
   * `asWritten` keeps the local variable that shadows `term_flag`; without it the member is
   * sent, captured and reset, as the comments describe.
   * `delivery` adds the guard that a rank passes the token on only when no work is in flight to it.
   */
  datatype Config = Config(n: nat, k: nat, tree: bool, asWritten: bool, delivery: bool, op: Folding.Op)

  datatype Phase = Working | CleanUp | Left

  datatype World = World(
    phase: seq<Phase>,
    work: W.Work,
    flag: seq<bool>,         // term_flag (the member)
    term: V.Wave,            // termination allreduce
    ring: R.Ring,
    started: seq<bool>,      // barrier_started
    bar: V.Wave,             // clean-up barrier
    red: D.Reduction)

  datatype TermStep = TermAbsorb(r: nat, src: nat) | TermRaise(r: nat) | TermLower(r: nat) | TermFinish
  datatype TokenStep = TokenSend(r: nat) | TokenReceive(r: nat) | TokenTest(r: nat)
  datatype BarStep =
    BarStart(r: nat) | BarAbsorb(r: nat, src: nat) | BarRaise(r: nat) | BarLower(r: nat) | BarFinish
  datatype RedStep =
    RedBegin(r: nat, val: Item) | RedRefuse(r: nat) | RedGather(r: nat, src: nat) | RedReply(r: nat)

  datatype Action =
    | Work(work: W.WorkStep)
    | Term(term: TermStep)
    | Token(token: TokenStep)
    | Bar(bar: BarStep)
    | Red(red: RedStep)

  ghost predicate Shaped(cfg: Config, w: World) {
    && 0 < cfg.n && 0 < cfg.k
    && |w.phase| == |w.flag| == |w.started| == cfg.n
    && W.Shaped(cfg.n, w.work) && V.Shaped(cfg.n, w.term) && V.Shaped(cfg.n, w.bar)
    && R.Shaped(cfg.n, w.ring) && D.Shaped(cfg.n, w.red)
  }

  ghost predicate Init(cfg: Config, w: World) {
    && Shaped(cfg, w)
    && (forall r | 0 <= r < cfg.n :: w.phase[r] == Working && w.flag[r] && !w.started[r])
    && W.Init(cfg.n, w.work) && D.Init(cfg.n, w.red)
    && w.term == w.bar == V.Start(cfg.n) && w.ring == R.Start(cfg.n)
  }

  /** Which phase of the main loop runs the handler that takes this work step. */
  predicate WorkGuard(w: World, a: W.WorkStep) {
    match a
    case Ask(r, _) => r < |w.phase| && w.phase[r] == Working
    case Collect(s, _) => s < |w.phase| && w.phase[s] != Left
    case Serve(s, share) => s < |w.phase| && w.phase[s] != Left && (w.phase[s] == CleanUp ==> share == 0)
    case Accept(r, _) =>
      r < |w.phase| && r < |w.work.queue| && w.phase[r] != Left && (w.phase[r] == Working ==> w.work.queue[r] == [])
    case Acknowledge(s) => s < |w.phase| && w.phase[s] == Working
    case Process(r, _) => r < |w.phase| && w.phase[r] == Working
  }

  /** `r` is idle in the work loop, so it polls the termination protocol. */
  predicate Polls(cfg: Config, w: World, r: nat)
    requires |w.phase| == |w.work.queue| == cfg.n
  {
    r < cfg.n && w.phase[r] == Working && w.work.queue[r] == []
  }

  /** checkForTermAllReduce makes no progress past the children's messages while transfers are outstanding. */
  predicate TermEnabled(cfg: Config, w: World, a: TermStep)
    requires Shaped(cfg, w)
  {
    && cfg.tree
    && match a
       case TermAbsorb(r, src) => Polls(cfg, w, r) && V.CanAbsorb(cfg.n, cfg.k, w.term, r, src)
       case TermRaise(r) => Polls(cfg, w, r) && w.work.outstanding[r] == 0 && V.CanRaise(cfg.n, cfg.k, w.term, r)
       case TermLower(r) => Polls(cfg, w, r) && w.work.outstanding[r] == 0 && V.CanLower(cfg.n, cfg.k, w.term, r)
       case TermFinish => Polls(cfg, w, 0) && w.work.outstanding[0] == 0 && V.CanFinish(cfg.n, cfg.k, w.term)
  }

  ghost predicate TokenEnabled(cfg: Config, w: World, a: TokenStep)
    requires Shaped(cfg, w)
  {
    && !cfg.tree
    && match a
       case TokenSend(r) =>
         Polls(cfg, w, r) && R.CanSend(cfg.n, w.ring, r) && (cfg.delivery ==> !W.HasWork(w.work.replies[r]))
       case TokenReceive(r) =>
         && R.CanReceive(cfg.n, w.ring, r)
         && ((Polls(cfg, w, r) && !w.ring.local[r] && w.ring.proc[r] != R.Terminate) || w.phase[r] == CleanUp)
       case TokenTest(r) => R.CanTest(cfg.n, w.ring, r) && w.phase[r] == CleanUp
  }

  /** The rank is in clean-up and has called barrierStart. */
  predicate InBarrier(w: World, r: nat) {
    r < |w.phase| == |w.started| && w.phase[r] == CleanUp && w.started[r]
  }

  /** Nothing this rank has sent is still waiting for an answer. */
  predicate Clear(cfg: Config, w: World, r: nat)
    requires Shaped(cfg, w) && r < cfg.n
  {
    w.work.asked[r] == None && !w.red.out[r] && !w.ring.pending[r]
  }

  predicate BarEnabled(cfg: Config, w: World, a: BarStep)
    requires Shaped(cfg, w)
  {
    match a
    case BarStart(r) => r < cfg.n && w.phase[r] == CleanUp && Clear(cfg, w, r)
    case BarAbsorb(r, src) => V.CanAbsorb(cfg.n, cfg.k, w.bar, r, src) && InBarrier(w, r)
    case BarRaise(r) => V.CanRaise(cfg.n, cfg.k, w.bar, r) && InBarrier(w, r)
    case BarLower(r) => V.CanLower(cfg.n, cfg.k, w.bar, r) && InBarrier(w, r)
    case BarFinish => V.CanFinish(cfg.n, cfg.k, w.bar) && InBarrier(w, 0)
  }

  predicate RedEnabled(cfg: Config, w: World, a: RedStep)
    requires Shaped(cfg, w)
  {
    match a
    case RedBegin(r, _) => D.CanBegin(cfg.n, w.red, r) && w.phase[r] == Working
    case RedRefuse(r) => D.CanRefuse(cfg.n, w.red, r) && w.phase[r] == CleanUp
    case RedGather(r, src) =>
      D.CanGather(cfg.n, cfg.k, w.red, r, src) && D.Parses(w.red.up[src]) && w.phase[r] != Left
    case RedReply(r) => D.CanReply(cfg.n, cfg.k, w.red, r) && w.phase[r] != Left
  }

  ghost predicate Enabled(cfg: Config, w: World, a: Action) {
    && Shaped(cfg, w)
    && match a
       case Work(step) => WorkGuard(w, step) && W.Enabled(cfg.n, w.work, step)
       case Term(step) => TermEnabled(cfg, w, step)
       case Token(step) => TokenEnabled(cfg, w, step)
       case Bar(step) => BarEnabled(cfg, w, step)
       case Red(step) => RedEnabled(cfg, w, step)
  }

  ghost function ApplyWork(cfg: Config, w: World, a: W.WorkStep): World
    requires Shaped(cfg, w) && W.Enabled(cfg.n, w.work, a)
  {
    var w1 := w.(work := W.Apply(cfg.n, w.work, a));
    match a
    case Serve(s, share) =>
      if share > 0 then w1.(ring := R.Paint(cfg.n, w.ring, s, w.work.gathered[s][0])) else w1
    case Acknowledge(s) => w1.(flag := w.flag[s := false])
    case _ => w1
  }

  /** The value a rank contributes to the allreduce, the root's result, and the flag afterwards. */
  function SentFlag(asWritten: bool, flag: bool): bool {
    if asWritten then false else flag
  }

  function RootFlag(asWritten: bool, flag: bool): bool {
    if asWritten then true else flag
  }

  function FlagAfter(asWritten: bool, flag: bool): bool {
    if asWritten then flag else true
  }

  function ApplyTerm(cfg: Config, w: World, a: TermStep): World
    requires Shaped(cfg, w) && TermEnabled(cfg, w, a)
  {
    var n, k := cfg.n, cfg.k;
    match a
    case TermAbsorb(r, src) =>
      w.(term := V.Absorb(n, k, w.term, r, src),
         flag := w.flag[r := w.flag[r] && V.AbsorbedFlag(n, k, w.term, r, src)])
    case TermRaise(r) =>
      w.(term := V.Raise(n, k, w.term, r, SentFlag(cfg.asWritten, w.flag[r])),
         flag := w.flag[r := FlagAfter(cfg.asWritten, w.flag[r])])
    case TermLower(r) =>
      w.(term := V.Lower(n, k, w.term, r), phase := w.phase[r := if w.term.fall[r][0] then CleanUp else Working])
    case TermFinish =>
      var v := RootFlag(cfg.asWritten, w.flag[0]);
      w.(term := V.Finish(n, k, w.term, v), flag := w.flag[0 := FlagAfter(cfg.asWritten, w.flag[0])],
         phase := w.phase[0 := if v then CleanUp else Working])
  }

  ghost function ApplyToken(cfg: Config, w: World, a: TokenStep): World
    requires Shaped(cfg, w) && TokenEnabled(cfg, w, a)
  {
    match a
    case TokenSend(r) => w.(ring := R.Send(cfg.n, w.ring, r))
    case TokenReceive(r) =>
      var ring := R.Receive(cfg.n, w.ring, r);
      w.(ring := ring, phase := w.phase[r := if ring.proc[r] == R.Terminate then CleanUp else w.phase[r]])
    case TokenTest(r) => w.(ring := R.Test(cfg.n, w.ring, r))
  }

  function ApplyBar(cfg: Config, w: World, a: BarStep): World
    requires Shaped(cfg, w) && BarEnabled(cfg, w, a)
  {
    var n, k := cfg.n, cfg.k;
    match a
    case BarStart(r) => w.(started := w.started[r := true])
    case BarAbsorb(r, src) => w.(bar := V.Absorb(n, k, w.bar, r, src))
    case BarRaise(r) => w.(bar := V.Raise(n, k, w.bar, r, true))
    case BarLower(r) =>
      w.(bar := V.Lower(n, k, w.bar, r), started := w.started[r := false], phase := w.phase[r := Left])
    case BarFinish =>
      w.(bar := V.Finish(n, k, w.bar, true), started := w.started[0 := false], phase := w.phase[0 := Left])
  }

  function ApplyRed(cfg: Config, w: World, a: RedStep): World
    requires Shaped(cfg, w) && RedEnabled(cfg, w, a)
  {
    var n, k := cfg.n, cfg.k;
    match a
    case RedBegin(r, val) => w.(red := D.Begin(n, k, w.red, r, val))
    case RedRefuse(r) => w.(red := D.Refuse(n, w.red, r))
    case RedGather(r, src) => w.(red := D.Gather(n, k, w.red, cfg.op, r, src))
    case RedReply(r) => w.(red := D.Reply(n, k, w.red, r, w.work.handled[r]))
  }

  ghost function Apply(cfg: Config, w: World, a: Action): World
    requires Enabled(cfg, w, a)
  {
    match a
    case Work(step) => ApplyWork(cfg, w, step)
    case Term(step) => ApplyTerm(cfg, w, step)
    case Token(step) => ApplyToken(cfg, w, step)
    case Bar(step) => ApplyBar(cfg, w, step)
    case Red(step) => ApplyRed(cfg, w, step)
  }

  /** Only work steps touch queues, requests, replies and receipts. */
  lemma TermKeepsWork(cfg: Config, w: World, a: TermStep)
    requires Shaped(cfg, w) && TermEnabled(cfg, w, a)
    ensures Shaped(cfg, ApplyTerm(cfg, w, a)) && ApplyTerm(cfg, w, a).work == w.work
  {
  }

  lemma TokenKeepsWork(cfg: Config, w: World, a: TokenStep)
    requires Shaped(cfg, w) && TokenEnabled(cfg, w, a)
    ensures Shaped(cfg, ApplyToken(cfg, w, a)) && ApplyToken(cfg, w, a).work == w.work
  {
  }

  lemma BarKeepsWork(cfg: Config, w: World, a: BarStep)
    requires Shaped(cfg, w) && BarEnabled(cfg, w, a)
    ensures Shaped(cfg, ApplyBar(cfg, w, a)) && ApplyBar(cfg, w, a).work == w.work
  {
  }

  lemma RedKeepsWork(cfg: Config, w: World, a: RedStep)
    requires Shaped(cfg, w) && RedEnabled(cfg, w, a)
    ensures Shaped(cfg, ApplyRed(cfg, w, a)) && ApplyRed(cfg, w, a).work == w.work
  {
  }

  /** A work step does to the work layer what the work layer says. */
  lemma WorkStepIsOwn(cfg: Config, w: World, a: W.WorkStep)
    requires Shaped(cfg, w) && W.Enabled(cfg.n, w.work, a)
    ensures Shaped(cfg, ApplyWork(cfg, w, a)) && ApplyWork(cfg, w, a).work == W.Apply(cfg.n, w.work, a)
  {
  }

  lemma OtherStepKeepsWork(cfg: Config, w: World, a: Action)
    requires Enabled(cfg, w, a) && !a.Work?
    ensures Shaped(cfg, Apply(cfg, w, a)) && Apply(cfg, w, a).work == w.work
  {
    match a
    case Term(step) => TermKeepsWork(cfg, w, step);
    case Token(step) => TokenKeepsWork(cfg, w, step);
    case Bar(step) => BarKeepsWork(cfg, w, step);
    case Red(step) => RedKeepsWork(cfg, w, step);
    case Work(_) =>
  }

  /** What an action does, if it is enabled. */
  ghost function Next(cfg: Config): (World, Action) -> Option<World> {
    (w, a) => if Enabled(cfg, w, a) then Some(Apply(cfg, w, a)) else None
  }

  /** Taking `acts` in order leads from `w` to `w'`. */
  ghost predicate Runs(cfg: Config, w: World, acts: seq<Action>, w': World) {
    Path(Next(cfg), w, acts, w')
  }

  ghost predicate Reachable(cfg: Config, w: World) {
    Shaped(cfg, w) && exists w0, acts :: Init(cfg, w0) && Runs(cfg, w0, acts, w)
  }

  lemma RunsCons(cfg: Config, w: World, a: Action, rest: seq<Action>, w': World)
    requires Enabled(cfg, w, a) && Runs(cfg, Apply(cfg, w, a), rest, w')
    ensures Runs(cfg, w, [a] + rest, w')
  {
    assert ([a] + rest)[1..] == rest;
  }

  lemma RunsAppend(cfg: Config, w: World, acts: seq<Action>, w': World, acts': seq<Action>, w'': World)
    requires Runs(cfg, w, acts, w') && Runs(cfg, w', acts', w'')
    ensures Runs(cfg, w, acts + acts', w'')
  {
    PathAppend(Next(cfg), w, acts, w', acts', w'');
  }

  lemma RunsOne(cfg: Config, w: World, a: Action)
    requires Enabled(cfg, w, a)
    ensures Runs(cfg, w, [a], Apply(cfg, w, a))
  {
    assert [a][1..] == [];
  }
}
