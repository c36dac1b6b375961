/**
 * One call of a handler at one rank, and the steps of the machine it amounts to.
 *
 * What the probes find is a parameter: the children's messages that are there, in the order in
 * which the any-source probe picks them, and whether the parent's message is seen.
 */
module HandlerCalls {
  import opened Common
  import opened KaryTree
  import opened System
  import opened Invariants
  import V = TreeWave

  // ---------------------------------------------------------------- checkForTermAllReduce

  datatype TermLocal = TermLocal(flag: bool, up: bool, replies: nat)

  /** State afterwards, flag sent to the parent, whether the parent's message was taken, result sent down. */
  datatype TermCall = TermCall(after: TermLocal, sentUp: Option<bool>, tookDown: bool, sentDown: Option<bool>)

  /** Children's messages are taken while replies are missing. */
  function TakeFlags(t: TermLocal, nch: nat, arrivals: seq<bool>): TermLocal
    decreases |arrivals|
  {
    if arrivals == [] || t.replies >= nch then t
    else TakeFlags(t.(flag := t.flag && arrivals[0], replies := t.replies + 1), nch, arrivals[1..])
  }

  function FlagsTaken(t: TermLocal, nch: nat, arrivals: seq<bool>): nat {
    if t.replies >= nch then 0 else if |arrivals| <= nch - t.replies then |arrivals| else nch - t.replies
  }

  /** The rest of the call, after the children's messages. */
  function Progress(asWritten: bool, isRoot: bool, nch: nat, outstanding: nat, t: TermLocal,
        down: Option<bool>): TermCall
  {
    if outstanding > 0 then TermCall(t, None, false, None) else
      var raise := !t.up && t.replies == nch;
      var t1 := if raise then t.(flag := FlagAfter(asWritten, t.flag), up := true) else t;
      var sentUp := if raise && !isRoot then Some(SentFlag(asWritten, t.flag)) else None;
      var done := TermLocal(t1.flag, false, 0);
      if t1.up && isRoot then TermCall(done, sentUp, false, Some(raise && RootFlag(asWritten, t.flag)))
      else if t1.up && down.Some? then TermCall(done, sentUp, true, Some(down.value))
      else TermCall(t1, sentUp, false, None)
  }

  /** As many flags are taken as are there and needed, and all of them have to be set. */
  lemma {:induction false} FlagsAreAnded(t: TermLocal, nch: nat, arrivals: seq<bool>)
    ensures var taken := FlagsTaken(t, nch, arrivals);
      && taken <= |arrivals| && (taken == |arrivals| || t.replies + taken >= nch)
      && (taken == 0 || t.replies + taken <= nch)
      && TakeFlags(t, nch, arrivals)
      == TermLocal(t.flag && forall i | 0 <= i < taken :: arrivals[i], t.up, t.replies + taken)
    decreases |arrivals|
  {
    if arrivals != [] && t.replies < nch {
      var t1 := t.(flag := t.flag && arrivals[0], replies := t.replies + 1);
      var taken, rest := FlagsTaken(t, nch, arrivals), arrivals[1..];
      FlagsAreAnded(t1, nch, rest);
      assert taken == FlagsTaken(t1, nch, rest) + 1;
      assert forall i | 1 <= i < taken :: arrivals[i] == rest[i - 1];
      assert forall i | 0 <= i < taken - 1 :: rest[i] == arrivals[i + 1];
    }
  }

  /**
   * What a call does after the children's messages: nothing while transfers are outstanding.  Otherwise
   * a rank that misses no reply sends its flag up once, the root captures it, and the result goes down.
   * With the local variable in place of the member, 0 goes up, the root's result is 1 and the member stays.
   */
  predicate AllreduceRule(asWritten: bool, isRoot: bool, nch: nat, outstanding: nat, t: TermLocal,
        down: Option<bool>, call: TermCall)
  {
    var raises := outstanding == 0 && !t.up && t.replies == nch;
    var completes := outstanding == 0 && (t.up || raises) && (isRoot || down.Some?);
    && call.sentUp == (if raises && !isRoot then Some(!asWritten && t.flag) else None)
    && call.tookDown == (completes && !isRoot)
    && call.sentDown == (if !completes then None else if !isRoot then down
                         else Some(raises && (asWritten || t.flag)))
    && call.after.flag == (t.flag || (raises && !asWritten))
    && call.after.up == ((t.up || raises) && !completes)
    && call.after.replies == if completes then 0 else t.replies
  }

  lemma ProgressFollowsRule(asWritten: bool, isRoot: bool, nch: nat, outstanding: nat, t: TermLocal,
        down: Option<bool>)
    ensures AllreduceRule(asWritten, isRoot, nch, outstanding, t, down,
                          Progress(asWritten, isRoot, nch, outstanding, t, down))
  {
  }

  function Slice(w: World, r: nat): TermLocal
    requires r < |w.flag| && r < |w.term.up| && r < |w.term.replies|
  {
    TermLocal(w.flag[r], w.term.up[r], w.term.replies[r])
  }

  /** Distinct children of `r` whose messages are waiting, no more than `r` still needs. */
  ghost predicate Callers(cfg: Config, w: World, r: nat, srcs: seq<nat>)
    requires Shaped(cfg, w) && r < cfg.n
  {
    && (forall i | 0 <= i < |srcs| ::
          0 < srcs[i] < cfg.n && Parent(srcs[i], cfg.k) == r && w.term.rise[srcs[i]] != [])
    && (forall i, j | 0 <= i < j < |srcs| :: srcs[i] != srcs[j])
    && w.term.replies[r] + |srcs| <= ChildCount(r, cfg.k, cfg.n)
  }

  function FlagsFrom(w: World, srcs: seq<nat>): seq<bool>
    requires forall i | 0 <= i < |srcs| :: srcs[i] < |w.term.rise| && w.term.rise[srcs[i]] != []
  {
    seq(|srcs|, i requires 0 <= i < |srcs| => w.term.rise[srcs[i]][0])
  }

  /** Nothing but the allreduce, and the flag and phase of `r`, differ. */
  predicate OnlyTerm(w: World, w': World, r: nat) {
    && w'.work == w.work && w'.ring == w.ring && w'.bar == w.bar && w'.red == w.red && w'.started == w.started
    && |w'.flag| == |w.flag| && |w'.phase| == |w.phase| && |w'.term.up| == |w.term.up|
    && |w'.term.replies| == |w.term.replies| && |w'.term.round| == |w.term.round|
    && (forall q: nat | q < |w.flag| && q != r :: w'.flag[q] == w.flag[q])
    && (forall q: nat | q < |w.phase| && q != r :: w'.phase[q] == w.phase[q])
    && (forall q: nat | q < |w.term.up| && q != r :: w'.term.up[q] == w.term.up[q])
    && (forall q: nat | q < |w.term.replies| && q != r :: w'.term.replies[q] == w.term.replies[q])
    && (forall q: nat | q < |w.term.round| && q != r :: w'.term.round[q] == w.term.round[q])
  }

  lemma OnlyTermTwice(w: World, w1: World, w': World, r: nat)
    requires OnlyTerm(w, w1, r) && OnlyTerm(w1, w', r)
    ensures OnlyTerm(w, w', r)
  {
  }

  /** A channel after its oldest message has been taken, or not. */
  function Remaining(box: seq<bool>, taken: bool): seq<bool> {
    if taken && box != [] then box[1..] else box
  }

  /** One message of each rank in `srcs` has been taken, and no other. */
  predicate Taken(rise: seq<seq<bool>>, rise': seq<seq<bool>>, srcs: seq<nat>) {
    && |rise'| == |rise|
    && forall c: nat | c < |rise| :: rise'[c] == Remaining(rise[c], c in srcs)
  }

  lemma TakenTwice(rise: seq<seq<bool>>, rise1: seq<seq<bool>>, rise': seq<seq<bool>>, c: nat, rest: seq<nat>)
    requires c < |rise| && rise[c] != [] && rise1 == rise[c := rise[c][1..]] && Taken(rise1, rise', rest) && c !in rest
    ensures Taken(rise, rise', [c] + rest)
  {
  }

  lemma TakeOne(cfg: Config, w: World, r: nat, srcs: seq<nat>) returns (w': World)
    requires BaseInv(cfg, w) && cfg.tree && Polls(cfg, w, r) && Callers(cfg, w, r, srcs) && srcs != []
    ensures Enabled(cfg, w, Action.Term(TermAbsorb(r, srcs[0])))
    ensures w' == Apply(cfg, w, Action.Term(TermAbsorb(r, srcs[0])))
    ensures BaseInv(cfg, w') && OnlyTerm(w, w', r) && w'.phase == w.phase && w'.term.fall == w.term.fall
    ensures w'.term.rise == w.term.rise[srcs[0] := w.term.rise[srcs[0]][1..]] && srcs[0] != r
    ensures Slice(w', r) == TermLocal(w.flag[r] && w.term.rise[srcs[0]][0], w.term.up[r], w.term.replies[r] + 1)
  {
    var a := Action.Term(TermAbsorb(r, srcs[0]));
    AbsorbEffect(cfg, w, r, srcs[0]);
    StepKeepsBase(cfg, w, a);
    w' := ApplyTerm(cfg, w, TermAbsorb(r, srcs[0]));
  }

  lemma AbsorbEffect(cfg: Config, w: World, r: nat, src: nat)
    requires Shaped(cfg, w) && V.WaveInv(cfg.n, cfg.k, w.term) && cfg.tree && Polls(cfg, w, r)
    requires 0 < src < cfg.n && Parent(src, cfg.k) == r && w.term.rise[src] != []
    requires w.term.replies[r] < ChildCount(r, cfg.k, cfg.n)
    ensures TermEnabled(cfg, w, TermAbsorb(r, src)) && src != r
    ensures var w' := ApplyTerm(cfg, w, TermAbsorb(r, src));
      && Shaped(cfg, w') && OnlyTerm(w, w', r) && w'.phase == w.phase && w'.term.fall == w.term.fall
      && w'.term.rise == w.term.rise[src := w.term.rise[src][1..]]
      && Slice(w', r) == TermLocal(w.flag[r] && w.term.rise[src][0], w.term.up[r], w.term.replies[r] + 1)
  {
    V.ProbeFindsOnlyChildren(cfg.n, cfg.k, w.term, r, src);
  }

  /** After the first message has been taken, the others are still there. */
  lemma OthersStillCall(cfg: Config, w: World, w': World, r: nat, srcs: seq<nat>)
    requires Shaped(cfg, w) && r < cfg.n && Callers(cfg, w, r, srcs) && srcs != [] && Shaped(cfg, w')
    requires w'.term.rise == w.term.rise[srcs[0] := w.term.rise[srcs[0]][1..]]
    requires w'.term.replies[r] == w.term.replies[r] + 1
    ensures Callers(cfg, w', r, srcs[1..])
    ensures FlagsFrom(w, srcs) == [w.term.rise[srcs[0]][0]] + FlagsFrom(w', srcs[1..])
  {
  }

  lemma TakeFlagsOfCons(t: TermLocal, nch: nat, f: bool, rest: seq<bool>)
    requires t.replies < nch
    ensures TakeFlags(t, nch, [f] + rest) == TakeFlags(TermLocal(t.flag && f, t.up, t.replies + 1), nch, rest)
  {
    assert ([f] + rest)[1..] == rest;
  }

  /** The messages of `srcs` have been taken by `r`, in that order, and nothing else has happened. */
  ghost predicate TookFrom(cfg: Config, w: World, w': World, r: nat, srcs: seq<nat>)
    requires Shaped(cfg, w) && Shaped(cfg, w') && r < cfg.n && Callers(cfg, w, r, srcs)
  {
    && OnlyTerm(w, w', r) && w'.phase == w.phase && w'.term.fall == w.term.fall
    && Taken(w.term.rise, w'.term.rise, srcs) && r !in srcs
    && Slice(w', r) == TakeFlags(Slice(w, r), ChildCount(r, cfg.k, cfg.n), FlagsFrom(w, srcs))
  }

  lemma TookOneMore(cfg: Config, w: World, w1: World, w': World, r: nat, srcs: seq<nat>)
    requires Shaped(cfg, w) && Shaped(cfg, w1) && Shaped(cfg, w') && r < cfg.n && Callers(cfg, w, r, srcs) && srcs != []
    requires OnlyTerm(w, w1, r) && w1.phase == w.phase && w1.term.fall == w.term.fall && srcs[0] != r
    requires w1.term.rise == w.term.rise[srcs[0] := w.term.rise[srcs[0]][1..]]
    requires Slice(w1, r) == TermLocal(w.flag[r] && w.term.rise[srcs[0]][0], w.term.up[r], w.term.replies[r] + 1)
    requires Callers(cfg, w1, r, srcs[1..]) && TookFrom(cfg, w1, w', r, srcs[1..])
    ensures TookFrom(cfg, w, w', r, srcs)
  {
    OthersStillCall(cfg, w, w1, r, srcs);
    TakeFlagsOfCons(Slice(w, r), ChildCount(r, cfg.k, cfg.n), w.term.rise[srcs[0]][0], FlagsFrom(w1, srcs[1..]));
    assert srcs == [srcs[0]] + srcs[1..];
    TakenTwice(w.term.rise, w1.term.rise, w'.term.rise, srcs[0], srcs[1..]);
    OnlyTermTwice(w, w1, w', r);
  }

  lemma {:induction false} TakingIsARun(cfg: Config, w: World, r: nat, srcs: seq<nat>)
      returns (acts: seq<Action>, w': World)
    requires BaseInv(cfg, w) && cfg.tree && Polls(cfg, w, r) && Callers(cfg, w, r, srcs)
    ensures Runs(cfg, w, acts, w') && BaseInv(cfg, w') && TookFrom(cfg, w, w', r, srcs)
    decreases |srcs|
  {
    if srcs == [] {
      acts, w' := [], w;
    } else {
      var w1 := TakeOne(cfg, w, r, srcs);
      OthersStillCall(cfg, w, w1, r, srcs);
      var rest;
      rest, w' := TakingIsARun(cfg, w1, r, srcs[1..]);
      TookOneMore(cfg, w, w1, w', r, srcs);
      RunsCons(cfg, w, Action.Term(TermAbsorb(r, srcs[0])), rest, w');
      acts := [Action.Term(TermAbsorb(r, srcs[0]))] + rest;
    }
  }

  /** What the rest of the call does to the machine: to `r`, to the messages to and from it, and to nothing else. */
  predicate Performed(cfg: Config, w: World, w': World, r: nat, call: TermCall)
    requires 0 < cfg.k && r < |w.flag| && r < |w'.flag| && r < |w'.phase|
    requires r < |w.term.up| == |w.term.replies| == |w.term.rise| == |w.term.fall|
    requires |w'.term.up| == |w'.term.replies| == |w'.term.rise| == |w'.term.fall| == |w.term.up|
  {
    && Slice(w', r) == call.after && OnlyTerm(w, w', r)
    && (forall c: nat | c < |w.term.up| :: w'.term.rise[c] == w.term.rise[c] + Risen(r, c, call))
    && (forall c: nat | c < |w.term.up| ::
          w'.term.fall[c] == Remaining(w.term.fall[c], c == r && call.tookDown)
                             + Fallen(cfg, r, c, call))
    && w'.phase[r] == if call.sentDown == Some(true) then CleanUp else Working
  }

  /** What the call sends up from `c`, and down to `c`. */
  function Risen(r: nat, c: nat, call: TermCall): seq<bool> {
    if c == r && call.sentUp.Some? then [call.sentUp.value] else []
  }

  function Fallen(cfg: Config, r: nat, c: nat, call: TermCall): seq<bool>
    requires 0 < cfg.k
  {
    if 0 < c && Parent(c, cfg.k) == r && call.sentDown.Some? then [call.sentDown.value] else []
  }

  /** The step, if any, that the rest of the call takes. */
  function ProgressStep(cfg: Config, w: World, r: nat, see: bool): Option<TermStep>
    requires Shaped(cfg, w) && r < cfg.n
  {
    if w.work.outstanding[r] > 0 then None
    else if r == 0 && V.CanFinish(cfg.n, cfg.k, w.term) then Some(TermFinish)
    else if r > 0 && V.CanRaise(cfg.n, cfg.k, w.term, r) then Some(TermRaise(r))
    else if see && V.CanLower(cfg.n, cfg.k, w.term, r) then Some(TermLower(r))
    else None
  }

  /** What `Progress` says of this rank, if it sees the parent's message or not. */
  function CallOf(cfg: Config, w: World, r: nat, see: bool): TermCall
    requires Shaped(cfg, w) && r < cfg.n
  {
    var down := if see && w.term.fall[r] != [] then Some(w.term.fall[r][0]) else None;
    Progress(cfg.asWritten, r == 0, ChildCount(r, cfg.k, cfg.n), w.work.outstanding[r], Slice(w, r), down)
  }

  lemma FinishPerforms(cfg: Config, w: World, see: bool)
    requires Shaped(cfg, w) && TermEnabled(cfg, w, TermFinish)
    ensures var w' := ApplyTerm(cfg, w, TermFinish); Shaped(cfg, w') && Performed(cfg, w, w', 0, CallOf(cfg, w, 0, see))
  {
  }

  lemma RaisePerforms(cfg: Config, w: World, r: nat, see: bool)
    requires Shaped(cfg, w) && TermEnabled(cfg, w, TermRaise(r)) && w.term.fall[r] == []
    ensures var w' := ApplyTerm(cfg, w, TermRaise(r));
      Shaped(cfg, w') && Performed(cfg, w, w', r, CallOf(cfg, w, r, see))
  {
  }

  lemma LowerPerforms(cfg: Config, w: World, r: nat)
    requires Shaped(cfg, w) && TermEnabled(cfg, w, TermLower(r))
    ensures var w' := ApplyTerm(cfg, w, TermLower(r));
      Shaped(cfg, w') && Performed(cfg, w, w', r, CallOf(cfg, w, r, true))
  {
  }

  lemma NothingPerforms(cfg: Config, w: World, r: nat, see: bool)
    requires Shaped(cfg, w) && Polls(cfg, w, r) && ProgressStep(cfg, w, r, see) == None
    requires w.work.outstanding[r] == 0 && r == 0 ==> !w.term.up[0]
    ensures Performed(cfg, w, w, r, CallOf(cfg, w, r, see))
  {
  }

  lemma ProgressPerforms(cfg: Config, w: World, r: nat, see: bool)
    requires Shaped(cfg, w) && V.WaveInv(cfg.n, cfg.k, w.term) && cfg.tree && Polls(cfg, w, r)
    ensures match ProgressStep(cfg, w, r, see)
      case None => Performed(cfg, w, w, r, CallOf(cfg, w, r, see))
      case Some(a) =>
        && TermEnabled(cfg, w, a) && Shaped(cfg, ApplyTerm(cfg, w, a))
        && Performed(cfg, w, ApplyTerm(cfg, w, a), r, CallOf(cfg, w, r, see))
  {
    match ProgressStep(cfg, w, r, see)
    case None => NothingPerforms(cfg, w, r, see);
    case Some(TermFinish) => FinishPerforms(cfg, w, see);
    case Some(TermRaise(_)) =>
      assert V.EdgeOk(w.term, r, Parent(r, cfg.k));
      RaisePerforms(cfg, w, r, see);
    case Some(TermLower(_)) => LowerPerforms(cfg, w, r);
    case Some(TermAbsorb(_, _)) =>
  }

  lemma ProgressIsARun(cfg: Config, w: World, r: nat, see: bool) returns (acts: seq<Action>, w': World)
    requires BaseInv(cfg, w) && cfg.tree && Polls(cfg, w, r)
    ensures Runs(cfg, w, acts, w') && BaseInv(cfg, w')
    ensures var down := if see && w.term.fall[r] != [] then Some(w.term.fall[r][0]) else None;
      Performed(cfg, w, w', r,
        Progress(cfg.asWritten, r == 0, ChildCount(r, cfg.k, cfg.n), w.work.outstanding[r], Slice(w, r), down))
  {
    ProgressPerforms(cfg, w, r, see);
    match ProgressStep(cfg, w, r, see)
    case None =>
      acts, w' := [], w;
    case Some(a) =>
      acts, w' := [Action.Term(a)], ApplyTerm(cfg, w, a);
      StepKeepsBase(cfg, w, Action.Term(a));
      RunsOne(cfg, w, Action.Term(a));
  }

  /** The whole call: the given children's messages are taken, then the rest is performed. */
  ghost predicate Called(cfg: Config, w: World, w': World, r: nat, srcs: seq<nat>, call: TermCall)
    requires Shaped(cfg, w) && Shaped(cfg, w') && 0 < cfg.k && r < cfg.n
  {
    && Slice(w', r) == call.after && OnlyTerm(w, w', r)
    && (forall c: nat | c < cfg.n ::
          w'.term.rise[c] == Remaining(w.term.rise[c], c in srcs)
                             + Risen(r, c, call))
    && (forall c: nat | c < cfg.n ::
          w'.term.fall[c] == Remaining(w.term.fall[c], c == r && call.tookDown)
                             + Fallen(cfg, r, c, call))
    && w'.phase[r] == if call.sentDown == Some(true) then CleanUp else Working
  }

  lemma CalledInTwoParts(cfg: Config, w: World, w1: World, w': World, r: nat, srcs: seq<nat>, call: TermCall)
    requires Shaped(cfg, w) && Shaped(cfg, w1) && Shaped(cfg, w') && r < cfg.n
    requires OnlyTerm(w, w1, r) && w1.term.fall == w.term.fall && Taken(w.term.rise, w1.term.rise, srcs)
    requires Performed(cfg, w1, w', r, call)
    ensures Called(cfg, w, w', r, srcs, call)
  {
    OnlyTermTwice(w, w1, w', r);
  }

  /**
   * A call of checkForTermAllReduce at an idle rank is a run of the machine: it takes the
   * messages of the given children, does what `Progress` says, and touches nothing else.
   */
  lemma TermCallIsARun(cfg: Config, w: World, r: nat, srcs: seq<nat>, see: bool) returns (acts: seq<Action>, w': World)
    requires BaseInv(cfg, w) && cfg.tree && Polls(cfg, w, r) && Callers(cfg, w, r, srcs)
    ensures Runs(cfg, w, acts, w') && BaseInv(cfg, w')
    ensures var nch := ChildCount(r, cfg.k, cfg.n);
      var down := if see && w.term.fall[r] != [] then Some(w.term.fall[r][0]) else None;
      Called(cfg, w, w', r, srcs,
        Progress(cfg.asWritten, r == 0, nch, w.work.outstanding[r],
                 TakeFlags(Slice(w, r), nch, FlagsFrom(w, srcs)), down))
  {
    var first, w1 := TakingIsARun(cfg, w, r, srcs);
    var second;
    second, w' := ProgressIsARun(cfg, w1, r, see);
    var down := if see && w.term.fall[r] != [] then Some(w.term.fall[r][0]) else None;
    CalledInTwoParts(cfg, w, w1, w', r, srcs,
      Progress(cfg.asWritten, r == 0, ChildCount(r, cfg.k, cfg.n), w1.work.outstanding[r], Slice(w1, r), down));
    RunsAppend(cfg, w, first, w1, second, w');
    acts := first + second;
  }
}
