/**
 * How many steps the allreduce can take to notice that all work is done, and a run in which it does.  All
 * of it holds with the flag shadowed as well.
 */
module TreeDetection {
  import opened Common
  import opened KaryTree
  import opened System
  import opened Invariants
  import opened TreeSafety
  import opened EndToEnd
  import opened DetectionBound
  import opened Stragglers
  import V = TreeWave

  function AsTermStep(m: V.Move): TermStep {
    match m
    case Absorbing(r, src) => TermAbsorb(r, src)
    case Raising(r) => TermRaise(r)
    case Lowering(r) => TermLower(r)
    case Finishing => TermFinish
  }

  lemma MoveIsEnabled(cfg: Config, w: World, m: V.Move)
    requires Shaped(cfg, w) && 0 < cfg.k && cfg.tree && V.CanMove(cfg.n, cfg.k, w.term, m)
    requires var r := if m.Finishing? then 0 else m.r; r < cfg.n ==> Polls(cfg, w, r) && w.work.outstanding[r] == 0
    ensures Enabled(cfg, w, Action.Term(AsTermStep(m)))
  {
  }

  /** With all work done and acknowledged, until the decision, some rank can always advance the allreduce. */
  lemma TreeNeverStuck(cfg: Config, w: World)
    requires Reachable(cfg, w) && cfg.tree && w.phase[0] == Working
    requires forall r: nat | r < cfg.n :: SpentAt(cfg, w, r)
    ensures exists a: Action :: a.Term? && Enabled(cfg, w, a)
  {
    ReachableBase(cfg, w);
    ReachableStage(cfg, w);
    V.NeverStuck(cfg.n, cfg.k, w.term);
    var m :| V.CanMove(cfg.n, cfg.k, w.term, m);
    var r := if m.Finishing? then 0 else m.r;
    assert SpentAt(cfg, w, r) && StageAt(cfg, w, r);
    MoveIsEnabled(cfg, w, m);
  }

  // ---------------------------------------------------------------- steps

  /** Steps `c` has taken part in: three a round for a rank with a parent, one for the root. */
  function Taken(x: V.Wave, c: nat): nat
    requires c < |x.up| == |x.rise| == |x.round|
  {
    if c == 0 then x.round[0]
    else 3 * x.round[c] + if !x.up[c] then 0 else if x.rise[c] != [] then 1 else 2
  }

  function AllTaken(n: nat, x: V.Wave): (s: seq<int>)
    requires |x.up| == |x.rise| == |x.round| == n
    ensures |s| == n
  {
    seq(n, c requires 0 <= c < n => Taken(x, c))
  }

  /** Every step of a wave advances exactly one rank by one. */
  lemma WaveStepCounts(n: nat, k: nat, x: V.Wave, x': V.Wave, c: nat)
    requires V.Shaped(n, x) && V.Shaped(n, x') && c < n
    requires Taken(x', c) == Taken(x, c) + 1 && forall d: nat | d < n && d != c :: Taken(x', d) == Taken(x, d)
    ensures Sum(AllTaken(n, x')) == Sum(AllTaken(n, x)) + 1
  {
    var s := AllTaken(n, x);
    assert AllTaken(n, x') == s[c := s[c] + 1];
    SumUpdate(s, c, s[c] + 1);
  }

  lemma AbsorbTakes(n: nat, k: nat, x: V.Wave, r: nat, src: nat)
    requires V.WaveInv(n, k, x) && V.CanAbsorb(n, k, x, r, src)
    ensures Sum(AllTaken(n, V.Absorb(n, k, x, r, src))) == Sum(AllTaken(n, x)) + 1
  {
    V.ProbeFindsOnlyChildren(n, k, x, r, src);
    WaveStepCounts(n, k, x, V.Absorb(n, k, x, r, src), src);
  }

  lemma RaiseTakes(n: nat, k: nat, x: V.Wave, r: nat, v: bool)
    requires V.WaveInv(n, k, x) && V.CanRaise(n, k, x, r)
    ensures Sum(AllTaken(n, V.Raise(n, k, x, r, v))) == Sum(AllTaken(n, x)) + 1
  {
    assert V.EdgeOk(x, r, Parent(r, k));
    WaveStepCounts(n, k, x, V.Raise(n, k, x, r, v), r);
  }

  lemma LowerTakes(n: nat, k: nat, x: V.Wave, r: nat)
    requires V.WaveInv(n, k, x) && V.CanLower(n, k, x, r)
    ensures Sum(AllTaken(n, V.Lower(n, k, x, r))) == Sum(AllTaken(n, x)) + 1
  {
    assert V.EdgeOk(x, r, Parent(r, k));
    WaveStepCounts(n, k, x, V.Lower(n, k, x, r), r);
  }

  lemma FinishTakes(n: nat, k: nat, x: V.Wave, v: bool)
    requires V.WaveInv(n, k, x) && V.CanFinish(n, k, x)
    ensures Sum(AllTaken(n, V.Finish(n, k, x, v))) == Sum(AllTaken(n, x)) + 1
  {
    WaveStepCounts(n, k, x, V.Finish(n, k, x, v), 0);
  }

  lemma TermStepTakes(cfg: Config, w: World, a: TermStep)
    requires Shaped(cfg, w) && V.WaveInv(cfg.n, cfg.k, w.term) && TermEnabled(cfg, w, a)
    ensures Shaped(cfg, ApplyTerm(cfg, w, a))
    ensures Sum(AllTaken(cfg.n, ApplyTerm(cfg, w, a).term)) == Sum(AllTaken(cfg.n, w.term)) + 1
  {
    match a
    case TermAbsorb(r, src) => AbsorbTakes(cfg.n, cfg.k, w.term, r, src);
    case TermRaise(r) => RaiseTakes(cfg.n, cfg.k, w.term, r, SentFlag(cfg.asWritten, w.flag[r]));
    case TermLower(r) => LowerTakes(cfg.n, cfg.k, w.term, r);
    case TermFinish => FinishTakes(cfg.n, cfg.k, w.term, RootFlag(cfg.asWritten, w.flag[0]));
  }

  function TermSteps(acts: seq<Action>): nat {
    if acts == [] then 0 else (if acts[0].Term? then 1 else 0) + TermSteps(acts[1..])
  }

  /** The root has at most completed the wave in progress at round `m` and the one after it. */
  ghost predicate Detecting(cfg: Config, w: World, m: nat) {
    TreeSpent(cfg, w, m) && (w.phase[0] == Working ==> w.term.round[0] <= m + 2)
  }

  lemma RootStaysStopped(cfg: Config, w: World, a: Action)
    requires Enabled(cfg, w, a) && w.phase[0] != Working
    ensures |Apply(cfg, w, a).phase| == cfg.n && Apply(cfg, w, a).phase[0] != Working
  {
  }

  lemma OnlyFinishCountsRounds(cfg: Config, w: World, a: TermStep)
    requires Shaped(cfg, w) && TermEnabled(cfg, w, a) && !a.TermFinish?
    ensures Shaped(cfg, ApplyTerm(cfg, w, a)) && ApplyTerm(cfg, w, a).term.round[0] == w.term.round[0]
  {
  }

  lemma FinishCountsRound(cfg: Config, w: World)
    requires Shaped(cfg, w) && TermEnabled(cfg, w, TermFinish)
    ensures Shaped(cfg, ApplyTerm(cfg, w, TermFinish))
    ensures ApplyTerm(cfg, w, TermFinish).term.round[0] == w.term.round[0] + 1 && w.phase[0] == Working
  {
  }

  lemma DetectingStep(cfg: Config, w: World, a: Action, m: nat)
    requires Detecting(cfg, w, m) && Enabled(cfg, w, a)
    ensures Detecting(cfg, Apply(cfg, w, a), m)
    ensures Sum(AllTaken(cfg.n, Apply(cfg, w, a).term)) == Sum(AllTaken(cfg.n, w.term)) + if a.Term? then 1 else 0
  {
    SpentStep(cfg, w, a, m);
    if w.phase[0] != Working { RootStaysStopped(cfg, w, a); }
    if a.Term? {
      TermStepTakes(cfg, w, a.term);
      if a.term.TermFinish? {
        FinishCountsRound(cfg, w);
        if w.term.round[0] >= m + 2 { LateFinishStops(cfg, w, m); }
      } else {
        OnlyFinishCountsRounds(cfg, w, a.term);
      }
    } else {
      SpentFrame(cfg, w, a, m);
    }
  }

  lemma {:induction false} DetectingRun(cfg: Config, w: World, acts: seq<Action>, w': World, m: nat)
    requires Detecting(cfg, w, m) && Runs(cfg, w, acts, w')
    ensures Detecting(cfg, w', m)
    ensures Sum(AllTaken(cfg.n, w'.term)) == Sum(AllTaken(cfg.n, w.term)) + TermSteps(acts)
    decreases |acts|
  {
    if acts != [] {
      DetectingStep(cfg, w, acts[0], m);
      DetectingRun(cfg, Apply(cfg, w, acts[0]), acts[1..], w', m);
    }
  }

  /** How far apart two totals can be when the rank-wise counts are at most `d` apart. */
  lemma {:induction false} SumsAreClose(s: seq<int>, t: seq<int>, d: nat)
    requires |s| == |t| && forall i | 0 <= i < |s| :: t[i] <= s[i] + d
    ensures Sum(t) <= Sum(s) + d * |s|
  {
    if s != [] { SumsAreClose(s[..|s| - 1], t[..|t| - 1], d); }
  }

  /** A rank is at most one round behind the root and then has sent up; it is never ahead. */
  lemma TakenBetween(n: nat, k: nat, x: V.Wave, c: nat)
    requires V.WaveInv(n, k, x) && c < n
    ensures c > 0 ==> 3 * x.round[0] - 2 <= Taken(x, c) <= 3 * x.round[0] + 2
  {
    assert V.RoundOk(x, c);
  }

  /** Steps of the allreduce, per rank, from the moment all work is done until the root decides. */
  const DETECTION_STEPS: nat := 10

  /**
   * From any reachable state in which all work is done and acknowledged, no run in which the root is
   * still working takes more than ten steps of the allreduce per rank.
   */
  lemma TreeDetectsInTenStepsPerRank(cfg: Config, w: World, acts: seq<Action>, w': World)
    requires Reachable(cfg, w) && cfg.tree && Runs(cfg, w, acts, w')
    requires forall r: nat | r < cfg.n :: SpentAt(cfg, w, r)
    ensures Shaped(cfg, w') && (w'.phase[0] == Working ==> TermSteps(acts) <= DETECTION_STEPS * cfg.n)
  {
    var m := w.term.round[0];
    StartsSpent(cfg, w);
    DetectingRun(cfg, w, acts, w', m);
    if w'.phase[0] == Working {
      var s, t := AllTaken(cfg.n, w.term), AllTaken(cfg.n, w'.term);
      forall c: nat | c < cfg.n ensures t[c] <= s[c] + DETECTION_STEPS {
        TakenBetween(cfg.n, cfg.k, w.term, c);
        TakenBetween(cfg.n, cfg.k, w'.term, c);
      }
      SumsAreClose(s, t, DETECTION_STEPS);
    }
  }

  // ---------------------------------------------------------------- a run to the decision

  /** `budget` more steps of the allreduce suffice. */
  lemma {:induction false} RootDecides(cfg: Config, w: World, m: nat, budget: nat) returns (w': World)
    requires Reachable(cfg, w) && Detecting(cfg, w, m)
    requires 3 * (m + 3) * cfg.n <= Sum(AllTaken(cfg.n, w.term)) + budget
    ensures Reachable(cfg, w') && Leads(cfg, w, w') && Detecting(cfg, w', m) && w'.phase[0] != Working
    decreases budget
  {
    if w.phase[0] != Working {
      w' := w;
      LeadsNowhere(cfg, w);
    } else {
      forall r: nat | r < cfg.n ensures SpentAt(cfg, w, r) { SpentNow(cfg, w, m, r); }
      TreeNeverStuck(cfg, w);
      var a: Action :| a.Term? && Enabled(cfg, w, a);
      DetectingStep(cfg, w, a, m);
      var u := StepOn(cfg, w, a);
      TotalBelow(cfg, w, m);
      w' := RootDecides(cfg, u, m, budget - 1);
      LeadsOn(cfg, w, u, w');
    }
  }

  lemma SpentNow(cfg: Config, w: World, m: nat, r: nat)
    requires TreeSpent(cfg, w, m) && r < cfg.n
    ensures SpentAt(cfg, w, r)
  {
  }

  /** While the root is undecided there is room below the bound. */
  lemma TotalBelow(cfg: Config, w: World, m: nat)
    requires Detecting(cfg, w, m) && w.phase[0] == Working
    ensures Sum(AllTaken(cfg.n, w.term)) < 3 * (m + 3) * cfg.n
  {
    var s, t := seq(cfg.n, _ => 0), AllTaken(cfg.n, w.term);
    var d: nat := 3 * m + 8;
    forall c: nat | c < cfg.n ensures t[c] <= s[c] + d { TakenBetween(cfg.n, cfg.k, w.term, c); }
    SumsAreClose(s, t, d);
    SumOfZeros(s);
    assert d * cfg.n < (d + 1) * cfg.n == 3 * (m + 3) * cfg.n;
  }

  lemma TakenSoFar(cfg: Config, w: World, m: nat) returns (budget: nat)
    requires Shaped(cfg, w)
    ensures 3 * (m + 3) * cfg.n <= Sum(AllTaken(cfg.n, w.term)) + budget
  {
    SumIsNonNegative(AllTaken(cfg.n, w.term));
    budget := 3 * (m + 3) * cfg.n;
  }

  /** With all work done and acknowledged, shadowed flag or not, a run leads to the root's decision. */
  lemma TreeDecides(cfg: Config, w: World) returns (w': World)
    requires Reachable(cfg, w) && cfg.tree && forall r: nat | r < cfg.n :: SpentAt(cfg, w, r)
    ensures Reachable(cfg, w') && Leads(cfg, w, w') && w'.phase[0] != Working
    ensures forall r: nat | r < cfg.n :: SpentAt(cfg, w', r)
  {
    StartsSpent(cfg, w);
    var m := w.term.round[0];
    var budget: nat := TakenSoFar(cfg, w, m);
    w' := RootDecides(cfg, w, m, budget);
    forall r: nat | r < cfg.n ensures SpentAt(cfg, w', r) { SpentNow(cfg, w', m, r); }
  }
}
