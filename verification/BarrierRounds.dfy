/** The non-blocking barrier on its own, over any number of rounds. */
module BarrierRounds {
  import opened Common
  import opened KaryTree
  import opened TreeWave

  datatype Barrier = Barrier(wave: Wave, started: seq<bool>)

  datatype Step = Start(r: nat) | Take(r: nat, src: nat) | SendUp(r: nat) | Complete(r: nat)

  ghost predicate BarrierShaped(n: nat, b: Barrier) {
    Shaped(n, b.wave) && |b.started| == n
  }

  /** barrierTest does nothing before barrierStart. */
  ghost predicate Enabled(n: nat, k: nat, b: Barrier, a: Step) {
    && 0 < k && 0 < n && BarrierShaped(n, b)
    && match a
       case Start(r) => r < n
       case Take(r, src) => CanAbsorb(n, k, b.wave, r, src) && b.started[r]
       case SendUp(r) => CanRaise(n, k, b.wave, r) && b.started[r]
       case Complete(r) =>
         r < n && b.started[r] && if r == 0 then CanFinish(n, k, b.wave) else CanLower(n, k, b.wave, r)
  }

  ghost function Apply(n: nat, k: nat, b: Barrier, a: Step): Barrier
    requires Enabled(n, k, b, a)
  {
    match a
    case Start(r) => b.(started := b.started[r := true])
    case Take(r, src) => b.(wave := Absorb(n, k, b.wave, r, src))
    case SendUp(r) => b.(wave := Raise(n, k, b.wave, r, true))
    case Complete(r) =>
      Barrier(if r == 0 then Finish(n, k, b.wave, true) else Lower(n, k, b.wave, r), b.started[r := false])
  }

  ghost function Next(n: nat, k: nat): (Barrier, Step) -> Option<Barrier> {
    (b, a) => if Enabled(n, k, b, a) then Some(Apply(n, k, b, a)) else None
  }

  ghost predicate Runs(n: nat, k: nat, b: Barrier, steps: seq<Step>, b': Barrier) {
    Path(Next(n, k), b, steps, b')
  }

  function Begin(n: nat): Barrier {
    Barrier(TreeWave.Start(n), seq(n, _ => false))
  }

  /** A rank that has sent up is in a round it has started. */
  ghost predicate BarrierInv(n: nat, k: nat, b: Barrier) {
    && WaveInv(n, k, b.wave) && |b.started| == n
    && forall r: nat | r < n && b.wave.up[r] :: b.started[r]
  }

  lemma StepKeepsBarrier(n: nat, k: nat, b: Barrier, a: Step)
    requires BarrierInv(n, k, b) && Enabled(n, k, b, a)
    ensures BarrierInv(n, k, Apply(n, k, b, a))
  {
    match a
    case Start(r) =>
    case Take(r, src) => AbsorbKeeps(n, k, b.wave, r, src);
    case SendUp(r) => RaiseKeeps(n, k, b.wave, r, true);
    case Complete(r) => if r == 0 { FinishKeeps(n, k, b.wave, true); } else { LowerKeeps(n, k, b.wave, r); }
  }

  lemma {:induction false} RunKeepsBarrier(n: nat, k: nat, b: Barrier, steps: seq<Step>, b': Barrier)
    requires BarrierInv(n, k, b) && Runs(n, k, b, steps, b')
    ensures BarrierInv(n, k, b')
    decreases |steps|
  {
    if steps != [] {
      StepKeepsBarrier(n, k, b, steps[0]);
      RunKeepsBarrier(n, k, Apply(n, k, b, steps[0]), steps[1..], b');
    }
  }

  /** How many rounds `r` has started, counting the one it is in. */
  function Entered(b: Barrier, r: nat): nat
    requires r < |b.started| == |b.wave.round|
  {
    b.wave.round[r] + if b.started[r] then 1 else 0
  }

  /**
   * After any number of rounds: a rank completes its next round only when every rank has started
   * that round, no two ranks are more than one round apart, and the any-source probe of a rank
   * that misses replies never takes its parent's message for a child's.
   */
  lemma BarrierIsSafe(n: nat, k: nat, steps: seq<Step>, b: Barrier, r: nat, q: nat)
    requires 0 < n && 0 < k && Runs(n, k, Begin(n), steps, b) && r < n && q < n
    ensures BarrierShaped(n, b)
    ensures Enabled(n, k, b, Complete(r)) ==> Entered(b, q) >= b.wave.round[r] + 1
    ensures b.wave.round[r] <= b.wave.round[q] + 1
    ensures forall src: nat | CanAbsorb(n, k, b.wave, r, src) :: b.wave.fall[r] == [] && b.wave.rise[src] != []
  {
    StartEstablishes(n, k);
    RunKeepsBarrier(n, k, Begin(n), steps, b);
    assert RoundOk(b.wave, r) && RoundOk(b.wave, q);
    if Enabled(n, k, b, Complete(r)) {
      if r == 0 {
        RootSeesEveryone(n, k, b.wave);
        if q > 0 { assert Arrived(b.wave, q); }
      } else {
        assert EdgeOk(b.wave, r, Parent(r, k)) && RoundOk(b.wave, Parent(r, k));
      }
    }
    forall src: nat | CanAbsorb(n, k, b.wave, r, src) ensures b.wave.fall[r] == [] && b.wave.rise[src] != [] {
      ProbeFindsOnlyChildren(n, k, b.wave, r, src);
    }
  }

  // ---------------------------------------------------------------- one call of barrierTest

  datatype BarLocal = BarLocal(started: bool, up: bool, replies: nat)

  datatype BarCall = BarCall(after: BarLocal, sentUp: bool, complete: bool)

  /** `child` and `parent` say whether the probes find a child's and the parent's message. */
  function TestCall(isRoot: bool, nch: nat, l: BarLocal, child: bool, parent: bool): BarCall {
    if !l.started then BarCall(l, false, false) else
      var l1 := if l.replies < nch && child then l.(replies := l.replies + 1) else l;
      var raise := !l1.up && l1.replies == nch;
      var up := l1.up || raise;
      if up && (isRoot || parent) then BarCall(BarLocal(false, false, 0), raise && !isRoot, true)
      else BarCall(l1.(up := up), raise && !isRoot, false)
  }

  function Slice(b: Barrier, r: nat): BarLocal
    requires r < |b.started| == |b.wave.up| == |b.wave.replies|
  {
    BarLocal(b.started[r], b.wave.up[r], b.wave.replies[r])
  }

  /**
   * What a call does to the barrier: `r` takes the message of `src` if `child` is set and its parent's if
   * the call completes; it sends one to its parent or one to each child; nothing else changes.  The
   * messages are empty, so only their numbers matter.
   */
  predicate Polled(n: nat, k: nat, b: Barrier, b': Barrier, r: nat, src: nat, child: bool, call: BarCall)
    requires 0 < k && r < n
    requires |b.started| == |b.wave.up| == |b.wave.replies| == |b.wave.rise| == n
    requires |b.wave.fall| == |b.wave.round| == n
    requires |b'.started| == |b'.wave.up| == |b'.wave.replies| == |b'.wave.rise| == n
    requires |b'.wave.fall| == |b'.wave.round| == n
  {
    && Slice(b', r) == call.after && b'.wave.round[r] == b.wave.round[r] + Count(call.complete)
    && (forall q: nat | q < n && q != r :: Slice(b', q) == Slice(b, q) && b'.wave.round[q] == b.wave.round[q])
    && (forall c: nat | c < n ::
          |b'.wave.rise[c]| == |b.wave.rise[c]| - Count(child && c == src) + Count(c == r && call.sentUp))
    && (forall c: nat | c < n ::
          |b'.wave.fall[c]| == |b.wave.fall[c]| - Count(0 < c == r && call.complete)
                               + Count(0 < c && Parent(c, k) == r && call.complete))
  }

  function Count(b: bool): int {
    if b then 1 else 0
  }

  /** The step a call takes after the children's messages, if any. */
  function NextStep(n: nat, k: nat, b: Barrier, r: nat, see: bool): Option<Step>
    requires 0 < k && Shaped(n, b.wave) && r < n
  {
    if r == 0 && CanFinish(n, k, b.wave) then Some(Complete(0))
    else if r > 0 && CanRaise(n, k, b.wave, r) then Some(SendUp(r))
    else if r > 0 && see && CanLower(n, k, b.wave, r) then Some(Complete(r))
    else None
  }

  function CallOf(n: nat, k: nat, b: Barrier, r: nat, child: bool, see: bool): BarCall
    requires 0 < k && Shaped(n, b.wave) && |b.started| == n && r < n
  {
    TestCall(r == 0, ChildCount(r, k, n), Slice(b, r), child, see && b.wave.fall[r] != [])
  }

  lemma NextStepTests(n: nat, k: nat, b: Barrier, r: nat, see: bool)
    requires BarrierInv(n, k, b) && r < n && b.started[r]
    ensures var call := CallOf(n, k, b, r, false, see);
      match NextStep(n, k, b, r, see)
      case None => Polled(n, k, b, b, r, r, false, call) && !call.complete
      case Some(a) =>
        && Enabled(n, k, b, a) && BarrierShaped(n, Apply(n, k, b, a)) && a.Complete? == call.complete
        && Polled(n, k, b, Apply(n, k, b, a), r, r, false, call)
  {
    if r > 0 { assert EdgeOk(b.wave, r, Parent(r, k)); }
  }

  lemma TakeTests(n: nat, k: nat, b: Barrier, r: nat, src: nat)
    requires BarrierInv(n, k, b) && Enabled(n, k, b, Take(r, src))
    ensures var b' := Apply(n, k, b, Take(r, src));
      && r < n && src < n && src != r && BarrierShaped(n, b') && b'.started == b.started && b'.wave.fall == b.wave.fall
      && b'.wave.up == b.wave.up && b'.wave.round == b.wave.round
      && b'.wave.replies == b.wave.replies[r := b.wave.replies[r] + 1] && b'.wave.replies[r] <= ChildCount(r, k, n)
      && (forall c: nat | c < n :: |b'.wave.rise[c]| == |b.wave.rise[c]| - Count(c == src))
  {
    ProbeFindsOnlyChildren(n, k, b.wave, r, src);
  }

  /** The steps of one call: messages taken and sent by `r` alone, and completion last. */
  predicate OneCall(steps: seq<Step>, r: nat, complete: bool) {
    && |steps| <= 2
    && (forall i | 0 <= i < |steps| :: !steps[i].Start? && steps[i].r == r)
    && (forall i | 0 <= i < |steps| :: steps[i].Complete? <==> complete && i == |steps| - 1)
    && (complete ==> steps != [])
  }

  lemma OneStepRun(n: nat, k: nat, b: Barrier, a: Step)
    requires Enabled(n, k, b, a)
    ensures Runs(n, k, b, [a], Apply(n, k, b, a))
  {
    assert [a][1..] == [];
  }

  lemma RestOfCall(n: nat, k: nat, b: Barrier, r: nat, see: bool) returns (steps: seq<Step>, b': Barrier)
    requires BarrierInv(n, k, b) && r < n && b.started[r]
    ensures Runs(n, k, b, steps, b') && BarrierInv(n, k, b') && |steps| <= 1
    ensures var call := CallOf(n, k, b, r, false, see);
      OneCall(steps, r, call.complete) && Polled(n, k, b, b', r, r, false, call)
  {
    NextStepTests(n, k, b, r, see);
    steps, b' := [], b;
    var next := NextStep(n, k, b, r, see);
    if next.Some? {
      var a := next.value;
      StepKeepsBarrier(n, k, b, a);
      OneStepRun(n, k, b, a);
      steps, b' := [a], Apply(n, k, b, a);
    }
  }

  /** Taking a child's message first and then the rest of the call is the whole call. */
  lemma PolledInTwoParts(n: nat, k: nat, b: Barrier, b1: Barrier, b': Barrier, r: nat, src: nat, see: bool)
    requires 0 < k && BarrierShaped(n, b) && BarrierShaped(n, b1) && BarrierShaped(n, b') && r < n && src != r
    requires b1.started == b.started && b1.wave.fall == b.wave.fall && b1.wave.up == b.wave.up
    requires b1.wave.round == b.wave.round && b.started[r]
    requires b1.wave.replies == b.wave.replies[r := b.wave.replies[r] + 1] && b1.wave.replies[r] <= ChildCount(r, k, n)
    requires forall c: nat | c < n :: |b1.wave.rise[c]| == |b.wave.rise[c]| - Count(c == src)
    requires Polled(n, k, b1, b', r, r, false, CallOf(n, k, b1, r, false, see))
    ensures CallOf(n, k, b, r, true, see) == CallOf(n, k, b1, r, false, see)
    ensures Polled(n, k, b, b', r, src, true, CallOf(n, k, b, r, true, see))
  {
  }

  lemma TakeThenRest(r: nat, src: nat, rest: seq<Step>, complete: bool)
    requires OneCall(rest, r, complete) && |rest| <= 1
    ensures OneCall([Take(r, src)] + rest, r, complete)
  {
  }

  lemma NoChildNoSource(n: nat, k: nat, b: Barrier, b': Barrier, r: nat, src: nat, call: BarCall)
    requires 0 < k && BarrierShaped(n, b) && BarrierShaped(n, b') && r < n && Polled(n, k, b, b', r, r, false, call)
    ensures Polled(n, k, b, b', r, src, false, call)
  {
  }

  lemma TakeThenTest(n: nat, k: nat, b: Barrier, r: nat, src: nat, see: bool) returns (steps: seq<Step>, b': Barrier)
    requires BarrierInv(n, k, b) && r < n && b.started[r] && CanAbsorb(n, k, b.wave, r, src)
    ensures Runs(n, k, b, steps, b') && BarrierInv(n, k, b')
    ensures var call := CallOf(n, k, b, r, true, see);
      OneCall(steps, r, call.complete) && Polled(n, k, b, b', r, src, true, call)
  {
    var a := Take(r, src);
    StepKeepsBarrier(n, k, b, a);
    TakeTests(n, k, b, r, src);
    OneStepRun(n, k, b, a);
    var b1 := Apply(n, k, b, a);
    var rest;
    rest, b' := RestOfCall(n, k, b1, r, see);
    PolledInTwoParts(n, k, b, b1, b', r, src, see);
    TakeThenRest(r, src, rest, CallOf(n, k, b1, r, false, see).complete);
    PathAppend(Next(n, k), b, [a], b1, rest, b');
    steps := [a] + rest;
  }

  /** What a rank in the barrier has after the probe for a child's message: replies, and whether it is up. */
  predicate Advanced(n: nat, k: nat, b: Barrier, b': Barrier, r: nat, child: bool, parent: bool, call: BarCall)
    requires 0 < k && r < n
    requires |b.started| == |b.wave.up| == |b.wave.replies| == |b.wave.fall| == n
    requires |b'.started| == |b'.wave.up| == |b'.wave.replies| == n
  {
    var heard := b.wave.replies[r] + Count(child && b.wave.replies[r] < ChildCount(r, k, n));
    var up := b.wave.up[r] || heard == ChildCount(r, k, n);
    && (call.complete <==> up && (r == 0 || parent))
    && (call.sentUp <==> up && !b.wave.up[r] && r > 0)
    && Slice(b', r) == if call.complete then BarLocal(false, false, 0) else BarLocal(true, up, heard)
  }

  /**
   * A call of barrierTest is a run of the barrier; `src` is the child whose message the probe finds, if
   * `child` is set, and `parent` says whether the parent's is found.  Before the barrier has been started
   * the call does nothing.
   */
  lemma TestCallIsARun(n: nat, k: nat, b: Barrier, r: nat, src: nat, child: bool, parent: bool)
      returns (steps: seq<Step>, b': Barrier, call: BarCall)
    requires BarrierInv(n, k, b) && r < n
    requires (child && b.started[r] ==> CanAbsorb(n, k, b.wave, r, src)) && (parent ==> b.wave.fall[r] != [])
    ensures Runs(n, k, b, steps, b') && BarrierInv(n, k, b')
    ensures call == TestCall(r == 0, ChildCount(r, k, n), Slice(b, r), child, parent)
    ensures OneCall(steps, r, call.complete) && Polled(n, k, b, b', r, src, child && b.started[r], call)
    ensures if b.started[r] then Advanced(n, k, b, b', r, child, parent, call)
      else b' == b && !call.sentUp && !call.complete
  {
    call := TestCall(r == 0, ChildCount(r, k, n), Slice(b, r), child, parent);
    if !b.started[r] {
      steps, b' := [], b;
    } else if child {
      steps, b' := TakeThenTest(n, k, b, r, src, parent);
    } else {
      steps, b' := RestOfCall(n, k, b, r, parent);
      NoChildNoSource(n, k, b, b', r, src, CallOf(n, k, b, r, false, parent));
    }
  }
}
