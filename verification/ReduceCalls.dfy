/** One call of reduceCheck at one rank, and the steps of the machine it amounts to. */
module ReduceCalls {
  import opened Common
  import opened KaryTree
  import opened System
  import opened Invariants
  import D = BackgroundReduce
  import FinalReduce
  import Folding

  datatype RedLocal = RedLocal(out: bool, replies: nat, valid: bool, total: int, bytes: nat, acc: Item)

  /** One child's answer is read and combined. */
  function GatherOne(op: Folding.Op, l: RedLocal, frames: seq<D.Frame>): RedLocal
    requires D.Parses(frames)
  {
    var h := frames[0];
    if !h.valid then l.(replies := l.replies + 1, valid := false)
    else
      var data := D.AnswerData(frames);
      l.(replies := l.replies + 1, total := l.total + h.count, acc := if l.valid then op(l.acc, data) else l.acc)
  }

  predicate AllParse(answers: seq<Option<seq<D.Frame>>>) {
    forall i | 0 <= i < |answers| && answers[i].Some? :: D.Parses(answers[i].value)
  }

  function GatherStep(op: Folding.Op, l: RedLocal, answer: Option<seq<D.Frame>>): RedLocal
    requires answer.Some? ==> D.Parses(answer.value)
  {
    if answer.Some? then GatherOne(op, l, answer.value) else l
  }

  /** The children are polled in order; those without a message are skipped. */
  function GatherAll(op: Folding.Op, l: RedLocal, answers: seq<Option<seq<D.Frame>>>): RedLocal
    requires AllParse(answers)
    decreases |answers|
  {
    if answers == [] then l else GatherAll(op, GatherStep(op, l, answers[0]), answers[1..])
  }

  /** The children whose messages are there. */
  function Present(answers: seq<Option<seq<D.Frame>>>): set<nat> {
    set i: nat | i < |answers| && answers[i].Some?
  }

  predicate NoneInvalid(answers: seq<Option<seq<D.Frame>>>)
    requires AllParse(answers)
  {
    forall i | 0 <= i < |answers| && answers[i].Some? :: answers[i].value[0].valid
  }

  /** The counts that are there; a missing or invalid answer has none. */
  function CountsIn(answers: seq<Option<seq<D.Frame>>>): seq<int>
    requires AllParse(answers)
  {
    seq(|answers|, i requires 0 <= i < |answers| =>
      if answers[i].Some? && answers[i].value[0].valid then answers[i].value[0].count else 0)
  }

  /** The data that is combined: that of every answer with nothing invalid before it or in it. */
  function DataIn(answers: seq<Option<seq<D.Frame>>>): seq<Item>
    requires AllParse(answers)
  {
    if answers == [] then [] else
      var m := |answers| - 1;
      DataIn(answers[..m]) +
      if answers[m].Some? && NoneInvalid(answers) then [D.AnswerData(answers[m].value)] else []
  }

  /** From `l` to `l'` the answers that are there have been counted and combined, and no others. */
  predicate ReadExactly(op: Folding.Op, l: RedLocal, l': RedLocal, answers: seq<Option<seq<D.Frame>>>)
    requires AllParse(answers)
  {
    && l'.out == l.out && l'.bytes == l.bytes
    && l'.replies == l.replies + |Present(answers)|
    && l'.valid == (l.valid && NoneInvalid(answers))
    && l'.total == l.total + Sum(CountsIn(answers))
    && l'.acc == FinalReduce.CombineInOrder(op, l.acc, if l.valid then DataIn(answers) else [])
  }

  lemma {:induction false} GatherLast(op: Folding.Op, l: RedLocal, answers: seq<Option<seq<D.Frame>>>)
    requires AllParse(answers) && answers != []
    ensures var m := |answers| - 1;
      GatherAll(op, l, answers) == GatherStep(op, GatherAll(op, l, answers[..m]), answers[m])
    decreases |answers|
  {
    var m := |answers| - 1;
    if m > 0 {
      GatherLast(op, GatherStep(op, l, answers[0]), answers[1..]);
      assert answers[1..][..m - 1] == answers[..m][1..];
    }
  }

  lemma PresentOneMore(answers: seq<Option<seq<D.Frame>>>)
    requires answers != []
    ensures var m := |answers| - 1;
      |Present(answers)| == |Present(answers[..m])| + if answers[m].Some? then 1 else 0
  {
    var m := |answers| - 1;
    assert Present(answers) == Present(answers[..m]) + if answers[m].Some? then {m} else {};
  }

  lemma ValidOneMore(answers: seq<Option<seq<D.Frame>>>)
    requires AllParse(answers) && answers != []
    ensures var m := |answers| - 1;
      NoneInvalid(answers) == (NoneInvalid(answers[..m]) && (answers[m].Some? ==> answers[m].value[0].valid))
  {
    var m := |answers| - 1;
    forall i | 0 <= i < m ensures answers[i] == answers[..m][i] {}
  }

  lemma CountsOneMore(answers: seq<Option<seq<D.Frame>>>)
    requires AllParse(answers) && answers != []
    ensures var m := |answers| - 1;
      Sum(CountsIn(answers)) == Sum(CountsIn(answers[..m])) +
        if answers[m].Some? && answers[m].value[0].valid then answers[m].value[0].count else 0
  {
    var m := |answers| - 1;
    assert CountsIn(answers)[..m] == CountsIn(answers[..m]);
  }

  lemma DataOneMore(op: Folding.Op, acc: Item, answers: seq<Option<seq<D.Frame>>>)
    requires AllParse(answers) && answers != []
    ensures var m := |answers| - 1;
      var before := FinalReduce.CombineInOrder(op, acc, DataIn(answers[..m]));
      FinalReduce.CombineInOrder(op, acc, DataIn(answers)) ==
        if answers[m].Some? && NoneInvalid(answers) then op(before, D.AnswerData(answers[m].value)) else before
  {
    var data := DataIn(answers[..|answers| - 1]);
    if answers[|answers| - 1].Some? && NoneInvalid(answers) {
      assert DataIn(answers)[..|data|] == data;
    } else {
      assert data + [] == data;
    }
  }

  lemma ReadOneMore(op: Folding.Op, l: RedLocal, l1: RedLocal, answers: seq<Option<seq<D.Frame>>>)
    requires AllParse(answers) && answers != [] && ReadExactly(op, l, l1, answers[..|answers| - 1])
    ensures ReadExactly(op, l, GatherStep(op, l1, answers[|answers| - 1]), answers)
  {
    PresentOneMore(answers);
    ValidOneMore(answers);
    CountsOneMore(answers);
    DataOneMore(op, l.acc, answers);
  }

  /** Polling the children in order reads exactly the answers that are there. */
  lemma {:induction false} GatherAllReads(op: Folding.Op, l: RedLocal, answers: seq<Option<seq<D.Frame>>>)
    requires AllParse(answers)
    ensures ReadExactly(op, l, GatherAll(op, l, answers), answers)
    decreases |answers|
  {
    if answers == [] {
      assert Present(answers) == {};
    } else {
      GatherAllReads(op, l, answers[..|answers| - 1]);
      GatherLast(op, l, answers);
      ReadOneMore(op, l, GatherAll(op, l, answers[..|answers| - 1]), answers);
    }
  }

  /** Without a message nothing happens. */
  lemma {:induction false} NoneGathered(op: Folding.Op, l: RedLocal, answers: seq<Option<seq<D.Frame>>>)
    requires forall i | 0 <= i < |answers| :: answers[i] == None
    ensures AllParse(answers) && GatherAll(op, l, answers) == l
    decreases |answers|
  {
    if answers != [] { NoneGathered(op, l, answers[1..]); }
  }

  function RedSlice(x: D.Reduction, r: nat): RedLocal
    requires r < |x.out| == |x.replies| == |x.valid| == |x.total| == |x.bytes| == |x.acc|
  {
    RedLocal(x.out[r], x.replies[r], x.valid[r], x.total[r], x.bytes[r], x.acc[r])
  }

  /** With all children counted the rank adds its own count and answers its parent. */
  function AnswerUp(l: RedLocal, isRoot: bool, count: int): RedLocal {
    l.(total := l.total + count, out := false, bytes := if isRoot then l.bytes else |l.acc|)
  }

  // ---------------------------------------------------------------- with a reduction outstanding

  /** Distinct children of `r` whose answers are waiting. */
  ghost predicate ChildrenWithAnswers(n: nat, k: nat, up: seq<seq<D.Frame>>, r: nat, srcs: seq<nat>)
    requires 0 < k && |up| == n
  {
    && (forall i | 0 <= i < |srcs| :: 0 < srcs[i] < n && Parent(srcs[i], k) == r && up[srcs[i]] != [])
    && (forall i, j | 0 <= i < j < |srcs| :: srcs[i] != srcs[j])
  }

  ghost predicate Answering(cfg: Config, w: World, r: nat, srcs: seq<nat>)
    requires Shaped(cfg, w)
  {
    ChildrenWithAnswers(cfg.n, cfg.k, w.red.up, r, srcs)
  }

  function AnswersFrom(up: seq<seq<D.Frame>>, srcs: seq<nat>): seq<Option<seq<D.Frame>>>
    requires forall i | 0 <= i < |srcs| :: srcs[i] < |up|
  {
    seq(|srcs|, i requires 0 <= i < |srcs| => Some(up[srcs[i]]))
  }

  /** Only `r`'s own state and the channels to and from it may differ. */
  ghost predicate OnlyAt(n: nat, x: D.Reduction, x': D.Reduction, r: nat)
    requires D.Shaped(n, x) && D.Shaped(n, x')
  {
    && (forall q: nat | q < n && q != r :: RedSlice(x', q) == RedSlice(x, q))
    && x'.start == x.start && x'.given == x.given && x'.refused == x.refused
  }

  /** The answers of `srcs` have been read, and no other. */
  ghost predicate Emptied(up: seq<seq<D.Frame>>, up': seq<seq<D.Frame>>, srcs: seq<nat>) {
    |up'| == |up| && forall c: nat | c < |up| :: up'[c] == if c in srcs then [] else up[c]
  }

  lemma EmptiedTwice(up: seq<seq<D.Frame>>, up1: seq<seq<D.Frame>>, up': seq<seq<D.Frame>>, c: nat, rest: seq<nat>)
    requires c < |up| && up1 == up[c := []] && Emptied(up1, up', rest)
    ensures Emptied(up, up', [c] + rest)
  {
  }

  /** The answers of `srcs` have been read and combined, in that order, and nothing else has happened. */
  ghost predicate Gathered(n: nat, op: Folding.Op, x: D.Reduction, x': D.Reduction, r: nat, srcs: seq<nat>)
    requires D.Shaped(n, x) && D.Shaped(n, x') && r < n
    requires forall i | 0 <= i < |srcs| :: srcs[i] < n
  {
    && OnlyAt(n, x, x', r) && x'.counted == x.counted && Emptied(x.up, x'.up, srcs)
    && AllParse(AnswersFrom(x.up, srcs))
    && RedSlice(x', r) == GatherAll(op, RedSlice(x, r), AnswersFrom(x.up, srcs))
  }

  lemma GatherAtSource(n: nat, k: nat, x: D.Reduction, op: Folding.Op, r: nat, c: nat)
    requires D.Framed(n, k, x) && D.CanGather(n, k, x, r, c)
    ensures D.Parses(x.up[c])
    ensures var x' := D.Gather(n, k, x, op, r, c);
      && D.Shaped(n, x') && r < n && OnlyAt(n, x, x', r) && x'.counted == x.counted
      && x'.out == x.out && x'.up == x.up[c := []] && RedSlice(x', r) == GatherOne(op, RedSlice(x, r), x.up[c])
  {
    D.NeverMisread(n, k, x, r, c);
  }

  lemma GatherFrom(cfg: Config, w: World, r: nat, c: nat) returns (w': World)
    requires BaseInv(cfg, w) && 0 < c < cfg.n && Parent(c, cfg.k) == r && w.phase[r] != Left
    requires w.red.out[r] && w.red.up[c] != []
    ensures Enabled(cfg, w, Action.Red(RedGather(r, c))) && w' == Apply(cfg, w, Action.Red(RedGather(r, c)))
    ensures BaseInv(cfg, w') && w' == w.(red := w'.red) && w'.red.out == w.red.out
    ensures OnlyAt(cfg.n, w.red, w'.red, r) && w'.red.counted == w.red.counted
    ensures D.Parses(w.red.up[c]) && w'.red.up == w.red.up[c := []]
    ensures RedSlice(w'.red, r) == GatherOne(cfg.op, RedSlice(w.red, r), w.red.up[c])
  {
    GatherAtSource(cfg.n, cfg.k, w.red, cfg.op, r, c);
    w' := ApplyRed(cfg, w, RedGather(r, c));
    StepKeepsBase(cfg, w, Action.Red(RedGather(r, c)));
  }

  lemma OthersStillAnswer(cfg: Config, w: World, w': World, r: nat, srcs: seq<nat>)
    requires Shaped(cfg, w) && Shaped(cfg, w') && srcs != [] && Answering(cfg, w, r, srcs)
    requires w'.red.up == w.red.up[srcs[0] := []]
    ensures Answering(cfg, w', r, srcs[1..])
  {
  }

  lemma GatheredOneMore(n: nat, op: Folding.Op, x: D.Reduction, y: D.Reduction, z: D.Reduction, r: nat, srcs: seq<nat>)
    requires D.Shaped(n, x) && D.Shaped(n, y) && D.Shaped(n, z) && r < n && srcs != []
    requires (forall i | 0 <= i < |srcs| :: srcs[i] < n) && forall i, j | 0 <= i < j < |srcs| :: srcs[i] != srcs[j]
    requires OnlyAt(n, x, y, r) && y.counted == x.counted && D.Parses(x.up[srcs[0]]) && y.up == x.up[srcs[0] := []]
    requires RedSlice(y, r) == GatherOne(op, RedSlice(x, r), x.up[srcs[0]])
    requires Gathered(n, op, y, z, r, srcs[1..])
    ensures Gathered(n, op, x, z, r, srcs)
  {
    var answers, rest := AnswersFrom(x.up, srcs), AnswersFrom(y.up, srcs[1..]);
    assert answers[1..] == rest;
    forall i | 0 <= i < |answers| ensures D.Parses(answers[i].value) {
      if i > 0 { assert answers[i] == rest[i - 1]; }
    }
    assert srcs == [srcs[0]] + srcs[1..];
    EmptiedTwice(x.up, y.up, z.up, srcs[0], srcs[1..]);
  }

  /**
   * A call with a reduction outstanding is a run: one gathering step per answer that is there,
   * in the order of the children polled.
   */
  lemma {:induction false} GatheringIsARun(cfg: Config, w: World, r: nat, srcs: seq<nat>)
      returns (acts: seq<Action>, w': World)
    requires BaseInv(cfg, w) && r < cfg.n && w.phase[r] != Left && w.red.out[r] && Answering(cfg, w, r, srcs)
    ensures Runs(cfg, w, acts, w') && BaseInv(cfg, w') && w' == w.(red := w'.red) && w'.red.out[r]
    ensures Gathered(cfg.n, cfg.op, w.red, w'.red, r, srcs)
    decreases |srcs|
  {
    if srcs == [] {
      acts, w' := [], w;
    } else {
      var w1 := GatherFrom(cfg, w, r, srcs[0]);
      OthersStillAnswer(cfg, w, w1, r, srcs);
      var rest;
      rest, w' := GatheringIsARun(cfg, w1, r, srcs[1..]);
      GatheredOneMore(cfg.n, cfg.op, w.red, w1.red, w'.red, r, srcs);
      RunsCons(cfg, w, Action.Red(RedGather(r, srcs[0])), rest, w');
      acts := [Action.Red(RedGather(r, srcs[0]))] + rest;
    }
  }

  /** The rank's answer to its parent, its own state afterwards, and that nothing else differs. */
  ghost predicate Replied(n: nat, x: D.Reduction, x': D.Reduction, r: nat, count: int)
    requires D.Shaped(n, x) && D.Shaped(n, x') && r < n
  {
    var l := RedSlice(x, r);
    && OnlyAt(n, x, x', r) && x'.counted == x.counted[r := Some(count)]
    && RedSlice(x', r) == AnswerUp(l, r == 0, count)
    && x'.up == x.up[r := x.up[r] + if r == 0 then [] else D.Frames(l.valid, l.total + count, l.acc)]
  }

  lemma ReplyAtSource(n: nat, k: nat, x: D.Reduction, r: nat, count: int)
    requires 0 < k && D.Shaped(n, x) && D.CanReply(n, k, x, r)
    ensures D.Shaped(n, D.Reply(n, k, x, r, count)) && Replied(n, x, D.Reply(n, k, x, r, count), r, count)
  {
    if r == 0 {
      assert x.up[0] + [] == x.up[0];
      assert x.up[0 := x.up[0]] == x.up;
    }
  }

  lemma ReplyIfComplete(cfg: Config, w: World, r: nat) returns (acts: seq<Action>, w': World)
    requires BaseInv(cfg, w) && r < cfg.n && w.phase[r] != Left && w.red.out[r]
    ensures Runs(cfg, w, acts, w') && BaseInv(cfg, w') && w' == w.(red := w'.red)
    ensures if w.red.replies[r] == ChildCount(r, cfg.k, cfg.n) then Replied(cfg.n, w.red, w'.red, r, w.work.handled[r])
      else w' == w
  {
    acts, w' := [], w;
    if w.red.replies[r] == ChildCount(r, cfg.k, cfg.n) {
      var a := Action.Red(RedReply(r));
      ReplyAtSource(cfg.n, cfg.k, w.red, r, w.work.handled[r]);
      StepKeepsBase(cfg, w, a);
      RunsOne(cfg, w, a);
      acts, w' := [a], ApplyRed(cfg, w, RedReply(r));
    }
  }

  /** Child `i` of a rank whose first child is `first` is `first + i`; those with a message, in order. */
  function Sources(first: nat, answers: seq<Option<seq<D.Frame>>>): seq<nat>
    decreases |answers|
  {
    if answers == [] then []
    else (if answers[0].Some? then [first] else []) + Sources(first + 1, answers[1..])
  }

  /** `c` is a child whose message is there. */
  predicate Answers(first: nat, answers: seq<Option<seq<D.Frame>>>, c: nat) {
    first <= c < first + |answers| && answers[c - first].Some?
  }

  lemma {:induction false} SourcesAre(first: nat, answers: seq<Option<seq<D.Frame>>>)
    ensures forall i | 0 <= i < |Sources(first, answers)| :: Answers(first, answers, Sources(first, answers)[i])
    ensures forall c: nat | Answers(first, answers, c) :: c in Sources(first, answers)
    decreases |answers|
  {
    if answers != [] {
      var s, rest := Sources(first, answers), Sources(first + 1, answers[1..]);
      SourcesAre(first + 1, answers[1..]);
      forall i | 0 <= i < |s| ensures Answers(first, answers, s[i]) {
        var j := if answers[0].Some? then i - 1 else i;
        if j >= 0 { assert s[i] == rest[j] && Answers(first + 1, answers[1..], rest[j]); }
      }
      forall c: nat | Answers(first, answers, c) ensures c in s {
        if c > first { assert Answers(first + 1, answers[1..], c); }
      }
    }
  }

  predicate Rising(s: seq<nat>) {
    forall i, j | 0 <= i < j < |s| :: s[i] < s[j]
  }

  lemma {:induction false} SourcesRise(first: nat, answers: seq<Option<seq<D.Frame>>>)
    ensures Rising(Sources(first, answers))
    decreases |answers|
  {
    if answers != [] {
      var s, rest := Sources(first, answers), Sources(first + 1, answers[1..]);
      SourcesRise(first + 1, answers[1..]);
      SourcesAre(first + 1, answers[1..]);
      forall j | 0 <= j < |rest| ensures rest[j] > first { assert Answers(first + 1, answers[1..], rest[j]); }
      if answers[0].Some? {
        assert s == [first] + rest;
        forall i, j | 0 <= i < j < |s| ensures s[i] < s[j] { if i > 0 { assert rest[i - 1] < rest[j - 1]; } }
      } else {
        assert s == rest;
      }
    }
  }

  /** The messages in `answers` are those on the channels of the children of `r`; some may not be seen yet. */
  ghost predicate ProbedFrom(n: nat, k: nat, up: seq<seq<D.Frame>>, r: nat, answers: seq<Option<seq<D.Frame>>>) {
    0 < k && |up| == n && |answers| == ChildCount(r, k, n) && ProbedAt(up, FirstChild(r, k), answers)
  }

  predicate ProbedAt(up: seq<seq<D.Frame>>, first: nat, answers: seq<Option<seq<D.Frame>>>) {
    forall i | 0 <= i < |answers| && answers[i].Some? ::
      first + i < |up| && up[first + i] != [] && answers[i].value == up[first + i]
  }

  lemma SourceIsChild(n: nat, k: nat, up: seq<seq<D.Frame>>, r: nat, answers: seq<Option<seq<D.Frame>>>, c: nat)
    requires ProbedFrom(n, k, up, r, answers) && Answers(FirstChild(r, k), answers, c)
    ensures 0 < c < n && Parent(c, k) == r && up[c] != [] && answers[c - FirstChild(r, k)].value == up[c]
  {
    ChildAt(r, k, n, c - FirstChild(r, k));
  }

  lemma SourcesAreChildren(n: nat, k: nat, up: seq<seq<D.Frame>>, r: nat, answers: seq<Option<seq<D.Frame>>>)
    requires ProbedFrom(n, k, up, r, answers)
    ensures ChildrenWithAnswers(n, k, up, r, Sources(FirstChild(r, k), answers))
  {
    var s := Sources(FirstChild(r, k), answers);
    SourcesAre(FirstChild(r, k), answers);
    SourcesRise(FirstChild(r, k), answers);
    forall i | 0 <= i < |s| ensures 0 < s[i] < n && Parent(s[i], k) == r && up[s[i]] != [] {
      SourceIsChild(n, k, up, r, answers, s[i]);
    }
  }

  lemma {:induction false} SkippingNone(op: Folding.Op, l: RedLocal, up: seq<seq<D.Frame>>, first: nat,
        answers: seq<Option<seq<D.Frame>>>)
    requires forall i | 0 <= i < |answers| && answers[i].Some? :: first + i < |up| && answers[i].value == up[first + i]
    requires forall i | 0 <= i < |Sources(first, answers)| :: Sources(first, answers)[i] < |up|
    requires AllParse(AnswersFrom(up, Sources(first, answers)))
    ensures AllParse(answers)
    ensures GatherAll(op, l, answers) == GatherAll(op, l, AnswersFrom(up, Sources(first, answers)))
    decreases |answers|
  {
    if answers != [] {
      var srcs, rest := Sources(first, answers), Sources(first + 1, answers[1..]);
      if answers[0].Some? {
        assert srcs == [first] + rest;
        forall i | 0 <= i < |rest| ensures rest[i] < |up| { assert rest[i] == srcs[i + 1]; }
      } else {
        assert srcs == rest;
      }
      var all, more := AnswersFrom(up, srcs), AnswersFrom(up, rest);
      if answers[0].Some? { assert all[0] == answers[0] && all[1..] == more; }
      forall i | 0 <= i < |more| ensures D.Parses(more[i].value) {
        assert more[i] == all[if answers[0].Some? then i + 1 else i];
      }
      SkippingNone(op, GatherStep(op, l, answers[0]), up, first + 1, answers[1..]);
      forall i | 0 <= i < |answers| && answers[i].Some? ensures D.Parses(answers[i].value) {
        if i > 0 { assert answers[i] == answers[1..][i - 1]; }
      }
    }
  }

  /** The answers given have been read and combined, each from its channel, and nothing else has happened. */
  ghost predicate Heard(n: nat, k: nat, op: Folding.Op, x: D.Reduction, x': D.Reduction, r: nat,
        answers: seq<Option<seq<D.Frame>>>)
    requires D.Shaped(n, x) && D.Shaped(n, x') && r < n
  {
    && OnlyAt(n, x, x', r) && x'.counted == x.counted && |x'.up| == |x.up|
    && (forall c: nat | c < n :: x'.up[c] == if Answers(FirstChild(r, k), answers, c) then [] else x.up[c])
    && AllParse(answers) && RedSlice(x', r) == GatherAll(op, RedSlice(x, r), answers)
    && ReadExactly(op, RedSlice(x, r), RedSlice(x', r), answers)
  }

  ghost predicate GatheredSources(n: nat, op: Folding.Op, x: D.Reduction, x': D.Reduction, r: nat, srcs: seq<nat>)
    requires D.Shaped(n, x) && D.Shaped(n, x') && r < n
  {
    (forall i | 0 <= i < |srcs| :: srcs[i] < n) && Gathered(n, op, x, x', r, srcs)
  }

  lemma SourcesAreRead(cfg: Config, w: World, r: nat, srcs: seq<nat>) returns (acts: seq<Action>, w': World)
    requires BaseInv(cfg, w) && r < cfg.n && w.phase[r] != Left && w.red.out[r]
    requires ChildrenWithAnswers(cfg.n, cfg.k, w.red.up, r, srcs)
    ensures Runs(cfg, w, acts, w') && BaseInv(cfg, w') && w' == w.(red := w'.red) && w'.red.out[r]
    ensures GatheredSources(cfg.n, cfg.op, w.red, w'.red, r, srcs)
  {
    acts, w' := GatheringIsARun(cfg, w, r, srcs);
  }

  lemma HeardFromSources(n: nat, k: nat, op: Folding.Op, x: D.Reduction, x': D.Reduction, r: nat,
        answers: seq<Option<seq<D.Frame>>>)
    requires D.Shaped(n, x) && D.Shaped(n, x') && r < n && ProbedFrom(n, k, x.up, r, answers)
    requires GatheredSources(n, op, x, x', r, Sources(FirstChild(r, k), answers))
    ensures Heard(n, k, op, x, x', r, answers)
  {
    var first := FirstChild(r, k);
    SourcesAre(first, answers);
    forall c: nat | c < n ensures x'.up[c] == if Answers(first, answers, c) then [] else x.up[c] {
      if c in Sources(first, answers) {
        var i :| 0 <= i < |Sources(first, answers)| && Sources(first, answers)[i] == c;
        assert Answers(first, answers, Sources(first, answers)[i]);
      }
    }
    SkippingNone(op, RedSlice(x, r), x.up, first, answers);
    GatherAllReads(op, RedSlice(x, r), answers);
  }

  /** Polling the children is a run; `answers` is what the probe of each child finds, in the order of the list. */
  lemma PollingIsARun(cfg: Config, w: World, r: nat, answers: seq<Option<seq<D.Frame>>>)
      returns (acts: seq<Action>, w': World)
    requires BaseInv(cfg, w) && r < cfg.n && w.phase[r] != Left && w.red.out[r]
    requires ProbedFrom(cfg.n, cfg.k, w.red.up, r, answers)
    ensures Runs(cfg, w, acts, w') && BaseInv(cfg, w') && w' == w.(red := w'.red) && w'.red.out[r]
    ensures Heard(cfg.n, cfg.k, cfg.op, w.red, w'.red, r, answers)
  {
    SourcesAreChildren(cfg.n, cfg.k, w.red.up, r, answers);
    acts, w' := SourcesAreRead(cfg, w, r, Sources(FirstChild(r, cfg.k), answers));
    HeardFromSources(cfg.n, cfg.k, cfg.op, w.red, w'.red, r, answers);
  }

  /**
   * A call of reduceCheck with a reduction outstanding is a run: the answers that are there are read and
   * combined, and when the last one is in, the rank answers its parent or, at the root, delivers.
   */
  lemma ReduceCallIsARun(cfg: Config, w: World, r: nat, answers: seq<Option<seq<D.Frame>>>)
      returns (acts: seq<Action>, w1: World, w': World)
    requires BaseInv(cfg, w) && r < cfg.n && w.phase[r] != Left && w.red.out[r]
    requires ProbedFrom(cfg.n, cfg.k, w.red.up, r, answers)
    ensures Runs(cfg, w, acts, w') && BaseInv(cfg, w') && Shaped(cfg, w1)
    ensures w1 == w.(red := w1.red) && w' == w.(red := w'.red)
    ensures Heard(cfg.n, cfg.k, cfg.op, w.red, w1.red, r, answers)
    ensures if w.red.replies[r] + |Present(answers)| == ChildCount(r, cfg.k, cfg.n)
      then Replied(cfg.n, w1.red, w'.red, r, w.work.handled[r]) else w'.red == w1.red
  {
    var first, second;
    first, w1 := PollingIsARun(cfg, w, r, answers);
    second, w' := ReplyIfComplete(cfg, w1, r);
    RunsAppend(cfg, w, first, w1, second, w');
    acts := first + second;
  }

  // ---------------------------------------------------------------- with none outstanding

  /** A start message is taken from the parent, if there is one. */
  function StartTaken(start: seq<nat>, r: nat): seq<nat>
    requires r < |start| && (r > 0 ==> start[r] > 0)
  {
    if r == 0 then start else start[r := start[r] - 1]
  }

  /** The rank starts afresh with `val` and tells its children. */
  ghost predicate Begun(n: nat, k: nat, x: D.Reduction, x': D.Reduction, r: nat, val: Item)
    requires 0 < k && D.Shaped(n, x) && D.Shaped(n, x') && r < n && (r > 0 ==> x.start[r] > 0)
  {
    && RedSlice(x', r) == RedLocal(true, 0, true, 0, 0, val)
    && (forall q: nat | q < n && q != r :: RedSlice(x', q) == RedSlice(x, q))
    && x'.start == D.Announce(n, k, StartTaken(x.start, r), r) && x'.up == x.up
  }

  /** The rank tells its parent that its part is invalid. */
  ghost predicate Refused(n: nat, x: D.Reduction, x': D.Reduction, r: nat)
    requires D.Shaped(n, x) && D.Shaped(n, x') && r < n && (r > 0 ==> x.start[r] > 0)
  {
    && RedSlice(x', r) == RedSlice(x, r).(valid := false)
    && (forall q: nat | q < n && q != r :: RedSlice(x', q) == RedSlice(x, q))
    && x'.start == StartTaken(x.start, r)
    && x'.up == x.up[r := x.up[r] + [D.Header(false, x.total[r], x.bytes[r])]]
  }

  lemma BeginAtSource(n: nat, k: nat, x: D.Reduction, r: nat, val: Item)
    requires 0 < k && D.Shaped(n, x) && D.CanBegin(n, x, r)
    ensures D.Shaped(n, D.Begin(n, k, x, r, val)) && Begun(n, k, x, D.Begin(n, k, x, r, val), r, val)
  {
  }

  lemma RefuseAtSource(n: nat, x: D.Reduction, r: nat)
    requires D.Shaped(n, x) && D.CanRefuse(n, x, r)
    ensures D.Shaped(n, D.Refuse(n, x, r)) && Refused(n, x, D.Refuse(n, x, r), r)
  {
  }

  /**
   * A call of reduceCheck with no reduction outstanding is a run of at most one step.  `due` says whether
   * the period has expired and `start` whether the parent's start message is found.
   */
  lemma IdleReduceCallIsARun(cfg: Config, w: World, r: nat, due: bool, start: bool, val: Item)
      returns (acts: seq<Action>, w': World)
    requires BaseInv(cfg, w) && r < cfg.n && w.phase[r] != Left && !w.red.out[r]
    requires start ==> w.red.start[r] > 0
    ensures Runs(cfg, w, acts, w') && BaseInv(cfg, w') && w' == w.(red := w'.red)
    ensures
      if w.phase[r] == Working && due && (r == 0 || start) then Begun(cfg.n, cfg.k, w.red, w'.red, r, val)
      else if w.phase[r] == CleanUp && r > 0 && start then Refused(cfg.n, w.red, w'.red, r)
      else w' == w
  {
    acts, w' := [], w;
    if (w.phase[r] == Working && due && (r == 0 || start)) || (w.phase[r] == CleanUp && r > 0 && start) {
      var step := if w.phase[r] == Working then RedBegin(r, val) else RedRefuse(r);
      if w.phase[r] == Working {
        BeginAtSource(cfg.n, cfg.k, w.red, r, val);
      } else {
        RefuseAtSource(cfg.n, w.red, r);
      }
      StepKeepsBase(cfg, w, Action.Red(step));
      RunsOne(cfg, w, Action.Red(step));
      acts, w' := [Action.Red(step)], ApplyRed(cfg, w, step);
    }
  }
}
