/**
 * Work stealing between ranks: requests, replies and receipts.
 *
 * The network keeps, for each rank, what is in flight to it.  Requests and receipts carry
 * no content, so a bag of senders (for requests) and a count (for receipts, whose sender is
 * never used) lose nothing; replies are kept in sending order.
 */
module WorkProtocol {
  import opened Common

  /** A work reply: an offset message and, when `items` is non-empty, the bytes behind it. */
  datatype Reply = Reply(src: nat, items: seq<Item>)

  datatype Work = Work(
    queue: seq<seq<Item>>,           // each rank's queue, bottom first
    asked: seq<Option<nat>>,         // work_requested with work_requested_rank
    outstanding: seq<nat>,           // work_outstanding
    requests: seq<multiset<nat>>,    // requests[s]: senders of the requests in flight to s
    gathered: seq<seq<nat>>,         // requestors[0..rcount) of s: received, not yet answered
    replies: seq<seq<Reply>>,        // replies[r]: in flight to r
    receipts: seq<nat>,              // receipts[s]: receipts in flight to s
    handled: seq<nat>,               // local_objects_processed
    processed: multiset<Item>,       // history: items handed to the process callback
    created: multiset<Item>)         // history: items pushed so far

  datatype WorkStep =
    | Ask(r: nat, s: nat)                     // r sends s a work request
    | Collect(s: nat, r: nat)                 // s receives r's request
    | Serve(s: nat, share: nat)               // s answers its first requestor with `share` items
    | Accept(r: nat, j: nat)                  // r receives the reply it waits for
    | Acknowledge(s: nat)                     // s receives a receipt
    | Process(r: nat, spawned: seq<Item>)       // r pops one item and pushes `spawned`

  ghost predicate Shaped(n: nat, w: Work) {
    && |w.queue| == |w.asked| == |w.outstanding| == n
    && |w.requests| == |w.gathered| == |w.replies| == |w.receipts| == |w.handled| == n
  }

  /** `j` is the oldest message from `s` in `box`. */
  predicate OldestFrom(box: seq<Reply>, s: nat, j: nat) {
    && j < |box| && box[j].src == s
    && forall i | 0 <= i < j :: box[i].src != s
  }

  ghost predicate Enabled(n: nat, w: Work, a: WorkStep)
    requires Shaped(n, w)
  {
    match a
    case Ask(r, s) => r < n && s < n && r != s && w.queue[r] == [] && w.asked[r] == None
    case Collect(s, r) => s < n && r < n && r in w.requests[s]
    case Serve(s, share) =>
      && s < n && w.gathered[s] != [] && w.gathered[s][0] < n
      && (share == 0 || share < |w.queue[s]|)
    case Accept(r, j) =>
      r < n && w.asked[r].Some? && w.asked[r].value < n && OldestFrom(w.replies[r], w.asked[r].value, j)
    case Acknowledge(s) => s < n && w.outstanding[s] > 0 && w.receipts[s] > 0
    case Process(r, spawned) => r < n && w.queue[r] != [] && forall x | x in spawned :: x != []
  }

  /** The last `share` items of a queue travel; the rest stay. */
  function Kept(q: seq<Item>, share: nat): seq<Item>
    requires share <= |q|
  {
    q[..|q| - share]
  }

  function Sent(q: seq<Item>, share: nat): seq<Item>
    requires share <= |q|
  {
    q[|q| - share..]
  }

  ghost function Apply(n: nat, w: Work, a: WorkStep): (w': Work)
    requires Shaped(n, w) && Enabled(n, w, a)
    ensures Shaped(n, w')
  {
    match a
    case Ask(r, s) =>
      w.(requests := w.requests[s := w.requests[s] + multiset{r}],
         asked := w.asked[r := Some(s)])
    case Collect(s, r) =>
      w.(requests := w.requests[s := w.requests[s] - multiset{r}],
         gathered := w.gathered[s := w.gathered[s] + [r]])
    case Serve(s, share) =>
      var r := w.gathered[s][0];
      w.(gathered := w.gathered[s := w.gathered[s][1..]],
         queue := w.queue[s := Kept(w.queue[s], share)],
         replies := w.replies[r := w.replies[r] + [Reply(s, Sent(w.queue[s], share))]],
         outstanding := w.outstanding[s := w.outstanding[s] + if share > 0 then 1 else 0])
    case Accept(r, j) =>
      var box := w.replies[r];
      var items, src := box[j].items, box[j].src;
      var w1 := w.(replies := w.replies[r := box[..j] + box[j + 1..]], asked := w.asked[r := None]);
      if items == [] then w1 else
        // the receiver overwrites whatever its queue held
        w1.(queue := w.queue[r := items], receipts := w.receipts[src := w.receipts[src] + 1])
    case Acknowledge(s) =>
      w.(outstanding := w.outstanding[s := w.outstanding[s] - 1],
         receipts := w.receipts[s := w.receipts[s] - 1])
    case Process(r, spawned) =>
      var q := w.queue[r];
      w.(queue := w.queue[r := q[..|q| - 1] + spawned],
         handled := w.handled[r := w.handled[r] + 1],
         processed := w.processed + multiset{q[|q| - 1]},
         created := w.created + multiset(spawned))
  }

  /** Queues as the create callbacks leave them; nothing asked, nothing in flight. */
  ghost predicate Init(n: nat, w: Work) {
    && Shaped(n, w)
    && (forall r | 0 <= r < n ::
          && w.asked[r] == None && w.outstanding[r] == 0 && w.requests[r] == multiset{}
          && w.gathered[r] == [] && w.replies[r] == [] && w.receipts[r] == 0 && w.handled[r] == 0)
    && w.processed == multiset{}
    && w.created == Union(seq(n, r requires 0 <= r < n => multiset(w.queue[r])))
  }

  // ---------------------------------------------------------------- invariants

  /** `r` has asked `s` and no answer has been sent yet. */
  predicate Awaiting(n: nat, w: Work, r: nat, s: nat)
    requires Shaped(n, w) && r < n
  {
    w.asked[r] == Some(s) && w.replies[r] == []
  }

  predicate PairedAt(n: nat, w: Work, r: nat)
    requires Shaped(n, w) && r < n
  {
    match w.asked[r]
    case None => w.replies[r] == []
    case Some(s) =>
      && s < n && s != r && w.queue[r] == []
      && (w.replies[r] == [] || (|w.replies[r]| == 1 && w.replies[r][0].src == s))
  }

  function Requests(n: nat, w: Work, s: nat, r: nat): nat
    requires Shaped(n, w) && s < n
  {
    w.requests[s][r] + multiset(w.gathered[s])[r]
  }

  /**
   * A rank with `work_requested` set has an empty queue and exactly one request or one reply
   * pending with the rank it asked; any other rank has neither.
   */
  ghost predicate Paired(n: nat, w: Work)
    requires Shaped(n, w)
  {
    && (forall r | 0 <= r < n :: PairedAt(n, w, r))
    && (forall s, r: nat | 0 <= s < n :: Requests(n, w, s, r) == if r < n && Awaiting(n, w, r, s) then 1 else 0)
  }

  /** A reply that carries items sent by `s` heads the box. */
  predicate Carries(box: seq<Reply>, s: nat) {
    box != [] && box[0].src == s && box[0].items != []
  }

  /** Some reply in the box carries items. */
  predicate HasWork(box: seq<Reply>) {
    exists i :: 0 <= i < |box| && box[i].items != []
  }

  ghost function Carriers(w: Work, s: nat): set<nat> {
    set r: nat | r < |w.replies| && Carries(w.replies[r], s)
  }

  /** `work_outstanding` counts the transfers that are travelling or not yet acknowledged. */
  ghost predicate Balanced(n: nat, w: Work)
    requires Shaped(n, w)
  {
    forall s: nat | s < n :: w.outstanding[s] == w.receipts[s] + |Carriers(w, s)|
  }

  ghost function InBox(box: seq<Reply>): multiset<Item> {
    if box == [] then multiset{} else multiset(box[0].items) + InBox(box[1..])
  }

  /** Items each rank is answerable for: those it holds and those travelling to it. */
  ghost function Held(n: nat, w: Work): (h: seq<multiset<Item>>)
    requires Shaped(n, w)
    ensures |h| == n
  {
    seq(n, r requires 0 <= r < n => multiset(w.queue[r]) + InBox(w.replies[r]))
  }

  /** No item is lost or duplicated. */
  ghost predicate Conserved(n: nat, w: Work)
    requires Shaped(n, w)
  {
    w.processed + Union(Held(n, w)) == w.created
  }

  /** The counters of all ranks together count the items processed. */
  ghost predicate Counted(n: nat, w: Work)
    requires Shaped(n, w)
  {
    Sum(w.handled) == |w.processed|
  }

  ghost predicate WorkInv(n: nat, w: Work) {
    Shaped(n, w) && Paired(n, w) && Balanced(n, w) && Conserved(n, w) && Counted(n, w)
  }

  lemma InitEstablishes(n: nat, w: Work)
    requires Init(n, w)
    ensures WorkInv(n, w)
  {
    forall s: nat | s < n ensures Carriers(w, s) == {} {}
    var h := seq(n, r requires 0 <= r < n => multiset(w.queue[r]));
    forall r | 0 <= r < n ensures Held(n, w)[r] == h[r] {}
    assert Held(n, w) == h;
    SumOfZeros(w.handled);
  }

  /** The rank about to be answered is waiting for exactly that answer. */
  lemma ServedIsAwaiting(n: nat, w: Work, s: nat)
    requires Shaped(n, w) && Paired(n, w) && s < n && w.gathered[s] != []
    ensures var r := w.gathered[s][0]; r < n && r != s && Awaiting(n, w, r, s) && PairedAt(n, w, r)
    ensures multiset(w.gathered[s]) == multiset{w.gathered[s][0]} + multiset(w.gathered[s][1..])
  {
    var r := w.gathered[s][0];
    assert w.gathered[s] == [r] + w.gathered[s][1..];
    assert Requests(n, w, s, r) == if r < n && Awaiting(n, w, r, s) then 1 else 0;
    assert PairedAt(n, w, r);
  }

  lemma StepKeepsPairedAt(n: nat, w: Work, a: WorkStep, r: nat)
    requires Shaped(n, w) && Paired(n, w) && Enabled(n, w, a) && r < n
    ensures PairedAt(n, Apply(n, w, a), r)
  {
    assert PairedAt(n, w, r);
    if a.Serve? { ServedIsAwaiting(n, w, a.s); }
    if a.Accept? { assert PairedAt(n, w, a.r); }
  }

  lemma AskKeepsRequests(n: nat, w: Work, t: nat, to: nat, s: nat, r: nat)
    requires Shaped(n, w) && Paired(n, w) && Enabled(n, w, Ask(t, to)) && s < n
    ensures var w' := Apply(n, w, Ask(t, to));
      Requests(n, w', s, r) == if r < n && Awaiting(n, w', r, s) then 1 else 0
  {
    assert PairedAt(n, w, t);
    assert Requests(n, w, s, r) == if r < n && Awaiting(n, w, r, s) then 1 else 0;
  }

  lemma CollectKeepsRequests(n: nat, w: Work, t: nat, from: nat, s: nat, r: nat)
    requires Shaped(n, w) && Paired(n, w) && Enabled(n, w, Collect(t, from)) && s < n
    ensures Requests(n, Apply(n, w, Collect(t, from)), s, r) == Requests(n, w, s, r)
  {
    assert multiset(w.gathered[t] + [from]) == multiset(w.gathered[t]) + multiset{from};
  }

  lemma ServeKeepsRequests(n: nat, w: Work, t: nat, share: nat, s: nat, r: nat)
    requires Shaped(n, w) && Paired(n, w) && Enabled(n, w, Serve(t, share)) && s < n
    ensures var w' := Apply(n, w, Serve(t, share));
      Requests(n, w', s, r) == if r < n && Awaiting(n, w', r, s) then 1 else 0
  {
    ServedIsAwaiting(n, w, t);
    assert Requests(n, w, s, r) == if r < n && Awaiting(n, w, r, s) then 1 else 0;
  }

  lemma AcceptKeepsRequests(n: nat, w: Work, t: nat, j: nat, s: nat, r: nat)
    requires Shaped(n, w) && Paired(n, w) && Enabled(n, w, Accept(t, j)) && s < n
    ensures var w' := Apply(n, w, Accept(t, j));
      Requests(n, w', s, r) == if r < n && Awaiting(n, w', r, s) then 1 else 0
  {
    assert PairedAt(n, w, t);
    assert Requests(n, w, s, r) == if r < n && Awaiting(n, w, r, s) then 1 else 0;
  }

  lemma StepKeepsRequests(n: nat, w: Work, a: WorkStep, s: nat, r: nat)
    requires Shaped(n, w) && Paired(n, w) && Enabled(n, w, a) && s < n
    ensures var w' := Apply(n, w, a); Requests(n, w', s, r) == if r < n && Awaiting(n, w', r, s) then 1 else 0
  {
    assert Requests(n, w, s, r) == if r < n && Awaiting(n, w, r, s) then 1 else 0;
    match a
    case Ask(t, to) => AskKeepsRequests(n, w, t, to, s, r);
    case Collect(t, from) => CollectKeepsRequests(n, w, t, from, s, r);
    case Serve(t, share) => ServeKeepsRequests(n, w, t, share, s, r);
    case Accept(t, j) => AcceptKeepsRequests(n, w, t, j, s, r);
    case _ =>
  }

  lemma StepKeepsPaired(n: nat, w: Work, a: WorkStep)
    requires Shaped(n, w) && Paired(n, w) && Enabled(n, w, a)
    ensures Paired(n, Apply(n, w, a))
  {
    var w' := Apply(n, w, a);
    forall r | 0 <= r < n ensures PairedAt(n, w', r) {
      StepKeepsPairedAt(n, w, a, r);
    }
    forall s, r: nat | 0 <= s < n
      ensures Requests(n, w', s, r) == if r < n && Awaiting(n, w', r, s) then 1 else 0
    {
      StepKeepsRequests(n, w, a, s, r);
    }
  }

  lemma StepMovesCarriers(n: nat, w: Work, a: WorkStep, s: nat)
    requires Shaped(n, w) && Paired(n, w) && Enabled(n, w, a) && s < n
    ensures Carriers(Apply(n, w, a), s) ==
      match a
      case Serve(t, share) => if s == t && share > 0 then Carriers(w, s) + {w.gathered[t][0]} else Carriers(w, s)
      case Accept(r, _) => Carriers(w, s) - {r}
      case _ => Carriers(w, s)
    ensures a.Accept? ==> (a.r in Carriers(w, s) <==> w.asked[a.r] == Some(s) && w.replies[a.r][a.j].items != [])
    ensures a.Serve? ==> w.gathered[a.s][0] !in Carriers(w, s)
  {
    match a
    case Serve(t, _) => ServedIsAwaiting(n, w, t);
    case Accept(t, _) => assert PairedAt(n, w, t);
    case _ =>
  }

  lemma StepKeepsBalanced(n: nat, w: Work, a: WorkStep)
    requires Shaped(n, w) && Paired(n, w) && Balanced(n, w) && Enabled(n, w, a)
    ensures Balanced(n, Apply(n, w, a))
  {
    var w' := Apply(n, w, a);
    forall s: nat | s < n ensures w'.outstanding[s] == w'.receipts[s] + |Carriers(w', s)| {
      StepMovesCarriers(n, w, a, s);
      assert w.outstanding[s] == w.receipts[s] + |Carriers(w, s)|;
      if a.Accept? { assert PairedAt(n, w, a.r); }
    }
  }

  lemma ServeMoves(n: nat, w: Work, s: nat, share: nat)
    requires Shaped(n, w) && Paired(n, w) && Enabled(n, w, Serve(s, share))
    ensures var r, w' := w.gathered[s][0], Apply(n, w, Serve(s, share));
      && w'.replies == w.replies[r := [Reply(s, Sent(w.queue[s], share))]] && w.replies[r] == []
      && w'.queue == w.queue[s := Kept(w.queue[s], share)]
      && w'.processed == w.processed && w'.created == w.created && r != s
  {
    ServedIsAwaiting(n, w, s);
    var r, reply := w.gathered[s][0], Reply(s, Sent(w.queue[s], share));
    assert w.replies[r] + [reply] == [reply];
  }

  lemma OneReply(src: nat, items: seq<Item>)
    ensures InBox([]) == multiset{} && InBox([Reply(src, items)]) == multiset(items)
  {
    assert [Reply(src, items)][1..] == [];
  }

  lemma ServeConserves(n: nat, w: Work, s: nat, share: nat)
    requires Shaped(n, w) && Paired(n, w) && Conserved(n, w) && Enabled(n, w, Serve(s, share))
    ensures Conserved(n, Apply(n, w, Serve(s, share)))
  {
    ServedIsAwaiting(n, w, s);
    ServeMoves(n, w, s, share);
    HandOverConserves(n, w, Apply(n, w, Serve(s, share)), s, w.gathered[s][0], share);
  }

  lemma HandOverConserves(n: nat, w: Work, w': Work, s: nat, r: nat, share: nat)
    requires Shaped(n, w) && Shaped(n, w') && Conserved(n, w) && s < n && r < n && r != s && share <= |w.queue[s]|
    requires w'.replies == w.replies[r := [Reply(s, Sent(w.queue[s], share))]] && w.replies[r] == []
    requires w'.queue == w.queue[s := Kept(w.queue[s], share)]
    requires w'.processed == w.processed && w'.created == w.created
    ensures Conserved(n, w')
  {
    var q, h, h' := w.queue[s], Held(n, w), Held(n, w');
    var sent := Sent(q, share);
    OneReply(s, sent);
    assert q == Kept(q, share) + sent;
    forall i | 0 <= i < n ensures h'[i] == h[s := h'[s]][r := h'[r]][i] {}
    MoveKeepsUnion(h, h', s, r, multiset(sent));
  }

  lemma AcceptConserves(n: nat, w: Work, r: nat, j: nat)
    requires Shaped(n, w) && Paired(n, w) && Conserved(n, w) && Enabled(n, w, Accept(r, j))
    ensures Conserved(n, Apply(n, w, Accept(r, j)))
  {
    AcceptMoves(n, w, r, j);
    var w' := Apply(n, w, Accept(r, j));
    var h, h' := Held(n, w), Held(n, w');
    OneReply(w.replies[r][0].src, w.replies[r][0].items);
    forall i | 0 <= i < n ensures h'[i] == h[i] {}
    assert h' == h;
  }

  lemma AcceptMoves(n: nat, w: Work, r: nat, j: nat)
    requires Shaped(n, w) && Paired(n, w) && Enabled(n, w, Accept(r, j))
    ensures var w' := Apply(n, w, Accept(r, j));
      && w.replies[r] == [Reply(w.replies[r][0].src, w.replies[r][0].items)] && w'.replies == w.replies[r := []]
      && w.queue[r] == [] && w'.queue == w.queue[r := w.replies[r][0].items]
      && w'.processed == w.processed && w'.created == w.created
  {
    assert PairedAt(n, w, r);
    var box := w.replies[r];
    assert j == 0 && box == [box[0]] && box[..0] + box[1..] == [];
    if box[0].items == [] { assert w.queue == w.queue[r := []]; }
  }

  /** If what leaves one slot is what is added elsewhere, totals stay equal. */
  lemma ReplaceKeepsBalance(h: seq<multiset<Item>>, i: nat, v: multiset<Item>, out: multiset<Item>, add: multiset<Item>,
        done: multiset<Item>, made: multiset<Item>)
    requires i < |h| && v + out == h[i] + add && done + Union(h) == made
    ensures done + out + Union(h[i := v]) == made + add
  {
    UnionUpdate(h, i, v);
    assert done + out + Union(h[i := v]) + h[i] == done + out + (Union(h[i := v]) + h[i]);
    assert done + out + (Union(h) + v) == done + Union(h) + (v + out);
    assert made + add + h[i] == done + Union(h) + (h[i] + add);
    Cancel(done + out + Union(h[i := v]), made + add, h[i]);
  }

  /** Popping the top and pushing on what is below. */
  lemma PopAndPush(q: seq<Item>, spawned: seq<Item>, box: multiset<Item>)
    requires q != []
    ensures var top := multiset{q[|q| - 1]};
      multiset(q[..|q| - 1] + spawned) + box + top == multiset(q) + box + multiset(spawned)
  {
    assert q == q[..|q| - 1] + [q[|q| - 1]];
  }

  lemma ProcessMoves(n: nat, w: Work, r: nat, spawned: seq<Item>)
    requires Shaped(n, w) && Enabled(n, w, Process(r, spawned))
    ensures var w' := Apply(n, w, Process(r, spawned)); var q := w.queue[r];
      && Held(n, w') == Held(n, w)[r := multiset(q[..|q| - 1] + spawned) + InBox(w.replies[r])]
      && w'.processed == w.processed + multiset{q[|q| - 1]} && w'.created == w.created + multiset(spawned)
  {
  }

  lemma HeldAt(n: nat, w: Work, r: nat)
    requires Shaped(n, w) && r < n
    ensures Held(n, w)[r] == multiset(w.queue[r]) + InBox(w.replies[r])
  {
  }

  lemma ProcessConserves(n: nat, w: Work, r: nat, spawned: seq<Item>)
    requires Shaped(n, w) && Conserved(n, w) && Enabled(n, w, Process(r, spawned))
    ensures Conserved(n, Apply(n, w, Process(r, spawned)))
  {
    ProcessMoves(n, w, r, spawned);
    HeldAt(n, w, r);
    ProcessBalances(Held(n, w), r, w.queue[r], spawned, InBox(w.replies[r]), w.processed, w.created);
  }

  lemma ProcessBalances(h: seq<multiset<Item>>, r: nat, q: seq<Item>, spawned: seq<Item>, box: multiset<Item>,
        done: multiset<Item>, made: multiset<Item>)
    requires r < |h| && q != [] && h[r] == multiset(q) + box && done + Union(h) == made
    ensures var v := multiset(q[..|q| - 1] + spawned) + box;
      done + multiset{q[|q| - 1]} + Union(h[r := v]) == made + multiset(spawned)
  {
    PopAndPush(q, spawned, box);
    ReplaceKeepsBalance(h, r, multiset(q[..|q| - 1] + spawned) + box, multiset{q[|q| - 1]}, multiset(spawned),
                        done, made);
  }

  /** Every step conserves work: nothing queued, in flight or processed appears or disappears. */
  lemma StepKeepsConserved(n: nat, w: Work, a: WorkStep)
    requires Shaped(n, w) && Paired(n, w) && Conserved(n, w) && Enabled(n, w, a)
    ensures Conserved(n, Apply(n, w, a))
  {
    match a
    case Serve(s, share) => ServeConserves(n, w, s, share);
    case Accept(r, j) => AcceptConserves(n, w, r, j);
    case Process(r, spawned) => ProcessConserves(n, w, r, spawned);
    case _ => assert Held(n, Apply(n, w, a)) == Held(n, w);
  }

  lemma StepKeepsCounted(n: nat, w: Work, a: WorkStep)
    requires Shaped(n, w) && Counted(n, w) && Enabled(n, w, a)
    ensures Counted(n, Apply(n, w, a))
  {
    if a.Process? { SumUpdate(w.handled, a.r, w.handled[a.r] + 1); }
  }

  lemma StepKeepsWorkInv(n: nat, w: Work, a: WorkStep)
    requires WorkInv(n, w) && Enabled(n, w, a)
    ensures WorkInv(n, Apply(n, w, a))
  {
    StepKeepsPaired(n, w, a);
    StepKeepsBalanced(n, w, a);
    StepKeepsConserved(n, w, a);
    StepKeepsCounted(n, w, a);
  }
}
