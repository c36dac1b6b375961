/** The state of one rank and the handlers its main loop calls, in the source's own form. */
module RankState {
  import opened Common
  import opened KaryTree
  import opened Packing
  import opened PackedQueue
  import opened WorkSplit
  import opened System
  import opened HandlerCalls
  import opened ReduceCalls
  import W = WorkProtocol
  import R = TokenRing
  import D = BackgroundReduce
  import B = BarrierRounds
  import Folding
  import FinalReduce
  import ReduceSum

  /** What the termination checks return. */
  datatype Status = GoOn | Terminated

  /** A packet as `sendWork` or `sendNoWork` builds it: this is what a receiver may rely on. */
  predicate WellFormed(p: Packet) {
    && p.ints != []
    && (p.ints[0] > 0 ==>
          && |p.ints| == p.ints[0] + 2 && p.ints[1] == |p.bytes|
          && forall i | 2 <= i < |p.ints| :: 0 <= p.ints[i])
  }

  lemma ShippedIsWellFormed(p: Packet, items: seq<Item>)
    requires Ships(p, items)
    ensures WellFormed(p) && p.ints[0] == |items|
  {
    if items != [] {
      var offsets :| ShipsAt(p, items, offsets);
      forall i | 2 <= i < |p.ints| ensures 0 <= p.ints[i] { assert p.ints[i] == offsets[i - 2]; }
    }
  }

  /** How many blocks carry anything. */
  function Transfers(blocks: seq<seq<Item>>): nat {
    if blocks == [] then 0
    else Transfers(blocks[..|blocks| - 1]) + if blocks[|blocks| - 1] != [] then 1 else 0
  }

  lemma {:induction false} SumPrefix(s: seq<nat>, i: nat)
    requires i <= |s|
    ensures Sum(s[..i]) <= Sum(s)
    decreases |s|
  {
    if i < |s| {
      SumPrefix(s[..|s| - 1], i);
      assert s[..|s| - 1][..i] == s[..i];
    } else {
      assert s[..i] == s;
    }
  }

  /** The offsets of the items to be sent, relative to the first byte to be sent. */
  method OffsetsToSend(strings: seq<nat>, startElem: nat, count: nat) returns (offsets: seq<int>)
    requires startElem + count <= |strings| && 0 < count
    requires forall i, j | 0 <= i < j < startElem + count :: strings[i] < strings[j]
    ensures offsets == Rebased(strings[..startElem + count], startElem)
  {
    offsets := [];
    var currentElem := startElem;
    ghost var all := Rebased(strings[..startElem + count], startElem);
    for i := 0 to count
      invariant currentElem == startElem + i && offsets == all[..i]
    {
      offsets := offsets + [strings[currentElem] - strings[startElem]];
      currentElem := currentElem + 1;
    }
    assert all[..count] == all;
  }

  lemma CutKeeps(base: seq<byte>, offsets: seq<nat>, head: nat, share: nat)
    requires Packed(offsets, head) && head <= |base| && 0 < share <= |offsets|
    ensures var s := |offsets| - share;
      && offsets[s] <= head && Packed(offsets[..s], offsets[s])
      && Unpack(base, offsets[..s], offsets[s]) == W.Kept(Unpack(base, offsets, head), share)
  {
    UnpackPrefix(base, offsets, head, |offsets| - share);
  }

  lemma CutSends(base: seq<byte>, offsets: seq<nat>, head: nat, share: nat)
    requires Packed(offsets, head) && head <= |base| && 0 < share <= |offsets|
    ensures var s := |offsets| - share;
      && offsets[s] <= head && Packed(Rebased(offsets, s), head - offsets[s])
      && Unpack(base[offsets[s]..head], Rebased(offsets, s), head - offsets[s])
      == W.Sent(Unpack(base, offsets, head), share)
  {
    UnpackSuffix(base, offsets, head, |offsets| - share);
  }

  /** Cutting the layout at an item splits the list of items there, byte for byte. */
  lemma CutLaws(base: seq<byte>, offsets: seq<nat>, head: nat, share: nat)
    requires Packed(offsets, head) && head <= |base| && 0 < share <= |offsets|
    ensures var s := |offsets| - share; var items := Unpack(base, offsets, head);
      && offsets[s] <= head && Packed(offsets[..s], offsets[s])
      && Unpack(base, offsets[..s], offsets[s]) == W.Kept(items, share)
      && Packed(Rebased(offsets, s), head - offsets[s])
      && Unpack(base[offsets[s]..head], Rebased(offsets, s), head - offsets[s]) == W.Sent(items, share)
  {
    CutKeeps(base, offsets, head, share);
    CutSends(base, offsets, head, share);
  }

  /** What the sender puts into a packet carries the items it cuts off. */
  lemma PacketShips(base: seq<byte>, offsets: seq<nat>, head: nat, share: nat, pkt: Packet)
    requires Packed(offsets, head) && head <= |base| && 0 < share <= |offsets|
    requires offsets[|offsets| - share] <= head && pkt.bytes == base[offsets[|offsets| - share]..head]
    requires pkt.ints == [share, |pkt.bytes|] + Rebased(offsets, |offsets| - share)
    ensures Ships(pkt, W.Sent(Unpack(base, offsets, head), share))
  {
    CutLaws(base, offsets, head, share);
    assert ShipsAt(pkt, W.Sent(Unpack(base, offsets, head), share), Rebased(offsets, |offsets| - share));
  }

  /** The packet for the top `count` items of the queue. */
  method PackTop(qp: Queue, count: nat) returns (pkt: Packet)
    requires qp.Valid() && 0 < count <= |qp.Contents()|
    ensures Ships(pkt, W.Sent(qp.Contents(), count))
  {
    ghost var offsets := qp.strings[..qp.count];
    CutKeeps(qp.base, offsets, qp.head, count);
    var startElem := qp.count - count;
    var startOffset := qp.strings[startElem];
    assert startOffset == offsets[startElem] <= qp.head;
    var bytes := qp.head - startOffset;
    var sendBuf := OffsetsToSend(qp.strings, startElem, count);
    pkt := Packet([count, bytes] + sendBuf, qp.base[startOffset..qp.head]);
    PacketShips(qp.base, offsets, qp.head, count, pkt);
  }

  /** Packs the top `count` items of the queue and takes them off it. */
  method CutTop(qp: Queue, count: nat) returns (pkt: Packet)
    requires qp.Valid() && 0 < count <= |qp.Contents()|
    modifies qp`count, qp`head
    ensures qp.Valid() && qp.Contents() == W.Kept(old(qp.Contents()), count)
    ensures Ships(pkt, W.Sent(old(qp.Contents()), count))
  {
    ghost var offsets := qp.strings[..qp.count];
    pkt := PackTop(qp, count);
    CutKeeps(qp.base, offsets, qp.head, count);
    var startElem := qp.count - count;
    var startOffset := qp.strings[startElem];
    qp.count := qp.count - count;
    qp.head := startOffset;
    assert qp.strings[..qp.count] == offsets[..startElem];
  }

  /** Cutting one more block off what is kept leaves the stack as it was. */
  lemma CutOneBlock(before: seq<Item>, share: nat, blocks: seq<seq<Item>>)
    requires share <= |before|
    ensures var blocks' := blocks + [W.Sent(before, share)];
      && Stacked(W.Kept(before, share), blocks') == Stacked(before, blocks)
      && Transfers(blocks') == Transfers(blocks) + if share > 0 then 1 else 0
  {
    var block := W.Sent(before, share);
    assert before == W.Kept(before, share) + block;
    StackedAppend(W.Kept(before, share), block, blocks);
    assert (blocks + [block])[..|blocks|] == blocks;
  }

  /** Packet `i` carries block `i`, which has the size of share `i`. */
  ghost predicate Dealt(pkts: seq<Packet>, blocks: seq<seq<Item>>, shares: seq<nat>) {
    && |pkts| == |blocks| == |shares|
    && forall i | 0 <= i < |pkts| :: Ships(pkts[i], blocks[i]) && |blocks[i]| == shares[i]
  }

  lemma DealtOneMore(pkts: seq<Packet>, blocks: seq<seq<Item>>, shares: seq<nat>,
        pkt: Packet, block: seq<Item>, share: nat)
    requires Dealt(pkts, blocks, shares) && Ships(pkt, block) && |block| == share
    ensures Dealt(pkts + [pkt], blocks + [block], shares + [share])
  {
  }

  lemma TakeOneMore(shares: seq<nat>, i: nat)
    requires i < |shares|
    ensures shares[..i + 1] == shares[..i] + [shares[i]]
    ensures Sum(shares[..i + 1]) == Sum(shares[..i]) + shares[i] <= Sum(shares)
  {
    assert shares[..i + 1][..i] == shares[..i];
    SumPrefix(shares, i + 1);
  }

  /** The sender's colour after sending the blocks: a non-empty block may blacken it. */
  function Darkened(rank: nat, size: nat, proc: R.Colour, dests: seq<nat>, blocks: seq<seq<Item>>): R.Colour
    requires rank < size && |dests| == |blocks|
  {
    if dests == [] then proc else
      var m := |dests| - 1;
      var before := Darkened(rank, size, proc, dests[..m], blocks[..m]);
      if blocks[m] != [] then R.ProcAfterSendWork(rank, size, dests[m], before) else before
  }

  lemma DarkenedOneMore(rank: nat, size: nat, proc: R.Colour, dests: seq<nat>, i: nat,
        blocks: seq<seq<Item>>, block: seq<Item>)
    requires rank < size && i < |dests| && |blocks| == i
    ensures Darkened(rank, size, proc, dests[..i + 1], blocks + [block]) ==
      var before := Darkened(rank, size, proc, dests[..i], blocks);
      if block != [] then R.ProcAfterSendWork(rank, size, dests[i], before) else before
  {
    assert dests[..i + 1][..i] == dests[..i] && (blocks + [block])[..i] == blocks;
  }

  /** Block `i` holds items and went to a lower rank or to the predecessor of `rank` in the ring. */
  predicate SentBackAt(rank: nat, size: nat, dests: seq<nat>, blocks: seq<seq<Item>>, i: nat)
    requires i < |dests| == |blocks|
  {
    blocks[i] != [] && (dests[i] < rank || dests[i] == if rank == 0 then size - 1 else rank - 1)
  }

  /** A sender turns black exactly if some items go back; otherwise it keeps its colour. */
  lemma {:induction false} DarkenedExactly(rank: nat, size: nat, proc: R.Colour, dests: seq<nat>,
        blocks: seq<seq<Item>>)
    requires rank < size && |dests| == |blocks|
    ensures Darkened(rank, size, proc, dests, blocks) ==
      if exists i: nat :: i < |dests| && SentBackAt(rank, size, dests, blocks, i) then R.Black else proc
    decreases |dests|
  {
    if dests != [] {
      var m := |dests| - 1;
      DarkenedExactly(rank, size, proc, dests[..m], blocks[..m]);
      forall i: nat | i < m
        ensures SentBackAt(rank, size, dests[..m], blocks[..m], i) == SentBackAt(rank, size, dests, blocks, i)
      {
      }
      assert SentBackAt(rank, size, dests, blocks, m)
        == (blocks[m] != [] && (dests[m] < rank || dests[m] == R.TokenSrc(rank, size)));
    }
  }

  /** The abort marker in a work reply. */
  const PAYLOAD_ABORT: int := -32

  /** A packet that announces items is acknowledged if its first offset is 0, as the sender makes it. */
  predicate IsAcknowledged(pkt: Packet)
    requires pkt.ints != [] ==> WellFormed(pkt)
  {
    pkt.ints != [] && pkt.ints[0] > 0 && pkt.ints[2] == 0
  }

  /** What `workReceive` returns for a packet. */
  function ReceiveCode(pkt: Packet): int
    requires pkt.ints != [] ==> WellFormed(pkt)
  {
    if pkt.ints == [] then -1
    else if pkt.ints[0] == PAYLOAD_ABORT then PAYLOAD_ABORT
    else if pkt.ints[0] == 0 || IsAcknowledged(pkt) then 0
    else -1
  }

  /** Laying received bytes and offsets over a pool gives the items exactly when nothing was below. */
  lemma RebuildExactly(base: seq<byte>, bytes: Item, offsets: seq<nat>, below: nat)
    requires Packed(offsets, |bytes|) && offsets != [] && below + |bytes| <= |base| && base[..|bytes|] == bytes
    ensures Packed(offsets, below + |bytes|)
    ensures Unpack(base, offsets, below + |bytes|) == Unpack(bytes, offsets, |bytes|) <==> below == 0
  {
    var last := |offsets| - 1;
    if below == 0 {
      UnpackSameBytes(base, bytes, offsets, |bytes|);
    } else {
      EndIsBeyond(offsets, |bytes|, last);
      assert |Unpack(base, offsets, below + |bytes|)[last]| == |Unpack(bytes, offsets, |bytes|)[last]| + below;
    }
  }

  lemma {:induction false} NothingStacked(kept: seq<Item>, blocks: seq<seq<Item>>)
    requires forall i | 0 <= i < |blocks| :: blocks[i] == []
    ensures Stacked(kept, blocks) == kept && Transfers(blocks) == 0
  {
    if blocks != [] {
      NothingStacked(kept, blocks[1..]);
      NoTransfers(blocks);
    }
  }

  lemma {:induction false} NothingDarkens(rank: nat, size: nat, proc: R.Colour, dests: seq<nat>, blocks: seq<seq<Item>>)
    requires rank < size && |dests| == |blocks| && forall i | 0 <= i < |blocks| :: blocks[i] == []
    ensures Darkened(rank, size, proc, dests, blocks) == proc
  {
    if dests != [] {
      var m := |dests| - 1;
      NothingDarkens(rank, size, proc, dests[..m], blocks[..m]);
    }
  }

  /** Answering everybody with nothing. */
  lemma NothingSent(kept: seq<Item>, rank: nat, size: nat, proc: R.Colour, dests: seq<nat>, blocks: seq<seq<Item>>,
        pkts: seq<Packet>)
    requires rank < size && |dests| == |blocks| == |pkts|
    requires (forall i | 0 <= i < |blocks| :: blocks[i] == []) && forall i | 0 <= i < |pkts| :: pkts[i] == NO_WORK
    ensures Stacked(kept, blocks) == kept && Transfers(blocks) == 0
    ensures Darkened(rank, size, proc, dests, blocks) == proc
    ensures forall i | 0 <= i < |pkts| :: Ships(pkts[i], blocks[i])
  {
    NothingStacked(kept, blocks);
    NothingDarkens(rank, size, proc, dests, blocks);
  }

  lemma {:induction false} NoTransfers(blocks: seq<seq<Item>>)
    requires forall i | 0 <= i < |blocks| :: blocks[i] == []
    ensures Transfers(blocks) == 0
  {
    if blocks != [] { NoTransfers(blocks[..|blocks| - 1]); }
  }

  /** What a receiver ends up with when it lays the packet over its pool with `below` bytes in use. */
  lemma StoredItems(pkt: Packet, items: seq<Item>, base: seq<byte>, offsets: seq<nat>, below: nat)
    requires items != [] && Ships(pkt, items) && WellFormed(pkt)
    requires offsets == pkt.ints[2..] && below + |pkt.bytes| <= |base| && base[..|pkt.bytes|] == pkt.bytes
    ensures offsets != [] && offsets[0] == 0 && Packed(offsets, below + |pkt.bytes|)
    ensures Unpack(base, offsets, below + |pkt.bytes|) == items <==> below == 0
  {
    var o :| ShipsAt(pkt, items, o);
    assert offsets == o;
    RebuildExactly(base, pkt.bytes, o, below);
  }

  /** Copies the packet's offsets into the queue's array, which grows if need be. */
  method StoreOffsets(qp: Queue, pkt: Packet)
    requires qp.Valid() && WellFormed(pkt) && pkt.ints[0] > 0
    modifies qp`strings
    ensures pkt.ints[0] <= |qp.strings| && qp.strings[..pkt.ints[0]] == pkt.ints[2..]
  {
    var count := pkt.ints[0];
    if count > |qp.strings| {
      qp.ExtendStr(count);
    }
    var i := 0;
    while i < count
      invariant 0 <= i <= count <= |qp.strings|
      invariant forall j | 0 <= j < i :: qp.strings[j] == pkt.ints[j + 2]
    {
      qp.strings := qp.strings[i := pkt.ints[i + 2]];
      i := i + 1;
    }
  }

  /** Copies the packet's bytes to the start of the pool, which grows if need be. */
  method StoreBytes(qp: Queue, pkt: Packet)
    requires qp.Valid()
    modifies qp`base
    ensures qp.Valid() && qp.head + |pkt.bytes| <= |qp.base| && qp.base[..|pkt.bytes|] == pkt.bytes
  {
    var newBytes := qp.head + |pkt.bytes|;
    if newBytes > |qp.base| {
      qp.Extend(newBytes);
    }
    qp.base := Overwrite(qp.base, 0, pkt.bytes);
  }

  /** The queue's fields after a packet has been laid over a pool with `below` bytes in use. */
  predicate LaidOver(pkt: Packet, base: seq<byte>, strings: seq<nat>, count: nat, head: nat, below: nat)
    requires WellFormed(pkt) && pkt.ints[0] > 0
  {
    && CopiedIn(pkt, base, strings)
    && count == pkt.ints[0] && head == below + |pkt.bytes| <= |base|
  }

  /** The packet's bytes and offsets have been copied to the start of the pool and the array. */
  predicate CopiedIn(pkt: Packet, base: seq<byte>, strings: seq<nat>)
    requires WellFormed(pkt) && pkt.ints[0] > 0
  {
    && pkt.ints[0] <= |strings| && strings[..pkt.ints[0]] == pkt.ints[2..]
    && |pkt.bytes| <= |base| && base[..|pkt.bytes|] == pkt.bytes
  }

  lemma ShippedFromZero(pkt: Packet, items: seq<Item>)
    requires items != [] && Ships(pkt, items)
    ensures |pkt.ints| > 2 && pkt.ints[2] == 0
  {
    var o :| ShipsAt(pkt, items, o);
    assert pkt.ints[2] == o[0];
  }

  lemma ReceivedItems(pkt: Packet, items: seq<Item>, base: seq<byte>, strings: seq<nat>,
        count: nat, head: nat, below: nat)
    requires items != [] && Ships(pkt, items) && WellFormed(pkt)
    requires pkt.ints[0] > 0 && (pkt.ints[2] == 0 ==> LaidOver(pkt, base, strings, count, head, below))
    ensures pkt.ints[2] == 0 && count <= |strings| && head <= |base| && Packed(strings[..count], head)
    ensures Unpack(base, strings[..count], head) == items <==> below == 0
  {
    ShippedFromZero(pkt, items);
    StoredItems(pkt, items, base, strings[..count], below);
  }

  /** Stores the bytes and offsets of a packet that announces items. */
  method Unload(qp: Queue, pkt: Packet) returns (rc: int, receipt: bool)
    requires qp.Valid() && WellFormed(pkt) && pkt.ints[0] > 0
    modifies qp
    ensures receipt == (pkt.ints[2] == 0) && rc == if receipt then 0 else -1
    ensures receipt ==> LaidOver(pkt, qp.base, qp.strings, qp.count, qp.head, old(qp.head))
    ensures !receipt ==> CopiedIn(pkt, qp.base, qp.strings) && qp.count == old(qp.count) && qp.head == old(qp.head)
  {
    var count, chars := pkt.ints[0], pkt.ints[1];
    StoreBytes(qp, pkt);
    StoreOffsets(qp, pkt);
    assert qp.strings[..count][0] == pkt.ints[2..][0];
    if qp.strings[0] != 0 {
      return -1, false;
    }
    qp.count := count;
    qp.head := qp.head + chars;
    return 0, true;
  }

  /** What one answer says, by header and body. */
  function CountsOf(answers: seq<seq<D.Frame>>): seq<int> {
    seq(|answers|, i requires 0 <= i < |answers| => ReduceSum.FrameCount(answers[i]))
  }

  function ValuesOf(answers: seq<seq<D.Frame>>): seq<Item>
    requires forall i | 0 <= i < |answers| :: D.Parses(answers[i])
  {
    seq(|answers|, i requires 0 <= i < |answers| => D.AnswerData(answers[i]))
  }

  /** An answer is read back as it was meant; one that is not valid carries no data. */
  lemma AnswerRoundTrip(valid: bool, count: int, data: Item)
    ensures var frames := D.Frames(valid, count, data);
      && D.Parses(frames) && frames[0].valid == valid && |frames| == (if D.ExpectsBody(frames[0]) then 2 else 1)
      && CountsOf([frames]) == [count] && ValuesOf([frames]) == [if valid then data else []]
  {
  }

  /** Fills the array of requestors, which has room for one request of every rank. */
  method CollectRequestors(size: nat, requests: seq<nat>) returns (collected: seq<nat>)
    requires |requests| <= size
    ensures collected == requests
  {
    var requestors := new nat[size];
    var rcount := 0;
    while rcount < |requests|
      invariant 0 <= rcount <= |requests| && requestors[..rcount] == requests[..rcount]
    {
      requestors[rcount] := requests[rcount];
      rcount := rcount + 1;
    }
    assert requests[..rcount] == requests;
    collected := requestors[..rcount];
  }

  class State {
    const rank: nat
    const size: nat
    const queue: Queue
    const tree: TreeState
    const splitEqual: bool
    const op: Folding.Op

    var tokenIsLocal: bool
    var tokenProc: R.Colour
    var tokenBuf: R.Colour
    const tokenSrc: nat
    const tokenDest: nat
    var tokenSendPending: bool

    var workRequested: bool
    var workRequestedRank: nat
    var workOutstanding: nat

    var termFlag: bool
    var termUp: bool
    var termReplies: nat

    var barrierStarted: bool
    var barrierUp: bool
    var barrierReplies: nat

    var reduceOutstanding: bool
    var reduceReplies: nat
    var reduceValid: bool
    var reduceTotal: int
    var reduceBytes: nat
    var reduceBuf: Item

    /** What the handlers that move work need. */
    ghost predicate Ready()
      reads this, queue
    {
      rank < size && tokenSrc == R.TokenSrc(rank, size) && tokenDest == R.TokenDest(rank, size) && queue.Valid()
    }

    ghost predicate Valid()
      reads this, queue, tree, tree.childrenRanks
    {
      Ready() && tree.Valid() && tree.rank == rank && tree.nranks == size
    }

    function Term(): TermLocal
      reads this
    {
      TermLocal(termFlag, termUp, termReplies)
    }

    function Bar(): B.BarLocal
      reads this
    {
      B.BarLocal(barrierStarted, barrierUp, barrierReplies)
    }

    function Red(): RedLocal
      reads this
    {
      RedLocal(reduceOutstanding, reduceReplies, reduceValid, reduceTotal, reduceBytes, reduceBuf)
    }

    /** A rank starts as the first states of all protocols say. */
    constructor (rank_: nat, size_: nat, width: nat, queue_: Queue, splitEqual_: bool, op_: Folding.Op)
      requires rank_ < size_ && 0 < width && queue_.Valid()
      ensures Valid() && rank == rank_ && size == size_ && queue == queue_ && fresh(tree) && tree.maxChildren == width
      ensures splitEqual == splitEqual_ && op == op_
      ensures tokenIsLocal == R.Start(size).local[rank] == (rank == 0)
      ensures tokenProc == R.Start(size).proc[rank] == R.White && tokenBuf == R.Start(size).buf[rank] == R.Black
      ensures tokenSendPending == R.Start(size).pending[rank] == false
      ensures !workRequested && workOutstanding == 0
      ensures Term() == TermLocal(true, false, 0) && Bar() == B.BarLocal(false, false, 0) && !reduceOutstanding
    {
      rank, size, queue, splitEqual, op := rank_, size_, queue_, splitEqual_, op_;
      tokenIsLocal := rank_ == 0;
      tokenSrc, tokenDest := R.TokenSrc(rank_, size_), R.TokenDest(rank_, size_);
      tokenProc, tokenBuf, tokenSendPending := R.White, R.Black, false;
      workRequested, workRequestedRank, workOutstanding := false, 0, 0;
      termFlag, termUp, termReplies := true, false, 0;
      barrierStarted, barrierUp, barrierReplies := false, false, 0;
      reduceOutstanding, reduceReplies, reduceValid, reduceTotal, reduceBytes, reduceBuf := false, 0, false, 0, 0, [];
      tree := new TreeState(rank_, size_, width);
    }

    // -------------------------------------------------------------- work

    /** Cuts `count` items off the top of the queue and packs them for `dest`. */
    method SendWork(dest: nat, count: int) returns (pkt: Packet)
      requires Ready() && count <= |queue.Contents()|
      modifies queue`count, queue`head, this`tokenProc, this`workOutstanding
      ensures Ready()
      ensures var share := if count <= 0 then 0 else count;
        && queue.Contents() == W.Kept(old(queue.Contents()), share)
        && Ships(pkt, W.Sent(old(queue.Contents()), share))
      ensures workOutstanding == old(workOutstanding) + if count > 0 then 1 else 0
      ensures tokenProc ==
        if count > 0 && (dest < rank || dest == if rank == 0 then size - 1 else rank - 1) then R.Black
        else old(tokenProc)
    {
      if count <= 0 {
        return NO_WORK;
      }
      if dest < rank || dest == tokenSrc {
        tokenProc := R.Black;
      }
      pkt := CutTop(queue, count);
      workOutstanding := workOutstanding + 1;
    }

    /** How many items to keep (first entry) and how many each requestor gets. */
    method ChooseSizes(count: nat, rcount: nat, pick: nat) returns (sizes: seq<nat>)
      requires 0 < count && 0 < rcount
      ensures sizes == Sizes(splitEqual, count, rcount, pick) && Fair(sizes, count, rcount, splitEqual)
      ensures !splitEqual ==>
        Sum(sizes[1..]) == if pick % count + 1 < count then pick % count + 1 else count - 1
    {
      SizesAreFair(splitEqual, count, rcount, pick);
      var numRanks := rcount + 1;
      var a := new nat[numRanks];
      if splitEqual {
        SpreadCounts(a, 0, numRanks, count);
      } else {
        var sendCount := pick % count + 1;
        if sendCount == count {
          sendCount := sendCount - 1;
        }
        a[0] := count - sendCount;
        SpreadCounts(a, 1, rcount, sendCount);
      }
      sizes := a[..];
    }

    /**
     * Divides the queue among the requestors; `pick` is the random number drawn.  The blocks cut
     * off stack up with what is kept to the queue as it was, and have the chosen sizes.
     */
    method SendWorkToMany(requestors: seq<nat>, pick: nat) returns (pkts: seq<Packet>, ghost blocks: seq<seq<Item>>)
      requires Ready() && requestors != [] && queue.Contents() != []
      modifies queue`count, queue`head, this`tokenProc, this`workOutstanding
      ensures Ready()
      ensures var sizes := Sizes(splitEqual, |old(queue.Contents())|, |requestors|, pick);
        && |queue.Contents()| == sizes[0] && |pkts| == |requestors| && Dealt(pkts, blocks, sizes[1..])
        && Fair(sizes, |old(queue.Contents())|, |requestors|, splitEqual)
      ensures var count := |old(queue.Contents())|; !splitEqual ==>
        |queue.Contents()| == if pick % count + 1 < count then count - (pick % count + 1) else 1
      ensures Stacked(queue.Contents(), blocks) == old(queue.Contents())
      ensures workOutstanding == old(workOutstanding) + Transfers(blocks)
      ensures tokenProc == Darkened(rank, size, old(tokenProc), requestors, blocks)
      ensures tokenProc ==
        if exists i: nat :: i < |requestors| && SentBackAt(rank, size, requestors, blocks, i) then R.Black
        else old(tokenProc)
    {
      queue.EmptyHasNoBytes();
      var sizes := ChooseSizes(queue.count, |requestors|, pick);
      pkts, blocks := DealOut(requestors, sizes[1..]);
      DarkenedExactly(rank, size, old(tokenProc), requestors, blocks);
    }

    /** Sends each requestor its share, from the top of the queue down. */
    method DealOut(requestors: seq<nat>, shares: seq<nat>) returns (pkts: seq<Packet>, ghost blocks: seq<seq<Item>>)
      requires Ready() && |shares| == |requestors| && Sum(shares) <= |queue.Contents()|
      modifies queue`count, queue`head, this`tokenProc, this`workOutstanding
      ensures Ready() && Dealt(pkts, blocks, shares)
      ensures Stacked(queue.Contents(), blocks) == old(queue.Contents())
      ensures |queue.Contents()| == old(|queue.Contents()|) - Sum(shares)
      ensures workOutstanding == old(workOutstanding) + Transfers(blocks)
      ensures tokenProc == Darkened(rank, size, old(tokenProc), requestors, blocks)
    {
      pkts, blocks := [], [];
      ghost var items, kept := queue.Contents(), queue.Contents();
      assert shares[..0] == [];
      for i := 0 to |requestors|
        invariant Ready() && kept == queue.Contents()
        invariant Dealt(pkts, blocks, shares[..i])
        invariant Stacked(kept, blocks) == items && |kept| == |items| - Sum(shares[..i])
        invariant workOutstanding == old(workOutstanding) + Transfers(blocks)
        invariant tokenProc == Darkened(rank, size, old(tokenProc), requestors[..i], blocks)
      {
        TakeOneMore(shares, i);
        DarkenedOneMore(rank, size, old(tokenProc), requestors, i, blocks, W.Sent(kept, shares[i]));
        var pkt := SendWork(requestors[i], shares[i]);
        CutOneBlock(kept, shares[i], blocks);
        DealtOneMore(pkts, blocks, shares[..i], pkt, W.Sent(kept, shares[i]), shares[i]);
        pkts, blocks := pkts + [pkt], blocks + [W.Sent(kept, shares[i])];
        kept := W.Kept(kept, shares[i]);
      }
      assert shares[..|requestors|] == shares && requestors[..|requestors|] == requestors;
    }

    /**
     * Receives a work reply into the queue.  Whatever the queue held is overwritten; the items
     * are rebuilt exactly when it had no bytes in use.
     */
    method WorkReceive(pkt: Packet) returns (rc: int, receipt: bool)
      requires Ready() && (pkt.ints != [] ==> WellFormed(pkt))
      modifies queue
      ensures rc == ReceiveCode(pkt) && receipt == IsAcknowledged(pkt)
      ensures receipt <==> pkt.ints != [] && pkt.ints[0] > 0 && pkt.ints[2] == 0
      ensures rc == if receipt || (pkt.ints != [] && pkt.ints[0] == 0) then 0
                    else if pkt.ints != [] && pkt.ints[0] == -32 then -32 else -1
      ensures Ships(pkt, []) ==> rc == 0 && !receipt
      ensures pkt.ints == [] || pkt.ints[0] <= 0 ==> unchanged(queue)
      ensures pkt.ints != [] && pkt.ints[0] > 0 && !receipt ==>
        CopiedIn(pkt, queue.base, queue.strings) && queue.count == old(queue.count) && queue.head == old(queue.head)
      ensures forall items :: items != [] && Ships(pkt, items) ==>
        rc == 0 && receipt && Ready() && (queue.Contents() == items <==> old(queue.head) == 0)
    {
      if |pkt.ints| <= 0 {
        return -1, false;
      }
      var items := pkt.ints[0];
      if items == 0 {
        return 0, false;
      } else if items == PAYLOAD_ABORT {
        return PAYLOAD_ABORT, false;
      } else if items < 0 {
        return -1, false;
      }
      ghost var below := queue.head;
      rc, receipt := Unload(queue, pkt);
      forall items: seq<Item> | items != [] && Ships(pkt, items)
        ensures rc == 0 && receipt && Ready() && (queue.Contents() == items <==> old(queue.head) == 0)
      {
        ReceivedItems(pkt, items, queue.base, queue.strings, queue.count, queue.head, below);
      }
    }

    /** Asks for work, or looks for the reply to an earlier request. */
    method RequestWork(cleanup: bool, reply: Option<Packet>, nextProcessor: Option<nat>)
        returns (rc: int, ask: Option<nat>, receiptTo: Option<nat>)
      requires Ready() && (reply.Some? && reply.value.ints != [] ==> WellFormed(reply.value))
      modifies queue, this`workRequested, this`workRequestedRank
      ensures ask == if !old(workRequested) && !cleanup then nextProcessor else None
      ensures workRequested == if old(workRequested) then reply == None else ask.Some?
      ensures rc == if old(workRequested) && reply.Some? then ReceiveCode(reply.value) else 0
      ensures workRequestedRank == if ask.Some? then ask.value else old(workRequestedRank)
      ensures receiptTo == if old(workRequested) && reply.Some? && IsAcknowledged(reply.value)
        then Some(old(workRequestedRank)) else None
      ensures !old(workRequested) || reply == None || reply.value.ints == [] || reply.value.ints[0] <= 0 ==>
        unchanged(queue)
      ensures old(workRequested) && reply.Some? && receiptTo == None && 0 < |reply.value.ints| &&
              reply.value.ints[0] > 0 ==>
        && CopiedIn(reply.value, queue.base, queue.strings)
        && queue.count == old(queue.count) && queue.head == old(queue.head)
      ensures forall items :: old(workRequested) && reply.Some? && items != [] && Ships(reply.value, items) ==>
        receiptTo.Some? && Ready() && (queue.Contents() == items <==> old(queue.head) == 0)
    {
      rc, ask, receiptTo := 0, None, None;
      if workRequested {
        var source := workRequestedRank;
        if reply.Some? {
          var receipt;
          rc, receipt := WorkReceive(reply.value);
          workRequested := false;
          if receipt {
            receiptTo := Some(source);
          }
        }
      } else if !cleanup {
        if nextProcessor == None {
          return;
        }
        ask := nextProcessor;
        workRequested := true;
        workRequestedRank := nextProcessor.value;
      }
    }

    /** Takes the receipts that are there, while transfers are outstanding. */
    method WorkreceiptCheck(arrived: nat) returns (taken: nat)
      modifies this`workOutstanding, this`termFlag
      ensures taken == if arrived <= old(workOutstanding) then arrived else old(workOutstanding)
      ensures workOutstanding == old(workOutstanding) - taken
      ensures termFlag == (old(termFlag) && taken == 0)
    {
      taken := 0;
      while workOutstanding > 0
        invariant taken <= arrived && workOutstanding + taken == old(workOutstanding)
        invariant termFlag == (old(termFlag) && taken == 0)
      {
        if taken == arrived {
          break;
        }
        taken := taken + 1;
        workOutstanding := workOutstanding - 1;
        termFlag := false;
      }
    }

    /**
     * Collects the requests that are there and answers them all: with nothing in clean-up or
     * when the queue is empty, else by dividing the queue.
     */
    method WorkreqCheck(requests: seq<nat>, cleanup: bool, pick: nat)
        returns (dests: seq<nat>, pkts: seq<Packet>, ghost blocks: seq<seq<Item>>)
      requires Ready() && |requests| <= size
      modifies queue`count, queue`head, this`tokenProc, this`workOutstanding
      ensures Ready() && dests == requests && |pkts| == |blocks| == |requests|
      ensures forall i | 0 <= i < |pkts| :: Ships(pkts[i], blocks[i])
      ensures Stacked(queue.Contents(), blocks) == old(queue.Contents())
      ensures workOutstanding == old(workOutstanding) + Transfers(blocks)
      ensures tokenProc == Darkened(rank, size, old(tokenProc), dests, blocks)
      ensures if requests == [] || cleanup || old(queue.Contents()) == []
        then unchanged(queue) && forall i | 0 <= i < |blocks| :: blocks[i] == []
        else var sizes := Sizes(splitEqual, |old(queue.Contents())|, |requests|, pick);
          |queue.Contents()| == sizes[0] && Dealt(pkts, blocks, sizes[1..])
    {
      dests := CollectRequestors(size, requests);
      queue.EmptyHasNoBytes();
      if |dests| == 0 || queue.count == 0 || cleanup {
        pkts, blocks := SendNoWorkToMany(dests);
      } else {
        pkts, blocks := SendWorkToMany(dests, pick);
      }
    }

    /** Answers every requestor with nothing. */
    method SendNoWorkToMany(requestors: seq<nat>) returns (pkts: seq<Packet>, ghost blocks: seq<seq<Item>>)
      requires Ready()
      ensures |pkts| == |blocks| == |requestors| && forall i | 0 <= i < |blocks| :: blocks[i] == []
      ensures forall i | 0 <= i < |pkts| :: Ships(pkts[i], blocks[i])
      ensures Stacked(queue.Contents(), blocks) == queue.Contents() && Transfers(blocks) == 0
      ensures Darkened(rank, size, tokenProc, requestors, blocks) == tokenProc
    {
      pkts := [];
      for i := 0 to |requestors|
        invariant |pkts| == i && forall j | 0 <= j < i :: pkts[j] == NO_WORK
      {
        pkts := pkts + [NO_WORK];
      }
      blocks := seq(|requestors|, _ => []);
      NothingSent(queue.Contents(), rank, size, tokenProc, requestors, blocks, pkts);
    }

    // -------------------------------------------------------------- token ring

    method TokenIsSend() returns (sent: R.Colour)
      modifies this`tokenIsLocal, this`tokenSendPending
      ensures sent == tokenBuf && !tokenIsLocal && tokenSendPending
    {
      sent := tokenBuf;
      tokenSendPending := true;
      tokenIsLocal := false;
    }

    /** Takes a token off the wire; the terminate token is forwarded at once, except by the last rank. */
    method TokenRecv(token: R.Colour) returns (sent: Option<R.Colour>)
      requires rank < size
      modifies this`tokenIsLocal, this`tokenSendPending, this`tokenProc, this`tokenBuf
      ensures tokenProc == R.ProcAfterReceive(rank, old(tokenProc), token)
      ensures tokenBuf == if R.Terminates(rank, token) then R.Terminate else token
      ensures sent == if R.Terminates(rank, token) && rank < size - 1 then Some(R.Terminate) else None
      ensures tokenIsLocal == sent.None? && tokenSendPending == sent.Some?
      ensures var stops := token == R.Terminate || (token == R.White && rank == 0);
        && tokenBuf == (if stops then R.Terminate else token)
        && tokenProc == (if stops then R.Terminate
                         else if token == R.Black && old(tokenProc) == R.Black then R.White else old(tokenProc))
        && sent == if stops && rank + 1 < size then Some(R.Terminate) else None
    {
      tokenIsLocal := true;
      // the earlier send has been matched by now, so waiting for it clears the request
      tokenSendPending := false;
      tokenBuf := token;
      if tokenProc == R.Black && token == R.Black {
        tokenProc := R.White;
      }
      var terminate := false;
      if rank == 0 && token == R.White {
        terminate := true;
      } else if token == R.Terminate {
        terminate := true;
      }
      sent := None;
      if terminate {
        tokenBuf := R.Terminate;
        if rank < size - 1 {
          var c := TokenIsSend();
          sent := Some(c);
        }
        tokenProc := R.Terminate;
      }
    }

    method TokenCheck(arrived: Option<R.Colour>) returns (sent: Option<R.Colour>)
      requires rank < size
      modifies this`tokenIsLocal, this`tokenSendPending, this`tokenProc, this`tokenBuf
      ensures arrived == None ==> sent == None && unchanged(this)
      ensures arrived.Some? ==>
        && tokenProc == R.ProcAfterReceive(rank, old(tokenProc), arrived.value)
        && tokenBuf == (if R.Terminates(rank, arrived.value) then R.Terminate else arrived.value)
        && sent == (if R.Terminates(rank, arrived.value) && rank < size - 1 then Some(R.Terminate) else None)
        && tokenIsLocal == sent.None? && tokenSendPending == sent.Some?
    {
      sent := None;
      if arrived.Some? {
        sent := TokenRecv(arrived.value);
      }
    }

    /** An idle rank passes the token on if it has it, else looks for it. */
    method CheckForTerm(arrived: Option<R.Colour>) returns (status: R.Colour, sent: Option<R.Colour>)
      requires rank < size
      modifies this`tokenIsLocal, this`tokenSendPending, this`tokenProc, this`tokenBuf
      ensures status == tokenProc
      ensures old(tokenProc) == R.Terminate ==> sent == None && unchanged(this)
      ensures old(tokenProc) != R.Terminate && old(tokenIsLocal) ==>
        && sent == Some(R.ColourToSend(rank, old(tokenProc), old(tokenBuf))) && tokenBuf == sent.value
        && tokenBuf == (if rank == 0 then R.White else if old(tokenProc) == R.Black then R.Black else old(tokenBuf))
        && tokenProc == R.White && !tokenIsLocal && tokenSendPending
      ensures old(tokenProc) != R.Terminate && !old(tokenIsLocal) ==>
        && (arrived == None ==> sent == None && unchanged(this))
        && (arrived.Some? ==>
              && tokenProc == R.ProcAfterReceive(rank, old(tokenProc), arrived.value)
              && tokenBuf == (if R.Terminates(rank, arrived.value) then R.Terminate else arrived.value)
              && sent == (if R.Terminates(rank, arrived.value) && rank < size - 1 then Some(R.Terminate) else None)
              && tokenIsLocal == sent.None? && tokenSendPending == sent.Some?)
    {
      sent := None;
      if tokenProc == R.Terminate {
        return R.Terminate, None;
      }
      if tokenIsLocal {
        if rank == 0 {
          tokenBuf := R.White;
        } else if tokenProc == R.Black {
          tokenBuf := R.Black;
        }
        var c := TokenIsSend();
        sent := Some(c);
        tokenProc := R.White;
      } else {
        sent := TokenCheck(arrived);
      }
      status := tokenProc;
    }

    // -------------------------------------------------------------- termination allreduce

    /** Takes the children's flags that are there, while replies are missing. */
    method TakeChildFlags(arrivals: seq<bool>) returns (taken: nat)
      requires Valid()
      modifies this`termFlag, this`termReplies
      ensures Term() == TakeFlags(old(Term()), tree.nchildren, arrivals)
      ensures taken == FlagsTaken(old(Term()), tree.nchildren, arrivals)
    {
      taken := 0;
      while termReplies < tree.nchildren
        invariant taken <= |arrivals|
        invariant TakeFlags(Term(), tree.nchildren, arrivals[taken..])
               == TakeFlags(old(Term()), tree.nchildren, arrivals)
        invariant taken + FlagsTaken(Term(), tree.nchildren, arrivals[taken..])
               == FlagsTaken(old(Term()), tree.nchildren, arrivals)
      {
        if taken == |arrivals| {
          break;
        }
        var childFlag := arrivals[taken];
        assert arrivals[taken..][1..] == arrivals[taken + 1..];
        termFlag := termFlag && childFlag;
        termReplies := termReplies + 1;
        taken := taken + 1;
      }
    }

    /**
     * Polls the allreduce.  `arrivals` are the flags the any-source probe finds, in order, and
     * `fromParent` the parent's message if it is there.  With `asWritten` the local `result`
     * shadows the member everywhere below its declaration.
     */
    method CheckForTermAllReduce(asWritten: bool, arrivals: seq<bool>, fromParent: Option<bool>)
        returns (status: Status, taken: nat, toParent: Option<bool>, tookDown: bool, toChildren: Option<bool>)
      requires Valid()
      modifies this`termFlag, this`termUp, this`termReplies
      ensures var t := TakeFlags(old(Term()), tree.nchildren, arrivals);
        var call := Progress(asWritten, rank == 0, tree.nchildren, workOutstanding, t, fromParent);
        && Term() == call.after && toParent == call.sentUp && tookDown == call.tookDown && toChildren == call.sentDown
      ensures taken == FlagsTaken(old(Term()), tree.nchildren, arrivals) <= |arrivals|
      ensures status == if toChildren == Some(true) then Terminated else GoOn
      ensures taken == |arrivals| || old(termReplies) + taken >= tree.nchildren
      ensures taken == 0 || old(termReplies) + taken <= tree.nchildren
      ensures var flag := old(termFlag) && forall i | 0 <= i < taken :: arrivals[i];
        AllreduceRule(asWritten, rank == 0, tree.nchildren, workOutstanding,
                      TermLocal(flag, old(termUp), old(termReplies) + taken), fromParent,
                      TermCall(Term(), toParent, tookDown, toChildren))
    {
      toParent, tookDown, toChildren := None, false, None;
      FlagsAreAnded(Term(), tree.nchildren, arrivals);
      taken := TakeChildFlags(arrivals);
      ProgressFollowsRule(asWritten, rank == 0, tree.nchildren, workOutstanding, Term(), fromParent);
      if workOutstanding > 0 {
        return GoOn, taken, None, false, None;
      }
      var result := false;
      if !termUp && termReplies == tree.nchildren {
        if tree.parentRank != PROC_NULL {
          toParent := Some(if asWritten then result else termFlag);
        } else if !asWritten {
          result := termFlag;
        }
        if asWritten {
          result := true;
        } else {
          termFlag := true;
        }
        termUp := true;
      }
      var complete := false;
      if termUp {
        if tree.parentRank != PROC_NULL {
          if fromParent.Some? {
            result := fromParent.value;
            tookDown := true;
            complete := true;
          }
        } else {
          complete := true;
        }
      }
      if complete {
        toChildren := Some(result);
        termUp := false;
        termReplies := 0;
      }
      status := if complete && result then Terminated else GoOn;
    }

    // -------------------------------------------------------------- barrier

    method BarrierStart()
      modifies this`barrierStarted
      ensures Bar() == old(Bar()).(started := true)
    {
      barrierStarted := true;
    }

    /** Polls the barrier; on completion a message goes down to every child. */
    method BarrierTest(child: bool, parent: bool) returns (complete: bool, toParent: bool)
      requires Valid()
      modifies this`barrierStarted, this`barrierUp, this`barrierReplies
      ensures B.BarCall(Bar(), toParent, complete) == B.TestCall(rank == 0, tree.nchildren, old(Bar()), child, parent)
      ensures !old(barrierStarted) ==> !complete && !toParent && unchanged(this)
      ensures old(barrierStarted) ==>
        var heard := old(barrierReplies) + if child && old(barrierReplies) < tree.nchildren then 1 else 0;
        var up := old(barrierUp) || heard == tree.nchildren;
        && toParent == (up && !old(barrierUp) && rank > 0) && complete == (up && (rank == 0 || parent))
        && Bar() == if complete then B.BarLocal(false, false, 0) else B.BarLocal(true, up, heard)
    {
      complete, toParent := false, false;
      if !barrierStarted {
        return;
      }
      if barrierReplies < tree.nchildren {
        if child {
          barrierReplies := barrierReplies + 1;
        }
      }
      if !barrierUp && barrierReplies == tree.nchildren {
        if tree.parentRank != PROC_NULL {
          toParent := true;
        }
        barrierUp := true;
      }
      if barrierUp {
        if tree.parentRank != PROC_NULL {
          if parent {
            complete := true;
          }
        } else {
          complete := true;
        }
      }
      if complete {
        barrierStarted, barrierUp, barrierReplies := false, false, 0;
      }
    }

    // -------------------------------------------------------------- reductions

    /**
     * Polls the background reduction.  `answers` holds what the probe of each child finds, `due`
     * whether the period has expired, `start` whether the parent's start message is there and
     * `val` what the init callback supplies.
     */
    method ReduceCheck(count: int, cleanup: bool, due: bool, start: bool, answers: seq<Option<seq<D.Frame>>>, val: Item)
        returns (toParent: seq<D.Frame>, announce: bool, tookStart: bool, delivered: Option<(int, Item)>)
      requires Valid() && |answers| == tree.nchildren && AllParse(answers)
      modifies this`reduceOutstanding, this`reduceReplies, this`reduceValid
      modifies this`reduceTotal, this`reduceBytes, this`reduceBuf
      ensures old(reduceOutstanding) ==>
        var l := GatherAll(op, old(Red()), answers);
        && !announce && !tookStart
        && (if l.replies == tree.nchildren then
              && Red() == AnswerUp(l, rank == 0, count)
              && toParent == (if rank == 0 then [] else D.Frames(l.valid, l.total + count, l.acc))
              && delivered == if rank == 0 && l.valid then Some((l.total + count, l.acc)) else None
            else Red() == l && toParent == [] && delivered == None)
      ensures old(reduceOutstanding) ==>
        var complete := old(reduceReplies) + |Present(answers)| == tree.nchildren;
        && reduceOutstanding == !complete
        && ReadExactly(op, old(Red()),
             RedLocal(true, reduceReplies, reduceValid, reduceTotal - (if complete then count else 0),
                      old(reduceBytes), reduceBuf), answers)
        && reduceBytes == (if complete && rank > 0 then |reduceBuf| else old(reduceBytes))
        && toParent == (if complete && rank > 0 then D.Frames(reduceValid, reduceTotal, reduceBuf) else [])
        && delivered == if complete && rank == 0 && reduceValid then Some((reduceTotal, reduceBuf)) else None
      ensures !old(reduceOutstanding) ==>
        var fires := (due || cleanup) && (rank == 0 || start);
        && delivered == None && tookStart == (fires && rank > 0) && announce == (fires && !cleanup)
        && toParent == (if fires && cleanup && rank > 0
                        then [D.Header(false, old(reduceTotal), old(reduceBytes))] else [])
        && (if announce then Red() == RedLocal(true, 0, true, 0, 0, val)
            else Red() == old(Red()).(valid := old(reduceValid) && toParent == []))
    {
      toParent, announce, tookStart, delivered := [], false, false, None;
      if reduceOutstanding {
        GatherAnswers(answers);
        if reduceReplies == tree.nchildren {
          reduceTotal := reduceTotal + count;
          if tree.parentRank != PROC_NULL {
            var bytes := |reduceBuf|;
            reduceBytes := bytes;
            toParent := [D.Header(reduceValid, reduceTotal, bytes)];
            if bytes > 0 && reduceValid {
              toParent := toParent + [D.Body(reduceBuf)];
            }
          } else if reduceValid {
            delivered := Some((reduceTotal, reduceBuf));
          }
          reduceOutstanding := false;
        }
      } else {
        var startReduce := false;
        if due || cleanup {
          if tree.parentRank == PROC_NULL {
            startReduce := true;
          } else if start {
            tookStart := true;
            startReduce := true;
          }
        }
        if startReduce && cleanup {
          startReduce := false;
          if tree.parentRank != PROC_NULL {
            reduceValid := false;
            toParent := [D.Header(false, reduceTotal, reduceBytes)];
          }
        }
        if startReduce {
          reduceOutstanding, reduceReplies := true, 0;
          reduceValid, reduceTotal, reduceBytes, reduceBuf := true, 0, 0, val;
          announce := true;
        }
      }
    }

    /** Reads the answers that are there, child by child. */
    method GatherAnswers(answers: seq<Option<seq<D.Frame>>>)
      requires AllParse(answers)
      modifies this`reduceReplies, this`reduceValid, this`reduceTotal, this`reduceBuf
      ensures Red() == GatherAll(op, old(Red()), answers)
      ensures ReadExactly(op, old(Red()), Red(), answers)
      ensures (forall i | 0 <= i < |answers| :: answers[i] == None) ==> unchanged(this)
    {
      ghost var l := Red();
      for i := 0 to |answers|
        invariant GatherAll(op, Red(), answers[i..]) == GatherAll(op, l, answers)
      {
        assert answers[i..][1..] == answers[i + 1..];
        if answers[i].Some? {
          ReadAnswer(answers[i].value);
        }
      }
      GatherAllReads(op, l, answers);
      if forall i | 0 <= i < |answers| :: answers[i] == None {
        NoneGathered(op, l, answers);
      }
    }

    /** Reads one child's answer: a header and, if it announces data, a body. */
    method ReadAnswer(box: seq<D.Frame>)
      requires D.Parses(box)
      modifies this`reduceReplies, this`reduceValid, this`reduceTotal, this`reduceBuf
      ensures Red() == GatherOne(op, old(Red()), box)
    {
      var recvbuf := box[0];
      reduceReplies := reduceReplies + 1;
      if !recvbuf.valid {
        reduceValid := false;
        return;
      }
      reduceTotal := reduceTotal + recvbuf.count;
      var inbuf: Item := [];
      if recvbuf.size > 0 {
        inbuf := box[1].data;
      }
      if reduceValid {
        reduceBuf := op(reduceBuf, inbuf);
      }
    }

    /**
     * The final reduction at this rank: waits for each child in turn, then passes the result on.
     * A body follows a header whenever the header announces data.
     */
    method ReduceSync(count: int, val: Item, answers: seq<seq<D.Frame>>)
        returns (toParent: seq<D.Frame>, delivered: Option<(int, Item)>)
      requires Valid() && |answers| == tree.nchildren
      requires forall i | 0 <= i < |answers| :: D.Parses(answers[i]) && answers[i][0].valid
      modifies this`reduceValid, this`reduceTotal, this`reduceBytes, this`reduceBuf
      ensures reduceValid && reduceTotal == count + Sum(CountsOf(answers))
      ensures reduceBytes == if rank > 0 then |reduceBuf| else 0
      ensures reduceBuf == FinalReduce.CombineInOrder(op, val, ValuesOf(answers))
      ensures toParent == if rank > 0 then D.Frames(true, reduceTotal, reduceBuf) else []
      ensures delivered == if rank > 0 then None else Some((reduceTotal, reduceBuf))
    {
      reduceValid, reduceTotal, reduceBytes, reduceBuf := true, count, 0, val;
      ghost var counts, values := CountsOf(answers), ValuesOf(answers);
      for i := 0 to |answers|
        invariant reduceValid && reduceBytes == 0 && reduceTotal == count + Sum(counts[..i])
        invariant reduceBuf == FinalReduce.CombineInOrder(op, val, values[..i])
      {
        assert counts[..i + 1][..i] == counts[..i] && values[..i + 1][..i] == values[..i];
        var recvbuf := answers[i][0];
        reduceTotal := reduceTotal + recvbuf.count;
        var inbuf: Item := [];
        if recvbuf.size > 0 {
          inbuf := answers[i][1].data;
        }
        assert recvbuf.count == counts[i] && inbuf == values[i];
        reduceBuf := op(reduceBuf, inbuf);
      }
      assert counts[..|answers|] == counts && values[..|answers|] == values;
      toParent, delivered := [], None;
      if tree.parentRank != PROC_NULL {
        var bytes := |reduceBuf|;
        reduceBytes := bytes;
        toParent := [D.Header(reduceValid, reduceTotal, bytes)];
        if bytes > 0 {
          toParent := toParent + [D.Body(reduceBuf)];
        }
      } else {
        delivered := Some((reduceTotal, reduceBuf));
      }
    }
  }

  /** A transfer moves the top items to an idle receiver, byte for byte, and is acknowledged if there were any. */
  method Transfer(sender: State, receiver: State, count: nat) returns (receipt: bool)
    requires sender.Ready() && receiver.Ready() && sender.queue != receiver.queue
    requires count <= |sender.queue.Contents()| && receiver.queue.Contents() == []
    modifies sender, sender.queue, receiver.queue
    ensures sender.Ready() && receiver.Ready()
    ensures |receiver.queue.Contents()| == count && receipt == (count > 0)
    ensures sender.queue.Contents() + receiver.queue.Contents() == old(sender.queue.Contents())
    ensures sender.workOutstanding == old(sender.workOutstanding) + if receipt then 1 else 0
  {
    ghost var sent := W.Sent(sender.queue.Contents(), count);
    receiver.queue.EmptyHasNoBytes();
    var pkt := sender.SendWork(receiver.rank, count);
    ShippedIsWellFormed(pkt, sent);
    var rc;
    rc, receipt := receiver.WorkReceive(pkt);
  }
}
