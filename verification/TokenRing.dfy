/** The circulating token: who holds it, its colour, and the pending synchronous send. */
module TokenRing {
  import opened Common

  datatype Colour = White | Black | Terminate

  datatype Ring = Ring(
    local: seq<bool>,          // token_is_local
    proc: seq<Colour>,         // token_proc
    buf: seq<Colour>,          // token_buf
    pending: seq<bool>,        // token_send_req is not MPI_REQUEST_NULL
    wire: seq<seq<Colour>>)    // wire[r]: tokens in flight to r from its predecessor

  ghost predicate Shaped(n: nat, x: Ring) {
    |x.local| == |x.proc| == |x.buf| == |x.pending| == |x.wire| == n
  }

  function TokenSrc(r: nat, n: nat): (s: nat)
    requires r < n
    ensures s == if r == 0 then n - 1 else r - 1
  {
    Wrap(r - 1 + n, n);
    (r - 1 + n) % n
  }

  function TokenDest(r: nat, n: nat): (d: nat)
    requires r < n
    ensures d == if r == n - 1 then 0 else r + 1
  {
    Wrap(r + 1 + n, n);
    (r + 1 + n) % n
  }

  lemma Wrap(a: nat, n: nat)
    requires 0 < n && a <= 2 * n
    ensures a % n == if a < n then a else if a < 2 * n then a - n else 0
  {
    assert a < n ==> a / n == 0;
    assert n <= a < 2 * n ==> a / n == 1;
    assert a == 2 * n ==> a / n == 2;
  }

  function Start(n: nat): Ring {
    Ring(seq(n, r => r == 0), seq(n, _ => White), seq(n, _ => Black), seq(n, _ => false), seq(n, _ => []))
  }

  // ---------------------------------------------------------------- what one rank does

  /** Colour an idle rank gives the token it passes on; it is white itself afterwards. */
  function ColourToSend(rank: nat, proc: Colour, buf: Colour): Colour {
    if rank == 0 then White else if proc == Black then Black else buf
  }

  predicate Terminates(rank: nat, token: Colour) {
    (rank == 0 && token == White) || token == Terminate
  }

  /** The rank's colour after a token has been received. */
  function ProcAfterReceive(rank: nat, proc: Colour, token: Colour): Colour {
    if Terminates(rank, token) then Terminate
    else if proc == Black && token == Black then White
    else proc
  }

  /**
   * An idle rank other than 0 forwards a black token black and otherwise its own colour, and the
   * whitening on receipt of a black token makes no difference to the colour forwarded.
   */
  lemma ForwardsOwnColour(rank: nat, proc: Colour, token: Colour)
    requires 0 < rank && proc != Terminate && token != Terminate
    ensures ColourToSend(rank, proc, token) == if token == Black then Black else proc
    ensures ColourToSend(rank, ProcAfterReceive(rank, proc, token), token) == ColourToSend(rank, proc, token)
  {
  }

  /** Sending work against the ring order, or to the predecessor, blackens the sender. */
  function ProcAfterSendWork(rank: nat, n: nat, dest: nat, proc: Colour): Colour
    requires rank < n
  {
    if dest < rank || dest == TokenSrc(rank, n) then Black else proc
  }

  // ---------------------------------------------------------------- steps

  predicate CanSend(n: nat, x: Ring, r: nat)
    requires Shaped(n, x)
  {
    r < n && x.local[r] && x.proc[r] != Terminate
  }

  function Send(n: nat, x: Ring, r: nat): Ring
    requires Shaped(n, x) && CanSend(n, x, r)
  {
    var c, d := ColourToSend(r, x.proc[r], x.buf[r]), TokenDest(r, n);
    Ring(x.local[r := false], x.proc[r := White], x.buf[r := c], x.pending[r := true],
         x.wire[d := x.wire[d] + [c]])
  }

  predicate CanReceive(n: nat, x: Ring, r: nat)
    requires Shaped(n, x)
  {
    r < n && x.wire[r] != []
  }

  function Receive(n: nat, x: Ring, r: nat): Ring
    requires Shaped(n, x) && CanReceive(n, x, r)
  {
    var token := x.wire[r][0];
    var proc := ProcAfterReceive(r, x.proc[r], token);
    var wire := x.wire[r := x.wire[r][1..]];
    if Terminates(r, token) && r < n - 1 then
      var d := TokenDest(r, n);
      Ring(x.local[r := false], x.proc[r := proc], x.buf[r := Terminate], x.pending[r := true],
           wire[d := wire[d] + [Terminate]])
    else
      Ring(x.local[r := true], x.proc[r := proc], x.buf[r := if Terminates(r, token) then Terminate else token],
           x.pending[r := false], wire)
  }

  /** A pending synchronous send completes once its message has been received. */
  predicate CanTest(n: nat, x: Ring, r: nat)
    requires Shaped(n, x)
  {
    r < n && x.pending[r] && x.wire[TokenDest(r, n)] == []
  }

  function Test(n: nat, x: Ring, r: nat): Ring
    requires Shaped(n, x) && CanTest(n, x, r)
  {
    x.(pending := x.pending[r := false])
  }

  /** `s` sends work to `dest`. */
  function Paint(n: nat, x: Ring, s: nat, dest: nat): Ring
    requires Shaped(n, x) && s < n
  {
    x.(proc := x.proc[s := ProcAfterSendWork(s, n, dest, x.proc[s])])
  }

  // ---------------------------------------------------------------- invariants

  /** The only token is at rank `t`: on the wire towards it, or held by it. */
  predicate TokenAt(n: nat, x: Ring, t: nat, flying: bool)
    requires Shaped(n, x)
  {
    && t < n
    && (forall r | 0 <= r < n :: x.local[r] == (r == t && !flying))
    && (forall r | 0 <= r < n :: |x.wire[r]| == if r == t && flying then 1 else 0)
    && (flying ==> x.pending[TokenSrc(t, n)])
    && (!flying ==> !x.pending[t])
  }

  function TokenColour(n: nat, x: Ring, t: nat, flying: bool): Colour
    requires Shaped(n, x) && TokenAt(n, x, t, flying)
  {
    if flying then x.wire[t][0] else x.buf[t]
  }

  predicate Undecided(n: nat, x: Ring, t: nat, flying: bool)
    requires Shaped(n, x)
  {
    && TokenAt(n, x, t, flying) && TokenColour(n, x, t, flying) != Terminate
    && forall r | 0 <= r < n :: x.proc[r] != Terminate
  }

  /** The terminate token has passed the ranks below `t` and nobody else. */
  predicate Decided(n: nat, x: Ring, t: nat, flying: bool)
    requires Shaped(n, x)
  {
    && TokenAt(n, x, t, flying) && TokenColour(n, x, t, flying) == Terminate
    && (if flying then t > 0 else t == n - 1)
    && forall r | 0 <= r < n :: x.proc[r] == Terminate <==> r < t || !flying
  }

  ghost predicate RingInvAt(n: nat, x: Ring, t: nat, flying: bool) {
    Shaped(n, x) && (Undecided(n, x, t, flying) || Decided(n, x, t, flying))
  }

  ghost predicate RingInv(n: nat, x: Ring) {
    exists t, flying :: RingInvAt(n, x, t, flying)
  }

  lemma StartEstablishes(n: nat)
    requires 0 < n
    ensures RingInvAt(n, Start(n), 0, false)
  {
  }

  /** There is exactly one token: its place is unique. */
  lemma SingleToken(n: nat, x: Ring, t: nat, flying: bool, t': nat, flying': bool)
    requires Shaped(n, x) && TokenAt(n, x, t, flying) && TokenAt(n, x, t', flying')
    ensures t == t' && flying == flying'
  {
    assert x.local[t] == !flying && |x.wire[t]| == if flying then 1 else 0;
    assert x.local[t'] == !flying' && |x.wire[t']| == if flying' then 1 else 0;
  }

  lemma SendKeeps(n: nat, x: Ring, r: nat, t: nat, flying: bool)
    requires RingInvAt(n, x, t, flying) && CanSend(n, x, r)
    ensures r == t && !flying && !x.pending[r] && Undecided(n, x, t, flying)
    ensures var d := TokenDest(r, n); Undecided(n, Send(n, x, r), d, true) && RingInvAt(n, Send(n, x, r), d, true)
  {
  }

  /** Where the token is after `r` has received it. */
  function PlaceAfterReceive(n: nat, x: Ring, r: nat): (p: (nat, bool))
    requires Shaped(n, x) && CanReceive(n, x, r)
  {
    if Terminates(r, x.wire[r][0]) && r < n - 1 then (TokenDest(r, n), true) else (r, false)
  }

  /** On receipt the rank's own earlier send has completed, so waiting for it returns at once. */
  lemma ReceiveKeeps(n: nat, x: Ring, r: nat, t: nat, flying: bool)
    requires RingInvAt(n, x, t, flying) && CanReceive(n, x, r)
    ensures r == t && flying && x.wire[r][1..] == [] && (TokenDest(r, n) != r ==> x.wire[TokenDest(r, n)] == [])
    ensures var p := PlaceAfterReceive(n, x, r); RingInvAt(n, Receive(n, x, r), p.0, p.1)
    ensures var p := PlaceAfterReceive(n, x, r);
      if Terminates(r, x.wire[r][0]) then Decided(n, Receive(n, x, r), p.0, p.1)
      else Undecided(n, Receive(n, x, r), p.0, p.1)
  {
    var x' := Receive(n, x, r);
    var p := PlaceAfterReceive(n, x, r);
    assert TokenAt(n, x', p.0, p.1);
  }

  lemma TestKeeps(n: nat, x: Ring, r: nat, t: nat, flying: bool)
    requires RingInvAt(n, x, t, flying) && CanTest(n, x, r)
    ensures RingInvAt(n, Test(n, x, r), t, flying)
  {
    if flying { assert TokenDest(TokenSrc(t, n), n) == t; }
    assert TokenAt(n, Test(n, x, r), t, flying);
  }

  lemma PaintKeeps(n: nat, x: Ring, s: nat, dest: nat, t: nat, flying: bool)
    requires RingInvAt(n, x, t, flying) && s < n && x.proc[s] != Terminate
    ensures RingInvAt(n, Paint(n, x, s, dest), t, flying)
    ensures Undecided(n, x, t, flying) ==> Undecided(n, Paint(n, x, s, dest), t, flying)
  {
    assert TokenAt(n, Paint(n, x, s, dest), t, flying);
  }
}
