/** How a list of items lies in one byte pool with an array of offsets. */
module Packing {
  import opened Common

  /** Offsets start at 0 and increase strictly up to the first free byte. */
  predicate Packed(offsets: seq<nat>, head: nat) {
    && (offsets == [] ==> head == 0)
    && (offsets != [] ==> offsets[0] == 0 && offsets[|offsets| - 1] < head)
    && forall i, j | 0 <= i < j < |offsets| :: offsets[i] < offsets[j]
  }

  function EndOf(offsets: seq<nat>, head: nat, i: nat): nat
    requires i < |offsets|
  {
    if i + 1 < |offsets| then offsets[i + 1] else head
  }

  lemma EndIsBeyond(offsets: seq<nat>, head: nat, i: nat)
    requires Packed(offsets, head) && i < |offsets|
    ensures offsets[i] < EndOf(offsets, head, i) <= head
  {
    if i + 1 < |offsets| {
      assert offsets[i + 1] <= offsets[|offsets| - 1];
    }
  }

  /** The items, bottom of the stack first. */
  function Unpack(base: seq<byte>, offsets: seq<nat>, head: nat): (items: seq<Item>)
    requires Packed(offsets, head) && head <= |base|
    ensures |items| == |offsets|
  {
    seq(|offsets|, i requires 0 <= i < |offsets| =>
      EndIsBeyond(offsets, head, i); base[offsets[i]..EndOf(offsets, head, i)])
  }

  lemma ItemsAreNonEmpty(base: seq<byte>, offsets: seq<nat>, head: nat)
    requires Packed(offsets, head) && head <= |base|
    ensures forall x | x in Unpack(base, offsets, head) :: x != []
  {
    forall i | 0 <= i < |offsets| ensures Unpack(base, offsets, head)[i] != [] {
      EndIsBeyond(offsets, head, i);
    }
  }

  lemma SliceOfSlice(base: seq<byte>, from: nat, to: nat, a: nat, b: nat)
    requires from <= a <= b <= to <= |base|
    ensures base[from..to][a - from..b - from] == base[a..b]
  {
    var cut := base[from..to];
    forall i | 0 <= i < b - a ensures cut[a - from..b - from][i] == base[a..b][i] {
      assert cut[a - from + i] == base[a + i];
    }
  }

  lemma UnpackSameBytes(base: seq<byte>, base': seq<byte>, offsets: seq<nat>, head: nat)
    requires Packed(offsets, head) && head <= |base| && head <= |base'| && base[..head] == base'[..head]
    ensures Unpack(base, offsets, head) == Unpack(base', offsets, head)
  {
    forall i | 0 <= i < |offsets| ensures Unpack(base, offsets, head)[i] == Unpack(base', offsets, head)[i] {
      EndIsBeyond(offsets, head, i);
      SliceOfSlice(base, 0, head, offsets[i], EndOf(offsets, head, i));
      SliceOfSlice(base', 0, head, offsets[i], EndOf(offsets, head, i));
    }
  }

  /** Cutting the offsets at `s` keeps the lower items. */
  lemma UnpackPrefix(base: seq<byte>, offsets: seq<nat>, head: nat, s: nat)
    requires Packed(offsets, head) && head <= |base| && s < |offsets|
    ensures offsets[s] <= head && Packed(offsets[..s], offsets[s])
    ensures Unpack(base, offsets[..s], offsets[s]) == Unpack(base, offsets, head)[..s]
  {
    EndIsBeyond(offsets, head, s);
  }

  /** The offsets of the upper items, relative to where their bytes start. */
  function Rebased(offsets: seq<nat>, s: nat): (r: seq<nat>)
    requires s < |offsets| && forall i, j | 0 <= i < j < |offsets| :: offsets[i] < offsets[j]
    ensures |r| == |offsets| - s
  {
    seq(|offsets| - s, i requires 0 <= i < |offsets| - s => offsets[s + i] - offsets[s])
  }

  lemma RebasedIsPacked(offsets: seq<nat>, head: nat, s: nat)
    requires Packed(offsets, head) && s < |offsets|
    ensures offsets[s] <= head && Packed(Rebased(offsets, s), head - offsets[s])
  {
    EndIsBeyond(offsets, head, s);
  }

  lemma UnpackAt(base: seq<byte>, offsets: seq<nat>, head: nat, i: nat)
    requires Packed(offsets, head) && head <= |base| && i < |offsets|
    ensures offsets[i] <= EndOf(offsets, head, i) <= |base|
    ensures Unpack(base, offsets, head)[i] == base[offsets[i]..EndOf(offsets, head, i)]
  {
    EndIsBeyond(offsets, head, i);
  }

  /** Where an upper item lies before and after rebasing. */
  lemma RebasedPlace(offsets: seq<nat>, head: nat, s: nat, i: nat)
    requires Packed(offsets, head) && s < |offsets| && i < |offsets| - s
    ensures offsets[s] <= offsets[s + i] <= EndOf(offsets, head, s + i) <= head
    ensures Rebased(offsets, s)[i] == offsets[s + i] - offsets[s]
    ensures EndOf(Rebased(offsets, s), head - offsets[s], i) == EndOf(offsets, head, s + i) - offsets[s]
  {
    EndIsBeyond(offsets, head, s);
    EndIsBeyond(offsets, head, s + i);
  }

  lemma SameSlice(base: seq<byte>, lo: nat, hi: nat, a: nat, e: nat, ra: nat, re: nat)
    requires lo <= a <= e <= hi <= |base| && ra == a - lo && re == e - lo
    ensures base[lo..hi][ra..re] == base[a..e]
  {
    SliceOfSlice(base, lo, hi, a, e);
  }

  lemma UnpackSuffixAt(base: seq<byte>, offsets: seq<nat>, head: nat, s: nat, i: nat)
    requires Packed(offsets, head) && head <= |base| && s < |offsets| && i < |offsets| - s
    requires offsets[s] <= head && Packed(Rebased(offsets, s), head - offsets[s])
    ensures Unpack(base[offsets[s]..head], Rebased(offsets, s), head - offsets[s])[i]
         == Unpack(base, offsets, head)[s + i]
  {
    var r, end := Rebased(offsets, s), head - offsets[s];
    RebasedPlace(offsets, head, s, i);
    UnpackAt(base, offsets, head, s + i);
    UnpackAt(base[offsets[s]..head], r, end, i);
    SameSlice(base, offsets[s], head, offsets[s + i], EndOf(offsets, head, s + i), r[i], EndOf(r, end, i));
  }

  /** Cutting the bytes out at `s` and rebasing the offsets ships the upper items unchanged. */
  lemma UnpackSuffix(base: seq<byte>, offsets: seq<nat>, head: nat, s: nat)
    requires Packed(offsets, head) && head <= |base| && s < |offsets|
    ensures offsets[s] <= head && Packed(Rebased(offsets, s), head - offsets[s])
    ensures Unpack(base[offsets[s]..head], Rebased(offsets, s), head - offsets[s]) == Unpack(base, offsets, head)[s..]
  {
    RebasedIsPacked(offsets, head, s);
    forall i | 0 <= i < |offsets| - s
      ensures Unpack(base[offsets[s]..head], Rebased(offsets, s), head - offsets[s])[i]
           == Unpack(base, offsets, head)[s..][i]
    {
      UnpackSuffixAt(base, offsets, head, s, i);
    }
  }

  /** Writing `x` at the head and recording its offset adds one item on top. */
  lemma UnpackPush(base: seq<byte>, base': seq<byte>, offsets: seq<nat>, head: nat, x: Item)
    requires Packed(offsets, head) && head <= |base| && x != []
    requires head + |x| <= |base'| && base'[..head] == base[..head] && base'[head..head + |x|] == x
    ensures Packed(offsets + [head], head + |x|)
    ensures Unpack(base', offsets + [head], head + |x|) == Unpack(base, offsets, head) + [x]
  {
    var o := offsets + [head];
    forall i | 0 <= i < |offsets| ensures o[i] < head { EndIsBeyond(offsets, head, i); }
    forall i | 0 <= i < |offsets| ensures Unpack(base', o, head + |x|)[i] == Unpack(base, offsets, head)[i] {
      EndIsBeyond(offsets, head, i);
      SliceOfSlice(base, 0, head, offsets[i], EndOf(offsets, head, i));
      SliceOfSlice(base', 0, head, offsets[i], EndOf(offsets, head, i));
    }
  }
}
