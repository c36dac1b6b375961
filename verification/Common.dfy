/** Vocabulary shared by every layer of the model. */
module Common {
  datatype Option<+T> = None | Some(value: T)

  newtype byte = x: int | 0 <= x < 256

  /** A work item is an arbitrary byte string. */
  type Item = seq<byte>

  lemma Reassociate<T>(a: seq<T>, b: seq<T>, c: seq<T>)
    ensures a + b + c == a + (b + c)
  {
  }

  /** Sum of a sequence of integers. */
  function Sum(s: seq<int>): int {
    if s == [] then 0 else Sum(s[..|s| - 1]) + s[|s| - 1]
  }

  lemma {:induction false} SumUpdate(s: seq<int>, i: nat, v: int)
    requires i < |s|
    ensures Sum(s[i := v]) == Sum(s) - s[i] + v
  {
    var t := s[i := v];
    if i == |s| - 1 {
      assert t[..|s| - 1] == s[..|s| - 1];
    } else {
      SumUpdate(s[..|s| - 1], i, v);
      assert t[..|s| - 1] == s[..|s| - 1][i := v];
    }
  }

  lemma {:induction false} SumOfZeros(s: seq<int>)
    requires forall i | 0 <= i < |s| :: s[i] == 0
    ensures Sum(s) == 0
  {
    if s != [] { SumOfZeros(s[..|s| - 1]); }
  }

  lemma {:induction false} SumIsNonNegative(s: seq<int>)
    requires forall i | 0 <= i < |s| :: s[i] >= 0
    ensures Sum(s) >= 0
  {
    if s != [] { SumIsNonNegative(s[..|s| - 1]); }
  }

  lemma {:induction false} SumTail(s: seq<int>)
    requires s != []
    ensures Sum(s) == s[0] + Sum(s[1..])
  {
    var m := |s| - 1;
    if m == 0 {
      assert s[..0] == [] && s[1..] == [];
    } else {
      SumTail(s[..m]);
      assert s[..m][1..] == s[1..][..m - 1];
      assert s[1..][m - 1] == s[m];
    }
  }

  lemma {:induction false} SumAppend(s: seq<int>, t: seq<int>)
    ensures Sum(s + t) == Sum(s) + Sum(t)
  {
    if t == [] {
      assert s + t == s;
    } else {
      assert (s + t)[..|s + t| - 1] == s + t[..|t| - 1];
      SumAppend(s, t[..|t| - 1]);
    }
  }

  lemma {:induction false} SumIsSmall(s: seq<int>, m: nat)
    requires forall i | 0 <= i < |s| :: 0 <= s[i] <= m
    ensures 0 <= Sum(s) <= m * |s|
  {
    if s != [] { SumIsSmall(s[..|s| - 1], m); }
  }

  lemma {:induction false} SumFalls(s: seq<int>, t: seq<int>, i: nat)
    requires |s| == |t| && i < |s| && t[i] < s[i] && forall j | 0 <= j < |s| :: t[j] <= s[j]
    ensures Sum(t) < Sum(s)
  {
    var m := |s| - 1;
    if i == m { SumIsMonotone(s[..m], t[..m]); } else { SumFalls(s[..m], t[..m], i); }
  }

  lemma {:induction false} SumIsMonotone(s: seq<int>, t: seq<int>)
    requires |s| == |t| && forall j | 0 <= j < |s| :: t[j] <= s[j]
    ensures Sum(t) <= Sum(s)
  {
    if s != [] { SumIsMonotone(s[..|s| - 1], t[..|s| - 1]); }
  }

  /** Union of a sequence of multisets. */
  function Union<T>(s: seq<multiset<T>>): multiset<T> {
    if s == [] then multiset{} else Union(s[..|s| - 1]) + s[|s| - 1]
  }

  /** Replacing an entry. */
  lemma {:induction false} UnionUpdate<T>(s: seq<multiset<T>>, i: nat, v: multiset<T>)
    requires i < |s|
    ensures Union(s[i := v]) + s[i] == Union(s) + v
  {
    var t, m := s[i := v], |s| - 1;
    if i == m {
      assert t[..m] == s[..m];
      Swap(Union(s[..m]), v, s[i]);
    } else {
      UnionUpdate(s[..m], i, v);
      assert t[..m] == s[..m][i := v];
      Swap(Union(t[..m]), s[m], s[i]);
      Swap(Union(s[..m]), s[m], v);
    }
  }

  lemma Swap<T>(a: multiset<T>, b: multiset<T>, c: multiset<T>)
    ensures a + b + c == a + c + b
  {
  }

  lemma FillUnion<T>(h: seq<multiset<T>>, r: nat, v: multiset<T>)
    requires r < |h| && h[r] == multiset{}
    ensures Union(h[r := v]) == Union(h) + v
  {
    UnionUpdate(h, r, v);
  }

  lemma Cancel<T>(a: multiset<T>, b: multiset<T>, c: multiset<T>)
    requires a + c == b + c
    ensures a == b
  {
    assert a == (a + c) - c && b == (b + c) - c;
  }

  /** Moving `sent` from slot `s` to slot `r` changes no total. */
  lemma MoveKeepsUnion<T>(h: seq<multiset<T>>, h': seq<multiset<T>>, s: nat, r: nat, sent: multiset<T>)
    requires |h'| == |h| && s < |h| && r < |h| && s != r
    requires h' == h[s := h'[s]][r := h'[r]]
    requires h[s] == h'[s] + sent && h'[r] == h[r] + sent
    ensures Union(h') == Union(h)
  {
    var g := h[s := h'[s]];
    UnionUpdate(h, s, h'[s]);
    UnionUpdate(g, r, h'[r]);
    assert Union(g) + sent + h'[s] == Union(h) + h'[s];
    assert Union(h') + h[r] == Union(g) + sent + h[r];
    Cancel(Union(g) + sent, Union(h), h'[s]);
    Cancel(Union(h'), Union(g) + sent, h[r]);
  }

  lemma {:induction false} UnionOfEmpties<T>(s: seq<multiset<T>>)
    requires forall i | 0 <= i < |s| :: s[i] == multiset{}
    ensures Union(s) == multiset{}
  {
    if s != [] { UnionOfEmpties(s[..|s| - 1]); }
  }

  /** The naturals below `m`. */
  ghost function Below(m: nat): (s: set<nat>)
    ensures |s| == m
    ensures forall i: nat :: i in s <==> i < m
  {
    if m == 0 then {} else Below(m - 1) + {m - 1}
  }

  /** A subset as large as the whole is the whole. */
  lemma FullSubset<T>(a: set<T>, b: set<T>)
    requires a <= b && |a| == |b|
    ensures a == b
  {
    assert |b - a| == |b| - |a|;
  }

  lemma SubsetSize<T>(a: set<T>, b: set<T>)
    requires a <= b
    ensures |a| <= |b|
  {
    assert |b - a| == |b| - |a|;
  }

  /** Taking the steps in order leads from `s` to `t`; `next` says what a step does, if it is possible. */
  ghost predicate Path<S, A>(next: (S, A) -> Option<S>, s: S, steps: seq<A>, t: S)
    decreases |steps|
  {
    if steps == [] then s == t
    else next(s, steps[0]).Some? && Path(next, next(s, steps[0]).value, steps[1..], t)
  }

  lemma {:induction false} PathAppend<S, A>(next: (S, A) -> Option<S>, s: S, steps: seq<A>, t: S, steps': seq<A>, u: S)
    requires Path(next, s, steps, t) && Path(next, t, steps', u)
    ensures Path(next, s, steps + steps', u)
    decreases |steps|
  {
    if steps == [] {
      assert steps + steps' == steps';
    } else {
      PathAppend(next, next(s, steps[0]).value, steps[1..], t, steps', u);
      assert (steps + steps')[1..] == steps[1..] + steps';
    }
  }
}
