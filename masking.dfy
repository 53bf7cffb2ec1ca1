/**
  numpy boolean masks over row-major pixel vectors.

  Every grid of the pipeline is handled the way the source handles it after
  `reshape(nrows*ncols)`: as a flat vector, cell (r, c) at position r*ncols + c.
  `Compress(v, m)` is numpy's `v[m]` (keep the cells where m is True, in order);
  `Scatter(m, vals)` is `out = nan*ones(...); out[m] = vals`.
*/
module Masking {
  import opened Wrappers

  /** Number of True cells (`np.count_nonzero`, `sum(sum(mask))`). */
  function Count(m: seq<bool>): (n: nat)
    ensures n <= |m|
  {
    if m == [] then 0 else Count(m[..|m| - 1]) + (if m[|m| - 1] then 1 else 0)
  }

  function Not(m: seq<bool>): (r: seq<bool>)
    ensures |r| == |m| && forall i :: 0 <= i < |m| ==> r[i] == !m[i]
  {
    seq(|m|, i requires 0 <= i < |m| => !m[i])
  }

  function And(a: seq<bool>, b: seq<bool>): (r: seq<bool>)
    requires |a| == |b|
    ensures |r| == |a| && forall i :: 0 <= i < |a| ==> r[i] == (a[i] && b[i])
  {
    seq(|a|, i requires 0 <= i < |a| => a[i] && b[i])
  }

  function Or(a: seq<bool>, b: seq<bool>): (r: seq<bool>)
    requires |a| == |b|
    ensures |r| == |a| && forall i :: 0 <= i < |a| ==> r[i] == (a[i] || b[i])
  {
    seq(|a|, i requires 0 <= i < |a| => a[i] || b[i])
  }

  /** `np.logical_xor`. */
  function Xor(a: seq<bool>, b: seq<bool>): (r: seq<bool>)
    requires |a| == |b|
    ensures |r| == |a| && forall i :: 0 <= i < |a| ==> r[i] == (a[i] != b[i])
  {
    seq(|a|, i requires 0 <= i < |a| => a[i] != b[i])
  }

  /** A mask with no True cell counts zero, and a mask of only True cells counts every cell. */
  lemma {:induction false} CountExtremes(m: seq<bool>)
    ensures (forall i :: 0 <= i < |m| ==> !m[i]) <==> Count(m) == 0
    ensures (forall i :: 0 <= i < |m| ==> m[i]) <==> Count(m) == |m|
  {
    if m != [] {
      var p := m[..|m| - 1];
      CountExtremes(p);
      assert forall i :: 0 <= i < |p| ==> p[i] == m[i];
    }
  }

  /** Negating a mask swaps the counts of True and False cells. */
  lemma {:induction false} CountNot(m: seq<bool>)
    ensures Count(Not(m)) == |m| - Count(m)
  {
    if m != [] {
      CountNot(m[..|m| - 1]);
      assert Not(m)[..|m| - 1] == Not(m[..|m| - 1]);
    }
  }

  /** A True cell at position i is preceded by fewer True cells than the whole mask holds. */
  lemma {:induction false} CountPrefixBelow(m: seq<bool>, i: nat)
    requires i < |m| && m[i]
    ensures Count(m[..i]) < Count(m)
  {
    var p := m[..|m| - 1];
    if i < |m| - 1 {
      CountPrefixBelow(p, i);
      assert p[..i] == m[..i];
    } else {
      assert p == m[..i];
    }
  }

  /** A prefix never holds more True cells than the whole mask. */
  lemma {:induction false} CountPrefixAtMost(m: seq<bool>, i: nat)
    requires i <= |m|
    ensures Count(m[..i]) <= Count(m)
  {
    if i < |m| {
      var p := m[..|m| - 1];
      CountPrefixAtMost(p, i);
      assert p[..i] == m[..i];
    } else {
      assert m[..i] == m;
    }
  }

  /** A longer prefix holds at least as many True cells. */
  lemma CountPrefixMonotone(m: seq<bool>, i: nat, j: nat)
    requires i <= j <= |m|
    ensures Count(m[..i]) <= Count(m[..j])
  {
    CountPrefixAtMost(m[..j], i);
    assert m[..j][..i] == m[..i];
  }

  /** Position of the k-th True cell (counting from 0): the inverse of the prefix count. */
  function Position(m: seq<bool>, k: nat): (i: nat)
    requires k < Count(m)
    ensures i < |m| && m[i] && Count(m[..i]) == k
  {
    var p := m[..|m| - 1];
    if k < Count(p) then
      assert p[..Position(p, k)] == m[..Position(p, k)];
      Position(p, k)
    else
      assert p == m[..|m| - 1];
      |m| - 1
  }

  /** Positions of True cells grow with their rank, so `s[m]` keeps the order of s. */
  lemma PositionIncreasing(m: seq<bool>, k: nat, l: nat)
    requires k < l < Count(m)
    ensures Position(m, k) < Position(m, l)
  {
    var a, b := Position(m, k), Position(m, l);
    if b <= a {
      CountPrefixMonotone(m, b, a);
    }
  }

  /** The positions of consecutive True cells increase. */
  lemma PositionsIncrease(m: seq<bool>)
    ensures forall k :: 0 < k < Count(m) ==> Position(m, k - 1) < Position(m, k)
  {
    forall k | 0 < k < Count(m)
      ensures Position(m, k - 1) < Position(m, k)
    {
      PositionIncreasing(m, k - 1, k);
    }
  }

  /** numpy boolean indexing `s[m]`: the cells of s where m is True, in order. */
  function Compress<T>(s: seq<T>, m: seq<bool>): (r: seq<T>)
    requires |s| == |m|
    ensures |r| == Count(m)
  {
    if s == [] then []
    else Compress(s[..|s| - 1], m[..|m| - 1]) + (if m[|m| - 1] then [s[|s| - 1]] else [])
  }

  /** Compress keeps order: the cell at a True position i lands at the number of True cells before it. */
  lemma {:induction false} CompressAt<T>(s: seq<T>, m: seq<bool>, i: nat)
    requires |s| == |m| && i < |s| && m[i]
    ensures Count(m[..i]) < |Compress(s, m)| && Compress(s, m)[Count(m[..i])] == s[i]
  {
    var n := |s|;
    var s', m' := s[..n - 1], m[..n - 1];
    if i == n - 1 {
      assert m' == m[..i];
    } else {
      CompressAt(s', m', i);
      assert m'[..i] == m[..i];
    }
  }

  /** Every element of `s[m]` is the element at some True position, taken in order. */
  lemma CompressFrom<T>(s: seq<T>, m: seq<bool>, k: nat)
    requires |s| == |m| && k < |Compress(s, m)|
    ensures Position(m, k) < |s| && m[Position(m, k)] && Compress(s, m)[k] == s[Position(m, k)]
  {
    CompressAt(s, m, Position(m, k));
  }

  /** A property of every kept cell carries over to every element of the compressed vector. */
  lemma CompressAll<T>(s: seq<T>, m: seq<bool>, p: T -> bool)
    requires |s| == |m|
    requires forall i :: 0 <= i < |s| && m[i] ==> p(s[i])
    ensures forall k :: 0 <= k < |Compress(s, m)| ==> p(Compress(s, m)[k])
  {
    forall k | 0 <= k < |Compress(s, m)|
      ensures p(Compress(s, m)[k])
    {
      CompressFrom(s, m, k);
    }
  }

  /** Compressing only removes elements: `s[m]` is a sub-multiset of s. */
  lemma {:induction false} CompressSubMultiset<T>(s: seq<T>, m: seq<bool>)
    requires |s| == |m|
    ensures multiset(Compress(s, m)) <= multiset(s)
  {
    if s != [] {
      var n := |s|;
      CompressSubMultiset(s[..n - 1], m[..n - 1]);
      assert s == s[..n - 1] + [s[n - 1]];
    }
  }

  /** An all-True mask keeps the vector unchanged. */
  lemma {:induction false} CompressAllTrue<T>(s: seq<T>, m: seq<bool>)
    requires |s| == |m| && forall i :: 0 <= i < |m| ==> m[i]
    ensures Compress(s, m) == s
  {
    if s != [] {
      CompressAllTrue(s[..|s| - 1], m[..|m| - 1]);
    }
  }

  function Wrap<T>(vals: seq<T>): (r: seq<Option<T>>)
    ensures |r| == |vals| && forall k :: 0 <= k < |vals| ==> r[k] == Some(vals[k])
  {
    seq(|vals|, k requires 0 <= k < |vals| => Some(vals[k]))
  }

  /** `out = nan*ones(len(m)); out[m] = vals`: vals written, in order, into the True cells. */
  function Scatter<T>(m: seq<bool>, vals: seq<T>): (r: seq<Option<T>>)
    requires |vals| == Count(m)
    ensures |r| == |m|
  {
    if m == [] then []
    else if m[|m| - 1] then Scatter(m[..|m| - 1], vals[..|vals| - 1]) + [Some(vals[|vals| - 1])]
    else Scatter(m[..|m| - 1], vals) + [None]
  }

  /** Cell i of a scatter: undefined where the mask is False, else the next value in order. */
  lemma {:induction false} ScatterAt<T>(m: seq<bool>, vals: seq<T>, i: nat)
    requires |vals| == Count(m) && i < |m|
    ensures m[i] ==> Count(m[..i]) < |vals| && Scatter(m, vals)[i] == Some(vals[Count(m[..i])])
    ensures !m[i] ==> Scatter(m, vals)[i] == None
  {
    var n := |m|;
    var m' := m[..n - 1];
    if i == n - 1 {
      assert m' == m[..i];
    } else {
      assert m'[..i] == m[..i];
      if m[n - 1] {
        ScatterAt(m', vals[..|vals| - 1], i);
      } else {
        ScatterAt(m', vals, i);
      }
    }
  }

  /** Scattering one more cell of the mask: the next value when the cell is True, undefined otherwise. */
  lemma ScatterStep<T>(m: seq<bool>, vals: seq<T>, i: nat)
    requires |vals| == Count(m) && i < |m|
    ensures var n := Count(m[..i]);
      && Count(m[..i + 1]) == n + (if m[i] then 1 else 0) <= |vals|
      && Scatter(m[..i + 1], vals[..Count(m[..i + 1])]) == Scatter(m[..i], vals[..n]) + [if m[i] then Some(vals[n]) else None]
  {
    var n := Count(m[..i]);
    assert m[..i + 1][..i] == m[..i];
    CountPrefixAtMost(m, i + 1);
    if m[i] {
      assert vals[..n + 1][..n] == vals[..n];
    }
  }

  /** Reading back the scattered cells with the same mask returns exactly the values scattered. */
  lemma {:induction false} CompressScatter<T>(m: seq<bool>, vals: seq<T>)
    requires |vals| == Count(m)
    ensures Compress(Scatter(m, vals), m) == Wrap(vals)
  {
    if m != [] {
      var n := |m|;
      var m' := m[..n - 1];
      var sc := Scatter(m, vals);
      assert Compress(sc, m) == Compress(sc[..n - 1], m') + (if m[n - 1] then [sc[n - 1]] else []);
      if m[n - 1] {
        var v' := vals[..|vals| - 1];
        assert sc == Scatter(m', v') + [Some(vals[|vals| - 1])];
        assert sc[..n - 1] == Scatter(m', v');
        CompressScatter(m', v');
        WrapSnoc(v', vals[|vals| - 1]);
        assert v' + [vals[|vals| - 1]] == vals;
      } else {
        assert sc == Scatter(m', vals) + [None];
        assert sc[..n - 1] == Scatter(m', vals);
        CompressScatter(m', vals);
      }
    }
  }

  lemma WrapSnoc<T>(vals: seq<T>, v: T)
    ensures Wrap(vals + [v]) == Wrap(vals) + [Some(v)]
  {
    assert Wrap(vals + [v]) == Wrap(vals) + [Some(v)];
  }

}
