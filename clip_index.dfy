/**
  `ClipIndexVec`: the index values of each class inside the dilated reference
  buffer, balanced to equal sizes by sampling without replacement.

  The buffer comes in already dilated (the disk dilation is a library call) and
  `np.random.choice(n, m, replace=False)` is the parameter `choice`, of which the
  model assumes only what numpy documents: m distinct indices below n. The
  element type of the index image is left generic.
*/
module ClipIndex {
  import opened Masking

  /** `idx` names |idx| distinct positions of a vector of length n. */
  predicate Distinct(idx: seq<nat>, n: nat)
  {
    && (forall k :: 0 <= k < |idx| ==> idx[k] < n)
    && (forall k, l :: 0 <= k < l < |idx| ==> idx[k] != idx[l])
  }

  /** `np.random.choice(n, m, replace=False)` returns m distinct indices below n whenever m <= n. */
  ghost predicate SamplesWithoutReplacement(choice: (nat, nat) -> seq<nat>)
  {
    forall n: nat, m: nat :: m <= n ==> |choice(n, m)| == m && Distinct(choice(n, m), n)
  }

  /** `s[idx]` for an integer index vector. */
  function Pick<T>(s: seq<T>, idx: seq<nat>): (r: seq<T>)
    requires forall k :: 0 <= k < |idx| ==> idx[k] < |s|
    ensures |r| == |idx| && forall k :: 0 <= k < |idx| ==> r[k] == s[idx[k]]
  {
    seq(|idx|, k requires 0 <= k < |idx| => s[idx[k]])
  }

  /** The index values at the cells that are both in the buffer and of the class, in row-major order. */
  function Select<T>(ndi: seq<T>, buffer: seq<bool>, cls: seq<bool>): seq<T>
    requires |buffer| == |ndi| && |cls| == |ndi|
  {
    Compress(ndi, And(buffer, cls))
  }

  /**
    The sample of a class is exactly the buffered cells of that class: its length
    is their number, each such cell's value sits at the number of such cells
    before it, and every element comes from such a cell.
  */
  lemma SelectExactly<T>(ndi: seq<T>, buffer: seq<bool>, cls: seq<bool>)
    requires |buffer| == |ndi| && |cls| == |ndi|
    ensures |Select(ndi, buffer, cls)| == Count(And(buffer, cls))
    ensures forall i :: 0 <= i < |ndi| && buffer[i] && cls[i] ==>
      Count(And(buffer, cls)[..i]) < |Select(ndi, buffer, cls)|
      && Select(ndi, buffer, cls)[Count(And(buffer, cls)[..i])] == ndi[i]
    ensures forall k :: 0 <= k < |Select(ndi, buffer, cls)| ==>
      var i := Position(And(buffer, cls), k); buffer[i] && cls[i] && Select(ndi, buffer, cls)[k] == ndi[i]
  {
    var m := And(buffer, cls);
    forall i | 0 <= i < |ndi| && buffer[i] && cls[i]
      ensures Count(m[..i]) < |Compress(ndi, m)| && Compress(ndi, m)[Count(m[..i])] == ndi[i]
    {
      CompressAt(ndi, m, i);
    }
    forall k | 0 <= k < |Compress(ndi, m)|
      ensures var i := Position(m, k); buffer[i] && cls[i] && Compress(ndi, m)[k] == ndi[i]
    {
      CompressFrom(ndi, m, k);
    }
  }

  /**
    The balancing step: when both samples are non-empty, the strictly larger
    one (by `np.argmin`, which on a tie picks the first, so the non-vegetation
    sample is the one resampled) is cut down to the size of the other.
  */
  function Balance<T>(veg: seq<T>, nonveg: seq<T>, choice: (nat, nat) -> seq<nat>): (r: (seq<T>, seq<T>))
    requires SamplesWithoutReplacement(choice)
  {
    if |veg| > 0 && |nonveg| > 0 then
      if |nonveg| < |veg| then (Pick(veg, choice(|veg|, |nonveg|)), nonveg)
      else (veg, Pick(nonveg, choice(|nonveg|, |veg|)))
    else (veg, nonveg)
  }

  /** `ClipIndexVec` on an already dilated buffer and the two class grids. */
  function ClipIndexVec<T>(ndi: seq<T>, bufferExtra: seq<bool>, veg: seq<bool>, nonveg: seq<bool>,
                           choice: (nat, nat) -> seq<nat>): (r: (seq<T>, seq<T>))
    requires |bufferExtra| == |ndi| && |veg| == |ndi| && |nonveg| == |ndi|
    requires SamplesWithoutReplacement(choice)
  {
    Balance(Select(ndi, bufferExtra, veg), Select(ndi, bufferExtra, nonveg), choice)
  }

  /** Removing the entry that names the last position leaves distinct positions of the shorter vector. */
  lemma DropLast(idx: seq<nat>, n: nat, j: nat)
    requires Distinct(idx, n + 1) && j < |idx| && idx[j] == n
    ensures Distinct(idx[..j] + idx[j + 1..], n)
  {
    var rest := idx[..j] + idx[j + 1..];
    forall k | 0 <= k < |rest|
      ensures rest[k] < n
    {
      var k' := if k < j then k else k + 1;
      assert rest[k] == idx[k'];
    }
    forall k, l | 0 <= k < l < |rest|
      ensures rest[k] != rest[l]
    {
      var k' := if k < j then k else k + 1;
      var l' := if l < j then l else l + 1;
      assert rest[k] == idx[k'] && rest[l] == idx[l'];
    }
  }

  /** Taking one entry out of the index vector takes its element out of the picked multiset. */
  lemma PickWithout<T>(s: seq<T>, x: seq<nat>, i: nat, y: seq<nat>)
    requires forall k :: 0 <= k < |x| ==> x[k] < |s|
    requires forall k :: 0 <= k < |y| ==> y[k] < |s|
    requires i < |s|
    ensures multiset(Pick(s, x + [i] + y)) == multiset(Pick(s, x + y)) + multiset{s[i]}
  {
    PickConcat(s, x + [i], y);
    PickConcat(s, x, [i]);
    PickConcat(s, x, y);
    var p, q := Pick(s, x), Pick(s, y);
    assert Pick(s, [i]) == [s[i]];
    calc {
      multiset(Pick(s, x + [i] + y));
      multiset(p + [s[i]] + q);
      multiset(p) + multiset{s[i]} + multiset(q);
      multiset(p + q) + multiset{s[i]};
    }
  }

  /** Picking along two index vectors one after the other. */
  lemma PickConcat<T>(s: seq<T>, x: seq<nat>, y: seq<nat>)
    requires forall k :: 0 <= k < |x| ==> x[k] < |s|
    requires forall k :: 0 <= k < |y| ==> y[k] < |s|
    ensures Pick(s, x + y) == Pick(s, x) + Pick(s, y)
  {
  }

  /** Picking distinct positions never takes an element more often than it occurs. */
  lemma {:induction false} PickSubMultiset<T>(s: seq<T>, idx: seq<nat>)
    requires Distinct(idx, |s|)
    ensures multiset(Pick(s, idx)) <= multiset(s)
    decreases |s|
  {
    if s != [] {
      var n := |s| - 1;
      var s' := s[..n];
      assert s == s' + [s[n]];
      if j :| 0 <= j < |idx| && idx[j] == n {
        var rest := idx[..j] + idx[j + 1..];
        DropLast(idx, n, j);
        PickSubMultiset(s', rest);
        assert Pick(s, rest) == Pick(s', rest);
        assert idx == idx[..j] + [n] + idx[j + 1..];
        PickWithout(s, idx[..j], n, idx[j + 1..]);
      } else {
        assert Distinct(idx, n);
        PickSubMultiset(s', idx);
        assert Pick(s, idx) == Pick(s', idx);
      }
    }
  }

  /** Picking |s| distinct positions of s is a reordering of s. */
  lemma PickAllPermutes<T>(s: seq<T>, idx: seq<nat>)
    requires Distinct(idx, |s|) && |idx| == |s|
    ensures multiset(Pick(s, idx)) == multiset(s)
  {
    var a, b := multiset(Pick(s, idx)), multiset(s);
    PickSubMultiset(s, idx);
    var d := b - a;
    assert b == a + d;
    assert |d| == 0;
  }

  /**
    After balancing, when both samples were non-empty they have the size of
    the smaller one, and each is a sub-multiset of its original (no element
    drawn twice); the sample that was not resampled is unchanged, and on a tie
    the resampled non-vegetation sample is a reordering of the original. When
    either sample is empty, neither changes.
  */
  lemma BalanceProperties<T>(veg: seq<T>, nonveg: seq<T>, choice: (nat, nat) -> seq<nat>)
    requires SamplesWithoutReplacement(choice)
    ensures var r := Balance(veg, nonveg, choice);
      && (|veg| > 0 && |nonveg| > 0 ==>
        && |r.0| == |r.1| == (if |veg| < |nonveg| then |veg| else |nonveg|)
        && multiset(r.0) <= multiset(veg)
        && multiset(r.1) <= multiset(nonveg)
        && (|nonveg| < |veg| ==> r.1 == nonveg)
        && (|veg| <= |nonveg| ==> r.0 == veg)
        && (|veg| == |nonveg| ==> multiset(r.1) == multiset(nonveg)))
      && (|veg| == 0 || |nonveg| == 0 ==> r == (veg, nonveg))
  {
    if |veg| > 0 && |nonveg| > 0 {
      if |nonveg| < |veg| {
        PickSubMultiset(veg, choice(|veg|, |nonveg|));
      } else {
        PickSubMultiset(nonveg, choice(|nonveg|, |veg|));
        if |veg| == |nonveg| {
          PickAllPermutes(nonveg, choice(|nonveg|, |veg|));
        }
      }
    }
  }
}
