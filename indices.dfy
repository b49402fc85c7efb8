/**
  The vectorised index operations the detectors use: `np.where(mask)[0]` and
  `np.nonzero(mask)[0]` (the increasing list of positions where a condition holds), and the
  maxima and minima of non-empty lists (`np.nanmax`, `seg.min()`, `seg.max()`).
*/
module Indices {
  import opened Wrappers
  import opened Samples

  /** Strictly increasing. */
  predicate Increasing(ks: seq<int>) {
    forall i, j | 0 <= i < j < |ks| :: ks[i] < ks[j]
  }

  /** An increasing list stays increasing when a value above all its elements is appended. */
  lemma IncreasingAppend(xs: seq<int>, k: int)
    requires Increasing(xs) && forall i | 0 <= i < |xs| :: xs[i] < k
    ensures Increasing(xs + [k])
  {
  }

  /** `np.where(p)[0]` over the positions `0 .. n-1`: every position where `p` holds, in order. */
  function Where(n: nat, p: nat -> bool): (ks: seq<nat>)
    ensures forall i | 0 <= i < |ks| :: ks[i] < n && p(ks[i])
    ensures forall k: nat | k < n && p(k) :: k in ks
  {
    if n == 0 then [] else Where(n - 1, p) + (if p(n - 1) then [n - 1] else [])
  }

  /** `np.where` lists the positions in increasing order. */
  lemma {:induction false} WhereIncreasing(n: nat, p: nat -> bool)
    ensures Increasing(Where(n, p))
  {
    if n > 0 {
      var ks := Where(n - 1, p);
      WhereIncreasing(n - 1, p);
      var ws := Where(n, p);
      forall i, j | 0 <= i < j < |ws|
        ensures ws[i] < ws[j]
      {
        assert ws[i] == ks[i];
        if j < |ks| {
          assert ws[j] == ks[j];
        } else {
          assert ws[j] == n - 1;
        }
      }
    }
  }

  /** Once some position satisfies `p`, `np.where(p)[0][0]` exists and is the least such position. */
  lemma {:induction false} WhereFirstIsLeast(n: nat, p: nat -> bool)
    ensures forall k: nat | k < n && p(k) :: |Where(n, p)| > 0 && Where(n, p)[0] <= k
  {
    var ks := Where(n, p);
    WhereIncreasing(n, p);
    forall k: nat | k < n && p(k)
      ensures |ks| > 0 && ks[0] <= k
    {
      var m :| 0 <= m < |ks| && ks[m] == k;
      if m > 0 {
        assert ks[0] < ks[m];
      }
    }
  }

  /** `np.where(p)[0].max()` over the indices below `n`, and -1 when no index satisfies `p`. */
  function LastWhere(n: nat, p: nat -> bool): (last: int)
    ensures -1 <= last < n
    ensures last >= 0 ==> p(last)
    ensures forall r: nat | last < r < n :: !p(r)
  {
    if n == 0 then -1 else if p(n - 1) then n - 1 else LastWhere(n - 1, p)
  }

  /** Two conditions that agree below `n` have the same last index. */
  lemma {:induction false} LastWhereAgree(n: nat, p: nat -> bool, q: nat -> bool)
    requires forall r: nat | r < n :: p(r) == q(r)
    ensures LastWhere(n, p) == LastWhere(n, q)
  {
    if n > 0 {
      LastWhereAgree(n - 1, p, q);
    }
  }

  /** The largest element of a non-empty list of integers. */
  function MaxInt(xs: seq<int>): (m: int)
    requires |xs| > 0
    ensures m in xs
    ensures forall i | 0 <= i < |xs| :: xs[i] <= m
  {
    if |xs| == 1 then xs[0]
    else
      var m' := MaxInt(xs[..|xs| - 1]);
      if xs[|xs| - 1] > m' then xs[|xs| - 1] else m'
  }

  /** The smallest and the largest of a set of values. */
  datatype Bounds = Bounds(lo: real, hi: real)

  /**
    `seg = d[lo:hi]` then `seg[np.isfinite(seg)]` followed by `.min()` and `.max()`: the
    extreme finite values of the cells `lo` to `hi - 1` of a column, or None when none of them
    is finite (the `seg.size == 0` case of `detect_esp3`).
  */
  function Extent(d: seq<Db>, lo: nat, hi: nat): (e: Option<Bounds>)
    requires lo <= hi <= |d|
    ensures e.Some? ==> e.value.lo <= e.value.hi
    decreases hi - lo
  {
    if hi == lo then None
    else
      var rest := Extent(d, lo, hi - 1);
      var last := d[hi - 1];
      if last.NaN? then rest
      else if rest.None? then Some(Bounds(last.v, last.v))
      else
        Some(Bounds(if last.v < rest.value.lo then last.v else rest.value.lo,
                    if last.v > rest.value.hi then last.v else rest.value.hi))
  }

  /**
    `Extent` is None exactly when no cell of the window is finite; otherwise its bounds enclose
    every finite cell of the window and each is the value of one of them.
  */
  lemma {:induction false} ExtentExact(d: seq<Db>, lo: nat, hi: nat)
    requires lo <= hi <= |d|
    ensures Extent(d, lo, hi).None? <==> forall i | lo <= i < hi :: d[i].NaN?
    ensures Extent(d, lo, hi).Some? ==>
              && (forall i | lo <= i < hi && d[i].Val? :: Extent(d, lo, hi).value.lo <= d[i].v <= Extent(d, lo, hi).value.hi)
              && (exists i | lo <= i < hi :: d[i] == Val(Extent(d, lo, hi).value.lo))
              && (exists i | lo <= i < hi :: d[i] == Val(Extent(d, lo, hi).value.hi))
    decreases hi - lo
  {
    if hi > lo {
      ExtentExact(d, lo, hi - 1);
      var rest := Extent(d, lo, hi - 1);
      if rest.Some? {
        var i0 :| lo <= i0 < hi - 1 && d[i0] == Val(rest.value.lo);
        var i1 :| lo <= i1 < hi - 1 && d[i1] == Val(rest.value.hi);
      }
    }
  }
}
