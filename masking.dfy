/**
  Bottom handling shared by both detectors: the per-ping index of the first sample under
  the bottom line, the crop of a block's rows to the largest such index, and the in-place
  write of a fill value into the masked cells of a block matrix.
*/
module Masking {
  import opened Samples
  import opened Indices

  /** Depth strictly increases with the sample index, every depth finite. */
  predicate Deepening(row: seq<Db>) {
    forall i, j | 0 <= i < j < |row| :: Greater(row[j], row[i])
  }

  /** `np.nonzero(np.isfinite(row) & (row >= b))[0]`: the samples at or under the bottom `b`. */
  function UnderIndices(row: seq<Db>, b: Db): (under: seq<nat>)
    ensures forall i | 0 <= i < |under| :: under[i] < |row| && NotLess(row[under[i]], b)
    ensures forall j | 0 <= j < |row| && NotLess(row[j], b) :: j in under && under[0] <= j
  {
    var p := (j: nat) => j < |row| && NotLess(row[j], b);
    WhereFirstIsLeast(|row|, p);
    assert forall j | 0 <= j < |row| && NotLess(row[j], b) :: p(j);
    Where(|row|, p)
  }

  /** `under[0] if under.size else (nb_samples_tot - 1)`: the first sample under the bottom. */
  function FirstUnder(row: seq<Db>, b: Db): (i: int)
    ensures -1 <= i < |row|
    ensures |row| > 0 ==> 0 <= i
    ensures forall j | 0 <= j < i :: !NotLess(row[j], b)
    ensures 0 <= i ==> NotLess(row[i], b) || (i == |row| - 1 && forall j | 0 <= j < |row| :: !NotLess(row[j], b))
  {
    var under := UnderIndices(row, b);
    if |under| > 0 then under[0] else |row| - 1
  }

  /** `idx_bot`, filled ping by ping for the pings `lo .. hi-1`. */
  method BottomIndices(depth: seq<seq<Db>>, bottom: seq<Db>, lo: nat, hi: nat) returns (idxBot: array<int>)
    requires lo <= hi <= |depth| && hi <= |bottom|
    ensures fresh(idxBot) && idxBot.Length == hi - lo
    ensures idxBot[..] == BottomIndexList(depth, bottom, lo, hi)
  {
    idxBot := new int[hi - lo];
    for k := 0 to hi - lo
      invariant forall k' | 0 <= k' < k :: idxBot[k'] == FirstUnder(depth[lo + k'], bottom[lo + k'])
    {
      idxBot[k] := FirstUnder(depth[lo + k], bottom[lo + k]);
    }
  }

  /** The value of `idx_bot` for the pings `lo .. hi-1`. */
  function BottomIndexList(depth: seq<seq<Db>>, bottom: seq<Db>, lo: nat, hi: nat): (xs: seq<int>)
    requires lo <= hi <= |depth| && hi <= |bottom|
    ensures |xs| == hi - lo
    ensures forall k | 0 <= k < hi - lo :: xs[k] == FirstUnder(depth[lo + k], bottom[lo + k])
  {
    seq(hi - lo, k requires 0 <= k < hi - lo => FirstUnder(depth[lo + k], bottom[lo + k]))
  }

  /** The number of rows `idx_r[idx_r <= max_idx]` keeps when `idx_r` is `arange(total)`. */
  function CropRows(total: nat, maxIdx: int): (rows: nat)
    ensures rows <= total
  {
    if maxIdx < 0 then 0 else if maxIdx + 1 < total then maxIdx + 1 else total
  }

  /** `arange(n)`. */
  function Range(n: nat): (xs: seq<nat>)
    ensures |xs| == n && forall i | 0 <= i < n :: xs[i] == i
  {
    seq(n, i => i)
  }

  /** The crop keeps exactly the rows `0 .. max_idx` (inclusive) of `arange(total)`, in order. */
  lemma {:induction false} CropKeepsLeadingRows(total: nat, maxIdx: int, keep: nat -> bool)
    requires forall r: nat :: keep(r) == (r <= maxIdx)
    ensures Where(total, keep) == Range(CropRows(total, maxIdx))
  {
    if total > 0 {
      var n := total - 1;
      CropKeepsLeadingRows(n, maxIdx, keep);
      if keep(n) {
        RangeGrows(Where(n, keep), n);
      }
    }
  }

  /** `arange(n)` followed by `n` is `arange(n + 1)`. */
  lemma RangeGrows(xs: seq<nat>, n: nat)
    requires xs == Range(n)
    ensures xs + [n] == Range(n + 1)
  {
  }

  /**
    Under a strictly deepening depth row, every sample after the first under-bottom one is
    under the bottom too: the rows a crop drops lie under the bottom of every ping.
  */
  lemma DeeperSamplesAreUnder(row: seq<Db>, b: Db, r: int)
    requires Deepening(row)
    requires FirstUnder(row, b) < r < |row|
    ensures NotLess(row[r], b)
  {
    var i := FirstUnder(row, b);
    assert 0 <= i;
    assert Greater(row[r], row[i]);
  }

  /** `a[mask] = v`, in place. */
  method Fill(a: array2<Db>, mask: array2<bool>, v: Db)
    requires mask.Length0 == a.Length0 && mask.Length1 == a.Length1
    modifies a
    ensures forall r, j | 0 <= r < a.Length0 && 0 <= j < a.Length1 ::
              a[r, j] == if mask[r, j] then v else old(a[r, j])
  {
    for r := 0 to a.Length0
      invariant forall r', j | 0 <= r' < a.Length0 && 0 <= j < a.Length1 ::
                  a[r', j] == if r' < r && mask[r', j] then v else old(a[r', j])
    {
      for j := 0 to a.Length1
        invariant forall r', j' | 0 <= r' < a.Length0 && 0 <= j' < a.Length1 ::
                    a[r', j'] == if (r' < r || (r' == r && j' < j)) && mask[r', j'] then v else old(a[r', j'])
      {
        if mask[r, j] {
          a[r, j] := v;
        }
      }
    }
  }

  /** The contents of a matrix, row by row. */
  function Snapshot(a: array2<Db>): (m: seq<seq<Db>>)
    reads a
    ensures |m| == a.Length0
    ensures forall r | 0 <= r < a.Length0 :: |m[r]| == a.Length1
    ensures forall r, j | 0 <= r < a.Length0 && 0 <= j < a.Length1 :: m[r][j] == a[r, j]
  {
    seq(a.Length0, r requires 0 <= r < a.Length0 reads a =>
      seq(a.Length1, j requires 0 <= j < a.Length1 reads a => a[r, j]))
  }

  /** `TS[:n, j]` of a matrix stored row by row. */
  function ColumnOf(m: seq<seq<Db>>, j: nat, n: nat): (z: seq<Db>)
    requires n <= |m| && forall r | 0 <= r < |m| :: j < |m[r]|
    ensures |z| == n
  {
    if n == 0 then [] else ColumnOf(m, j, n - 1) + [m[n - 1][j]]
  }

  /** Sample `r` of a column of a matrix stored row by row is the cell of row `r`. */
  lemma {:induction false} ColumnOfCells(m: seq<seq<Db>>, j: nat, n: nat)
    requires n <= |m| && forall r | 0 <= r < |m| :: j < |m[r]|
    ensures forall r | 0 <= r < n :: ColumnOf(m, j, n)[r] == m[r][j]
  {
    if n > 0 {
      ColumnOfCells(m, j, n - 1);
    }
  }
}
