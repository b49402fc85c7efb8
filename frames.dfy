/**
  One channel's echogram as both detectors see it after channel selection: Sv and depth
  laid out `[ping][sample]`, the optional bottom depth per ping and the ping times, and the
  rows each detector keeps once the bottom is known.
*/
module Frames {
  import opened Wrappers
  import opened Samples
  import opened Indices
  import opened Blocks
  import opened Masking

  datatype Frame = Frame(
    nPings: nat,
    nSamples: nat,
    sv: seq<seq<Db>>,
    depth: seq<seq<Db>>,
    bottom: Option<seq<Db>>,
    times: seq<int>)

  /** Every matrix is `nPings x nSamples` and every per-ping vector has `nPings` entries. */
  predicate Valid(f: Frame) {
    && |f.sv| == f.nPings && |f.depth| == f.nPings && |f.times| == f.nPings
    && (forall p | 0 <= p < f.nPings :: |f.sv[p]| == f.nSamples && |f.depth[p]| == f.nSamples)
    && (f.bottom.Some? ==> |f.bottom.value| == f.nPings)
  }

  /** `DEP >= bcol`: the sample lies at or under the bottom of its ping (false where either is NaN). */
  predicate Under(f: Frame, p: nat, r: nat)
    requires Valid(f) && p < f.nPings && r < f.nSamples
  {
    f.bottom.Some? && NotLess(f.depth[p][r], f.bottom.value[p])
  }

  /** `idx_r_tot.size`: with a bottom, one more than the deepest first-under-bottom index of any ping. */
  function GlobalRows(f: Frame): (rows: nat)
    requires Valid(f) && (f.nPings >= 1 || f.bottom.None?)
    ensures rows <= f.nSamples
    ensures f.bottom.None? ==> rows == f.nSamples
    ensures f.bottom.Some? ==>
      forall p | 0 <= p < f.nPings :: FirstUnder(f.depth[p], f.bottom.value[p]) < rows
    ensures f.bottom.Some? ==>
      exists p | 0 <= p < f.nPings :: FirstUnder(f.depth[p], f.bottom.value[p]) == rows - 1
  {
    if f.bottom.None? then f.nSamples
    else
      var xs := BottomIndexList(f.depth, f.bottom.value, 0, f.nPings);
      var m := MaxInt(xs);
      assert forall p | 0 <= p < f.nPings :: xs[p] == FirstUnder(f.depth[p], f.bottom.value[p]);
      if f.nSamples == 0 then
        assert xs[0] == -1;
        0
      else
        assert xs[0] >= 0;
        m + 1
  }

  /** The global row count, with `idx_bot` filled ping by ping as `detect_esp3` and `detect_matecho` do. */
  method GlobalRowCount(f: Frame) returns (rows: nat)
    requires Valid(f) && (f.nPings >= 1 || f.bottom.None?)
    ensures rows == GlobalRows(f)
  {
    rows := f.nSamples;
    if f.bottom.Some? {
      var idxBot := BottomIndices(f.depth, f.bottom.value, 0, f.nPings);
      var maxIdx := MaxInt(idxBot[..]);
      rows := CropRows(f.nSamples, maxIdx);
    }
  }

  /** The rows of block `s` (`idx_r[idx_r <= max_idx]` over the block's pings), given `globalRows` rows overall. */
  function BlockRows(f: Frame, globalRows: nat, s: Span): (rows: nat)
    requires Valid(f) && s.hi <= f.nPings
    ensures rows <= globalRows
  {
    if f.bottom.Some? && s.lo < s.hi then
      CropRows(globalRows, MaxInt(BottomIndexList(f.depth, f.bottom.value, s.lo, s.hi)))
    else globalRows
  }

  /** The block's row count, with the block's `idx_bot` filled ping by ping. */
  method BlockRowCount(f: Frame, globalRows: nat, s: Span) returns (rows: nat)
    requires Valid(f) && s.hi <= f.nPings
    ensures rows == BlockRows(f, globalRows, s)
  {
    rows := globalRows;
    if f.bottom.Some? && s.lo < s.hi {
      var idxBot := BottomIndices(f.depth, f.bottom.value, s.lo, s.hi);
      var maxIdx := MaxInt(idxBot[..]);
      rows := CropRows(globalRows, maxIdx);
    }
  }

  /**
    A block keeps exactly the rows down to the deepest first-under-bottom sample of its own
    pings: that sample is the block's last row, and no ping of the block reaches past it.
  */
  lemma BlockRowsReachBlockBottom(f: Frame, s: Span) returns (deepest: nat)
    requires Valid(f) && f.nPings >= 1 && s.lo < s.hi <= f.nPings && f.bottom.Some? && f.nSamples >= 1
    ensures forall p | s.lo <= p < s.hi ::
      FirstUnder(f.depth[p], f.bottom.value[p]) < BlockRows(f, GlobalRows(f), s)
    ensures s.lo <= deepest < s.hi
    ensures FirstUnder(f.depth[deepest], f.bottom.value[deepest]) == BlockRows(f, GlobalRows(f), s) - 1
  {
    var xs := BottomIndexList(f.depth, f.bottom.value, s.lo, s.hi);
    var rows := BlockRows(f, GlobalRows(f), s);
    BlockRowsAtBlockMax(f, s);
    assert rows == MaxInt(xs) + 1;
    forall p | s.lo <= p < s.hi
      ensures FirstUnder(f.depth[p], f.bottom.value[p]) < rows
    {
      assert xs[p - s.lo] <= MaxInt(xs);
    }
    var k :| 0 <= k < |xs| && xs[k] == MaxInt(xs);
    deepest := s.lo + k;
    assert xs[k] == FirstUnder(f.depth[deepest], f.bottom.value[deepest]);
  }

  /** With a bottom, a block's row count is one more than the largest entry of its `idx_bot`. */
  lemma BlockRowsAtBlockMax(f: Frame, s: Span)
    requires Valid(f) && f.nPings >= 1 && s.lo < s.hi <= f.nPings && f.bottom.Some? && f.nSamples >= 1
    ensures BlockRows(f, GlobalRows(f), s) == MaxInt(BottomIndexList(f.depth, f.bottom.value, s.lo, s.hi)) + 1
  {
    BlockBottomWithinGlobal(f, s);
  }

  /** The deepest first-under-bottom index of a block is a real row, below the global row count. */
  lemma BlockBottomWithinGlobal(f: Frame, s: Span)
    requires Valid(f) && f.nPings >= 1 && s.lo < s.hi <= f.nPings && f.bottom.Some? && f.nSamples >= 1
    ensures 0 <= MaxInt(BottomIndexList(f.depth, f.bottom.value, s.lo, s.hi)) < GlobalRows(f)
  {
    var xs := BottomIndexList(f.depth, f.bottom.value, s.lo, s.hi);
    var k :| 0 <= k < |xs| && xs[k] == MaxInt(xs);
    var p := s.lo + k;
    assert xs[k] == FirstUnder(f.depth[p], f.bottom.value[p]);
    assert FirstUnder(f.depth[p], f.bottom.value[p]) < GlobalRows(f);
  }

  /**
    When depth increases along every ping, the crop only drops samples the bottom mask
    would have hidden: each dropped sample of a block's ping lies under that ping's bottom.
  */
  lemma CropDropsOnlyUnderBottom(f: Frame, s: Span, p: nat, r: nat)
    requires Valid(f) && f.nPings >= 1 && s.lo <= p < s.hi <= f.nPings && f.bottom.Some?
    requires Deepening(f.depth[p])
    requires BlockRows(f, GlobalRows(f), s) <= r < f.nSamples
    ensures Under(f, p, r)
  {
    var _ := BlockRowsReachBlockBottom(f, s);
    var i := FirstUnder(f.depth[p], f.bottom.value[p]);
    assert i < r < f.nSamples;
    DeeperSamplesAreUnder(f.depth[p], f.bottom.value[p], r);
  }

  /** `mask |= DEP >= bcol` over the block of `span`. */
  method MarkUnderBottom(f: Frame, span: Span, mask: array2<bool>)
    requires Valid(f) && span.lo <= span.hi <= f.nPings
    requires mask.Length0 <= f.nSamples && mask.Length1 == span.hi - span.lo
    modifies mask
    ensures forall r, j | 0 <= r < mask.Length0 && 0 <= j < mask.Length1 ::
              mask[r, j] == (old(mask[r, j]) || Under(f, span.lo + j, r))
  {
    for r := 0 to mask.Length0
      invariant forall r', j | 0 <= r' < mask.Length0 && 0 <= j < mask.Length1 ::
                  mask[r', j] == (old(mask[r', j]) || (r' < r && Under(f, span.lo + j, r')))
    {
      for j := 0 to mask.Length1
        invariant forall r', j' | 0 <= r' < mask.Length0 && 0 <= j' < mask.Length1 ::
                    mask[r', j'] == (old(mask[r', j']) || ((r' < r || (r' == r && j' < j)) && Under(f, span.lo + j', r')))
      {
        mask[r, j] := mask[r, j] || Under(f, span.lo + j, r);
      }
    }
  }
}
