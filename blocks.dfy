/**
  Memory-bounded partition of the ping axis. Both detectors compute
  `block_size = min(ceil(block_len / cells_per_ping), n)` and then, for `ui` in
  `range(num_ite)`, select the pings `idx_pings_tot[ui * block_size : min((ui + 1) * block_size, n)]`.
  The selection is a Python slice, so its bounds are normalised as Python does.
*/
module Blocks {
  import opened Params
  import opened Detections

  /** A half-open range of ping indices `[lo, hi)`. */
  datatype Span = Span(lo: nat, hi: nat)

  predicate InSpan(p: int, s: Span) {
    s.lo <= p < s.hi
  }

  /** `block_size`, from the memory budget and the number of rows kept per ping. */
  function BlockSize(blockLen: real, rows: int, nPings: nat): (bs: int)
    ensures bs <= nPings
    ensures blockLen > 0.0 && nPings >= 1 ==> 1 <= bs
    ensures bs < nPings ==> bs as real - 1.0 < blockLen / (if rows > 1 then rows else 1) as real <= bs as real
  {
    var cellsPerPing := if rows > 1 then rows else 1;
    var b := Ceil(blockLen / cellsPerPing as real);
    if b < nPings then b else nPings
  }

  /** `math.ceil(a / b)` for a positive divisor. */
  function CeilDiv(a: nat, b: int): (q: nat)
    requires b >= 1
    ensures (q - 1) * b < a <= q * b
  {
    var q := (a + b - 1) / b;
    assert q * b <= a + b - 1 < (q + 1) * b;
    q
  }

  /** `num_ite` of the ESP3-style detector: `ceil(n / block_size) if block_size > 0 else 0`. */
  function Esp3BlockCount(bs: int, nPings: nat): (u: nat)
    ensures bs <= 0 ==> u == 0
    ensures bs >= 1 ==> (u - 1) * bs < nPings <= u * bs
  {
    if bs > 0 then CeilDiv(nPings, bs) else 0
  }

  /** `num_ite` of the Matecho-style detector: `ceil(n / max(block_size, 1))`. */
  function MatechoBlockCount(bs: int, nPings: nat): (u: nat)
    ensures bs <= 1 ==> u == nPings
    ensures bs >= 1 ==> (u - 1) * bs < nPings <= u * bs
  {
    CeilDiv(nPings, if bs > 1 then bs else 1)
  }

  /** How a Python slice bound `i` is normalised against a length `n`. */
  function SliceIndex(i: int, n: nat): (j: nat)
    ensures j <= n
    ensures 0 <= i <= n ==> j == i
  {
    if i < 0 then (if i + n < 0 then 0 else i + n)
    else if i > n then n
    else i
  }

  /** The pings of block `ui`: `idx_pings_tot[ui * bs : min((ui + 1) * bs, n)]`. */
  function BlockPings(ui: nat, bs: int, nPings: nat): (s: Span)
    ensures s.lo <= s.hi <= nPings
  {
    var start := ui * bs;
    var stop := if (ui + 1) * bs < nPings then (ui + 1) * bs else nPings;
    var lo := SliceIndex(start, nPings);
    var hi := SliceIndex(stop, nPings);
    Span(lo, if hi < lo then lo else hi)
  }

  lemma MulMono(a: int, b: int, c: int)
    requires a <= b && c >= 0
    ensures a * c <= b * c
  {
  }

  /** With a positive block size the slice bounds need no normalisation. */
  lemma {:induction false} RegularBlock(ui: nat, bs: int, nPings: nat)
    requires bs >= 1
    ensures BlockPings(ui, bs, nPings).lo == if ui * bs < nPings then ui * bs else nPings
    ensures BlockPings(ui, bs, nPings).hi == if (ui + 1) * bs < nPings then (ui + 1) * bs else nPings
  {
    MulMono(0, ui, bs);
    MulMono(ui, ui + 1, bs);
  }

  /**
    With a positive block size and at least one ping, the `num_ite` blocks are non-empty,
    start at ping 0, follow each other without gap or overlap, end at ping n, and all but the
    last hold exactly `bs` pings.
  */
  lemma {:induction false} BlocksPartitionPings(bs: int, nPings: nat)
    requires bs >= 1 && nPings >= 1
    ensures CeilDiv(nPings, bs) >= 1
    ensures BlockPings(0, bs, nPings).lo == 0
    ensures BlockPings(CeilDiv(nPings, bs) - 1, bs, nPings).hi == nPings
    ensures forall ui: nat | ui < CeilDiv(nPings, bs) ::
              BlockPings(ui, bs, nPings).lo < BlockPings(ui, bs, nPings).hi
    ensures forall ui: nat | ui < CeilDiv(nPings, bs) ::
              BlockPings(ui, bs, nPings).hi - BlockPings(ui, bs, nPings).lo <= bs
    ensures forall ui: nat | ui + 1 < CeilDiv(nPings, bs) ::
              BlockPings(ui, bs, nPings).hi == BlockPings(ui + 1, bs, nPings).lo
    ensures forall ui: nat | ui + 1 < CeilDiv(nPings, bs) ::
              BlockPings(ui, bs, nPings).hi - BlockPings(ui, bs, nPings).lo == bs
  {
    var num := CeilDiv(nPings, bs);
    RegularBlock(0, bs, nPings);
    RegularBlock(num - 1, bs, nPings);
    forall ui: nat | ui < num
      ensures BlockPings(ui, bs, nPings).lo < BlockPings(ui, bs, nPings).hi
      ensures BlockPings(ui, bs, nPings).hi - BlockPings(ui, bs, nPings).lo <= bs
    {
      RegularBlock(ui, bs, nPings);
      MulMono(ui, num - 1, bs);
    }
    forall ui: nat | ui + 1 < num
      ensures BlockPings(ui, bs, nPings).hi == BlockPings(ui + 1, bs, nPings).lo
      ensures BlockPings(ui, bs, nPings).hi - BlockPings(ui, bs, nPings).lo == bs
    {
      RegularBlock(ui, bs, nPings);
      RegularBlock(ui + 1, bs, nPings);
      MulMono(ui + 1, num - 1, bs);
    }
  }

  /** `p / bs` is the block whose interval `[q * bs, (q + 1) * bs)` holds `p`. */
  lemma DivBounds(p: nat, bs: int)
    requires bs >= 1
    ensures (p / bs) * bs <= p < (p / bs) * bs + bs
    ensures (p / bs + 1) * bs == (p / bs) * bs + bs
  {
    assert p == (p / bs) * bs + p % bs;
  }

  /** The block of a ping is one of the `num_ite` blocks. */
  lemma {:induction false} BlockOfPingExists(bs: int, nPings: nat, p: nat)
    requires bs >= 1 && p < nPings
    ensures p / bs < CeilDiv(nPings, bs)
  {
    var num, q := CeilDiv(nPings, bs), p / bs;
    DivBounds(p, bs);
    if q >= num {
      MulMono(num, q, bs);
      assert false;
    }
  }

  /** With a positive block size, ping `p` lies in block `ui` exactly when `ui == p / bs`: every ping in exactly one block. */
  lemma {:induction false} PingInOneBlock(bs: int, nPings: nat, p: nat, ui: nat)
    requires bs >= 1 && p < nPings
    ensures p / bs < CeilDiv(nPings, bs)
    ensures InSpan(p, BlockPings(ui, bs, nPings)) <==> ui == p / bs
  {
    BlockOfPingExists(bs, nPings, p);
    var q := p / bs;
    DivBounds(p, bs);
    RegularBlock(ui, bs, nPings);
    if ui < q {
      MulMono(ui + 1, q, bs);
    } else if ui > q {
      MulMono(q + 1, ui, bs);
    }
  }

  /** Whatever the block size, a ping of an earlier block precedes every ping of a later one. */
  lemma {:induction false} BlocksInOrder(bs: int, nPings: nat, ui: nat, uj: nat, p: nat, q: nat)
    requires ui < uj
    requires InSpan(p, BlockPings(ui, bs, nPings)) && InSpan(q, BlockPings(uj, bs, nPings))
    ensures p < q
  {
    if bs >= 1 {
      RegularBlock(ui, bs, nPings);
      RegularBlock(uj, bs, nPings);
      MulMono(ui + 1, uj, bs);
    } else {
      LaterBlocksEmpty(uj, bs, nPings);
    }
  }

  /**
    A non-positive block size, which the Matecho-style detector does not rule out, leaves
    the last ping outside every block.
  */
  lemma {:induction false} NonPositiveBlockSizeSkipsLastPing(bs: int, nPings: nat, ui: nat)
    requires bs <= 0 && nPings >= 1
    ensures !InSpan(nPings - 1, BlockPings(ui, bs, nPings))
  {
    MulMono(ui, ui + 1, -bs);
    assert (ui + 1) * bs <= ui * bs;
  }

  /** Among negative slice bounds, a later one never normalises to an earlier position. */
  lemma SliceIndexMono(i: int, j: int, n: nat)
    requires i <= j < 0
    ensures SliceIndex(i, n) <= SliceIndex(j, n)
  {
  }

  /**
    With a block size of zero or less, every block after the first is empty: its stop
    `(ui + 1) * block_size` comes no later than its start `ui * block_size`.
  */
  lemma {:induction false} LaterBlocksEmpty(ui: nat, bs: int, nPings: nat)
    requires bs <= 0 && ui >= 1
    ensures BlockPings(ui, bs, nPings).lo == BlockPings(ui, bs, nPings).hi
  {
    MulMono(ui, ui + 1, -bs);
    if bs < 0 {
      MulMono(1, ui, -bs);
      SliceIndexMono((ui + 1) * bs, ui * bs, nPings);
    }
  }

  // ---------------------------------------------------------------- the ping loop of a block

  /**
    A per-ping search: the detections of ping `p` when its masked column is trimmed to its
    first `n` rows. The block loops of both detectors are written for any search.
  */
  type Search = (nat, nat) -> seq<Target>

  /** `for jp in range(nb_pings)` over the first `j` pings of the block, trimmed to `n` rows. */
  function ColumnsTargets(span: Span, n: nat, j: nat, search: Search): seq<Target>
    requires span.lo <= span.hi && j <= span.hi - span.lo
  {
    if j == 0 then []
    else ColumnsTargets(span, n, j - 1, search) + search(span.lo + j - 1, n)
  }

  /** Every search result is a run of records of its own ping that pass `ok`. */
  predicate SoundSearch(nPings: nat, nSamples: nat, search: Search, ok: Target -> bool, minSpace: int) {
    forall p: nat, n: nat | p < nPings && n <= nSamples :: RecordsOf(search(p, n), p, p + 1, ok, minSpace)
  }

  /** The detections of the first `j` pings of a block are records of those pings. */
  lemma {:induction false} ColumnsSound(nPings: nat, nSamples: nat, span: Span, n: nat, j: nat, search: Search, ok: Target -> bool, minSpace: int)
    requires span.lo <= span.hi <= nPings && n <= nSamples && j <= span.hi - span.lo
    requires SoundSearch(nPings, nSamples, search, ok, minSpace)
    ensures RecordsOf(ColumnsTargets(span, n, j, search), span.lo, span.lo + j, ok, minSpace)
  {
    if j > 0 {
      ColumnsSound(nPings, nSamples, span, n, j - 1, search, ok, minSpace);
      RecordsConcat(ColumnsTargets(span, n, j - 1, search), search(span.lo + j - 1, n),
                    span.lo, span.lo + j - 1, span.lo + j, ok, minSpace);
    }
  }

  /** Appending `b` after `base + a` gives `base` followed by `a + b`. */
  lemma Regroup<T>(base: seq<T>, a: seq<T>, b: seq<T>, before: seq<T>, after: seq<T>)
    requires before == base + a && after == before + b
    ensures after == base + (a + b)
  {
  }
}
