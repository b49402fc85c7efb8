/**
  The ESP3-style detector around the per-ping search: the pings are processed block by
  block; each block keeps the rows down to its own deepest bottom, writes `-999` into every
  cell at or under the bottom, is skipped when no cell is left above `-999`, and is trimmed
  after its last row holding such a cell before each ping's column is searched.

  What the detector computes is stated on the frame itself (`MaskedColumn`, `SignalAt`);
  the methods build the block matrix as the detector does and are tied to that statement
  through `MasksBlock`.
*/
module Esp3Detector {
  import opened Wrappers
  import opened Samples
  import opened Indices
  import opened Params
  import opened Blocks
  import opened Masking
  import opened Detections
  import opened Frames
  import opened Esp3

  // ---------------------------------------------------------------- the masked block

  /** The TS cell of ping `p`, sample `r` once masked: `-999` at or under the bottom of the ping. */
  function MaskedCell(f: Frame, p: nat, r: nat): (x: Db)
    requires Valid(f) && p < f.nPings && r < f.nSamples
    ensures Above(x, Sentinel) ==> !Under(f, p, r) && x == f.sv[p][r]
  {
    if Under(f, p, r) then Val(Sentinel) else f.sv[p][r]
  }

  /** `TS[:n, jp]` for ping `p` once masked: the column the per-ping search receives. */
  function MaskedColumn(f: Frame, p: nat, n: nat): (z: seq<Db>)
    requires Valid(f) && p < f.nPings && n <= f.nSamples
    ensures |z| == n
  {
    if n == 0 then [] else MaskedColumn(f, p, n - 1) + [MaskedCell(f, p, n - 1)]
  }

  /** Sample `r` of the masked column is the masked cell. */
  lemma {:induction false} MaskedColumnCells(f: Frame, p: nat, n: nat)
    requires Valid(f) && p < f.nPings && n <= f.nSamples
    ensures forall r | 0 <= r < n :: MaskedColumn(f, p, n)[r] == MaskedCell(f, p, r)
  {
    if n > 0 {
      MaskedColumnCells(f, p, n - 1);
    }
  }

  /** `(TS > -999).any(axis=1)` at row `r` of the block of `span`. */
  predicate SignalAt(f: Frame, span: Span, r: nat)
    requires Valid(f) && span.lo <= span.hi <= f.nPings && r < f.nSamples
  {
    exists p | span.lo <= p < span.hi :: Above(MaskedCell(f, p, r), Sentinel)
  }

  /** `valid_rows.max()` over the first `rows` rows of the block, -1 when no row holds a cell above `-999`. */
  function BlockLastRow(f: Frame, span: Span, rows: nat): (last: int)
    requires Valid(f) && span.lo <= span.hi <= f.nPings && rows <= f.nSamples
    ensures -1 <= last < rows
  {
    LastWhere(rows, (r: nat) => r < rows && SignalAt(f, span, r))
  }

  /** The block matrix `m` is `TS[sample, ping]` over the pings of `span`, masked. */
  predicate MasksBlock(f: Frame, span: Span, m: seq<seq<Db>>) {
    && Valid(f) && span.lo <= span.hi <= f.nPings && |m| <= f.nSamples
    && (forall r | 0 <= r < |m| :: |m[r]| == span.hi - span.lo)
    && (forall r, j | 0 <= r < |m| && 0 <= j < span.hi - span.lo :: m[r][j] == MaskedCell(f, span.lo + j, r))
  }

  /** `(TS > -999).any(axis=1)` for one row of the block matrix. */
  predicate RowHasSignal(row: seq<Db>) {
    exists j | 0 <= j < |row| :: Above(row[j], Sentinel)
  }

  /**
    `valid_rows.max()` with `valid_rows = np.where((TS > -999).any(axis=1))[0]`, and -1 when
    `valid_rows` is empty, which is exactly when `np.any(TS > -999)` fails.
  */
  function LastSignalRow(m: seq<seq<Db>>): (last: int)
    ensures -1 <= last < |m|
    ensures last >= 0 ==> RowHasSignal(m[last])
    ensures forall r | last < r < |m| :: !RowHasSignal(m[r])
  {
    var p := (r: nat) => r < |m| && RowHasSignal(m[r]);
    var last := LastWhere(|m|, p);
    forall r | last < r < |m|
      ensures !RowHasSignal(m[r])
    {
      assert !p(r);
    }
    last
  }

  // ---------------------------------------------------------------- what the detector computes

  /** The detections of ping `p`, its column trimmed to `n` rows. */
  function ColumnDetections(f: Frame, s: Setup, p: nat, n: nat): seq<Target>
    requires Valid(f) && SetupOk(s) && p < f.nPings && n <= f.nSamples
  {
    ColumnTargets(MaskedColumn(f, p, n), f.depth[p][..n], p, f.times[p], f.nSamples, s)
  }

  /** The search of the ESP3-style detector over the frame `f`. */
  function Esp3Search(f: Frame, s: Setup): Search
    requires Valid(f) && SetupOk(s)
  {
    (p: nat, n: nat) => if p < f.nPings && n <= f.nSamples then ColumnDetections(f, s, p, n) else []
  }

  /** `search` agrees with `ColumnDetections` on every ping and trim of the frame. */
  predicate Searches(f: Frame, s: Setup, search: Search)
    requires Valid(f) && SetupOk(s)
  {
    forall p: nat, n: nat {:trigger ColumnDetections(f, s, p, n)} | p < f.nPings && n <= f.nSamples ::
      search(p, n) == ColumnDetections(f, s, p, n)
  }

  lemma Esp3SearchSearches(f: Frame, s: Setup)
    requires Valid(f) && SetupOk(s)
    ensures Searches(f, s, Esp3Search(f, s))
  {
    forall p: nat, n: nat | p < f.nPings && n <= f.nSamples
      ensures Esp3Search(f, s)(p, n) == ColumnDetections(f, s, p, n)
    {
    }
  }

  /** The detections of one block, given the global row count `g`. */
  function BlockTargets(f: Frame, g: nat, span: Span, search: Search): seq<Target>
    requires Valid(f) && span.lo <= span.hi <= f.nPings && g <= f.nSamples
  {
    BlockColumns(span, BlockLastRow(f, span, BlockRows(f, g, span)), search)
  }

  /** The ping loop of a block trimmed to the rows `0 .. last`: nothing when the block is skipped (`last < 0`). */
  function BlockColumns(span: Span, last: int, search: Search): seq<Target>
    requires span.lo <= span.hi
  {
    if last < 0 then [] else ColumnsTargets(span, last + 1, span.hi - span.lo, search)
  }

  /** The detections of blocks `0 .. u-1` of size `bs`. */
  function BlocksTargets(f: Frame, g: nat, bs: int, u: nat, search: Search): seq<Target>
    requires Valid(f) && g <= f.nSamples
  {
    if u == 0 then []
    else BlocksTargets(f, g, bs, u - 1, search) + BlockTargets(f, g, BlockPings(u - 1, bs, f.nPings), search)
  }

  /** Everything the detector appends, block after block. */
  function FrameTargets(f: Frame, s: Setup): seq<Target>
    requires Valid(f) && f.nPings >= 1 && SetupOk(s)
  {
    var g := GlobalRows(f);
    var bs := BlockSize(s.blockLen, g, f.nPings);
    BlocksTargets(f, g, bs, Esp3BlockCount(bs, f.nPings), Esp3Search(f, s))
  }

  // ---------------------------------------------------------------- what a detection means

  /**
    A record of the frame: a real ping and sample above the bottom, tagged with the ping's
    time and the linear index `ping * nb_samples_tot + sample`, whose Sv is above the TS
    threshold. On the ping's masked column trimmed to some row count, the sample is a
    candidate peak, its envelope is the one `EnvelopeOk` describes and the record passes
    every gate `GateOk` lists.
  */
  predicate Detected(f: Frame, s: Setup, t: Target)
    requires Valid(f) && SetupOk(s)
  {
    && 0 <= t.ping < f.nPings && Indexed(t, f.nSamples)
    && t.time == f.times[t.ping]
    && !Under(f, t.ping, t.idxR)
    && Above(f.sv[t.ping][t.idxR], s.tsThr)
    && exists n | t.idxR < n <= f.nSamples ::
         && IsCandidate(MaskedColumn(f, t.ping, n), t.idxR)
         && GateOk(MaskedColumn(f, t.ping, n), f.depth[t.ping][..n], t.idxR, t.ping, t.time, f.nSamples, s, t)
         && EnvelopeOk(MaskedColumn(f, t.ping, n), t.idxR, s, t)
  }

  /** `Detected` as a check on one record. */
  function DetectedBy(f: Frame, s: Setup): Target -> bool
    requires Valid(f) && SetupOk(s)
  {
    t => Detected(f, s, t)
  }

  /** The detections of one ping are detections of that ping, in sample order and at least `Np` apart. */
  lemma ColumnSound(f: Frame, s: Setup, p: nat, n: nat)
    requires Valid(f) && SetupOk(s) && p < f.nPings && n <= f.nSamples
    ensures RecordsOf(ColumnDetections(f, s, p, n), p, p + 1, DetectedBy(f, s), s.np)
  {
    var z := MaskedColumn(f, p, n);
    MaskedColumnCells(f, p, n);
    var d := f.depth[p][..n];
    ColumnTargetsGated(z, d, p, f.times[p], f.nSamples, s);
    ColumnTargetsTagged(z, d, p, f.times[p], f.nSamples, s);
    ColumnTargetsSpaced(z, d, p, f.times[p], f.nSamples, s);
    var ts := ColumnTargets(z, d, p, f.times[p], f.nSamples, s);
    forall i | 0 <= i < |ts|
      ensures DetectedBy(f, s)(ts[i]) && p <= ts[i].ping < p + 1
    {
      var t := ts[i];
      var k: nat := t.idxR;
      assert z[k] == MaskedCell(f, p, k);
      PeakGateSound(z, d, k, p, f.times[p], f.nSamples, s);
      PeakEnvelopeSound(z, d, k, p, f.times[p], f.nSamples, s);
      assert IsCandidate(z, k) && GateOk(z, d, k, p, t.time, f.nSamples, s, t) && EnvelopeOk(z, k, s, t);
      assert Detected(f, s, t);
    }
  }

  lemma Esp3SearchSound(f: Frame, s: Setup)
    requires Valid(f) && SetupOk(s)
    ensures SoundSearch(f.nPings, f.nSamples, Esp3Search(f, s), DetectedBy(f, s), s.np)
  {
    forall p: nat, n: nat | p < f.nPings && n <= f.nSamples
      ensures RecordsOf(Esp3Search(f, s)(p, n), p, p + 1, DetectedBy(f, s), s.np)
    {
      ColumnSound(f, s, p, n);
    }
  }

  /** The detections of a block are detections of the block's pings, in scan order and spaced. */
  lemma BlockSound(f: Frame, s: Setup, span: Span, last: int, search: Search)
    requires Valid(f) && SetupOk(s) && span.lo <= span.hi <= f.nPings && last < f.nSamples
    requires SoundSearch(f.nPings, f.nSamples, search, DetectedBy(f, s), s.np)
    ensures RecordsOf(BlockColumns(span, last, search), span.lo, span.hi, DetectedBy(f, s), s.np)
  {
    if 0 <= last {
      ColumnsSound(f.nPings, f.nSamples, span, last + 1, span.hi - span.lo, search, DetectedBy(f, s), s.np);
    }
  }

  /** With a positive block size, the detections of the first `u` blocks are detections of pings before `u * bs`. */
  lemma {:induction false} BlocksSound(f: Frame, s: Setup, g: nat, bs: int, u: nat, search: Search)
    requires Valid(f) && SetupOk(s) && g <= f.nSamples && bs >= 1
    requires SoundSearch(f.nPings, f.nSamples, search, DetectedBy(f, s), s.np)
    ensures RecordsOf(BlocksTargets(f, g, bs, u, search), 0, u * bs, DetectedBy(f, s), s.np)
  {
    if u > 0 {
      var v := u - 1;
      BlocksSound(f, s, g, bs, v, search);
      var span := BlockPings(v, bs, f.nPings);
      BlockSound(f, s, span, BlockLastRow(f, span, BlockRows(f, g, span)), search);
      RegularBlock(v, bs, f.nPings);
      MulMono(0, v, bs);
      MulMono(v, v + 1, bs);
      var b := BlockTargets(f, g, span, search);
      RecordsWiden(b, span.lo, span.hi, v * bs, (v + 1) * bs, DetectedBy(f, s), s.np);
      RecordsConcat(BlocksTargets(f, g, bs, v, search), b, 0, v * bs, (v + 1) * bs, DetectedBy(f, s), s.np);
    }
  }

  /**
    A detection's envelope never reaches a masked cell: every envelope sample is within `PLDL`
    (at most 30 dB) of a peak above `TS_threshold` (at least -120 dB), so it is above the
    -999 fill value, which a masked cell holds. The envelope is thus the unmasked Sv, within
    `PLDL` of the peak's Sv.
  */
  lemma EnvelopeAvoidsMask(f: Frame, s: Setup, t: Target)
    requires Valid(f) && SetupOk(s) && Detected(f, s, t)
    ensures forall r | t.idxR - t.before <= r <= t.idxR + t.after ::
      0 <= r < f.nSamples && !Under(f, t.ping, r) && AtLeast(f.sv[t.ping][r], f.sv[t.ping][t.idxR].v - s.pldl)
  {
    var n :| t.idxR < n <= f.nSamples
      && IsCandidate(MaskedColumn(f, t.ping, n), t.idxR)
      && GateOk(MaskedColumn(f, t.ping, n), f.depth[t.ping][..n], t.idxR, t.ping, t.time, f.nSamples, s, t)
      && EnvelopeOk(MaskedColumn(f, t.ping, n), t.idxR, s, t);
    var z := MaskedColumn(f, t.ping, n);
    MaskedColumnCells(f, t.ping, n);
    forall r | t.idxR - t.before <= r <= t.idxR + t.after
      ensures 0 <= r < f.nSamples && !Under(f, t.ping, r) && AtLeast(f.sv[t.ping][r], f.sv[t.ping][t.idxR].v - s.pldl)
    {
      assert AtLeast(z[r], z[t.idxR].v - s.pldl);
      assert z[r] == MaskedCell(f, t.ping, r);
    }
  }

  /** No envelope of the frame's detections reaches a cell at or under the bottom. */
  lemma FrameEnvelopesAvoidMask(f: Frame, s: Setup)
    requires Valid(f) && f.nPings >= 1 && SetupOk(s)
    ensures var ts := FrameTargets(f, s);
      forall i, r | 0 <= i < |ts| && ts[i].idxR - ts[i].before <= r <= ts[i].idxR + ts[i].after ::
        0 <= ts[i].ping < f.nPings && 0 <= r < f.nSamples && !Under(f, ts[i].ping, r)
  {
    var ts := FrameTargets(f, s);
    FrameSound(f, s);
    forall i | 0 <= i < |ts|
      ensures forall r | ts[i].idxR - ts[i].before <= r <= ts[i].idxR + ts[i].after ::
        0 <= ts[i].ping < f.nPings && 0 <= r < f.nSamples && !Under(f, ts[i].ping, r)
    {
      EnvelopeAvoidsMask(f, s, ts[i]);
    }
  }

  /**
    Everything the detector records is a detection of the frame, the records come ping by
    ping and from the transducer outwards, records of one ping lie at least `Np` samples
    apart, and so `idx_target_lin` strictly increases.
  */
  lemma FrameSound(f: Frame, s: Setup)
    requires Valid(f) && f.nPings >= 1 && SetupOk(s)
    ensures var ts := FrameTargets(f, s);
      && (forall i | 0 <= i < |ts| :: Detected(f, s, ts[i]))
      && InScanOrder(ts)
      && Spaced(ts, s.np)
      && (forall i, j | 0 <= i < j < |ts| :: ts[i].idxLin < ts[j].idxLin)
  {
    var g := GlobalRows(f);
    var bs := BlockSize(s.blockLen, g, f.nPings);
    var ts := FrameTargets(f, s);
    if bs >= 1 {
      Esp3SearchSound(f, s);
      BlocksSound(f, s, g, bs, Esp3BlockCount(bs, f.nPings), Esp3Search(f, s));
      forall i | 0 <= i < |ts|
        ensures Detected(f, s, ts[i])
      {
        assert DetectedBy(f, s)(ts[i]);
      }
    }
    OrderedScan(ts, s.np);
    ScanOrderSortsLinearIndex(ts, f.nSamples);
  }

  // ---------------------------------------------------------------- the detector

  /**
    The detector: parameters are merged and validated first (an invalid set is refused
    before any data is read); then every block of pings is searched and the count is set
    to the number of records.
  */
  method DetectEsp3(f: Frame, params: Option<Dict>, rounded: int, tvg: real -> real) returns (r: Result<StStruct, ConfigError>)
    requires Valid(f) && f.nPings >= 1
    ensures r.Failure? <==> ParseEsp3(params).Failure?
    ensures r.Failure? ==> r.error == ParseEsp3(params).error
    ensures r.Success? ==>
      && fresh(r.value) && r.value.Valid()
      && r.value.Targets() == FrameTargets(f, SetupOf(ParseEsp3(params).value, rounded, tvg))
      && r.value.nbValidTargets == |r.value.Targets()|
      && r.value.Aside() == [[], [], [], [], [], [], []]
  {
    var c :- ParseEsp3(params);
    var s := SetupOf(c, rounded, tvg);
    ghost var search := Esp3Search(f, s);
    Esp3SearchSearches(f, s);
    var out := new StStruct();
    var g := GlobalRowCount(f);
    var bs := BlockSize(s.blockLen, g, f.nPings);
    var num := Esp3BlockCount(bs, f.nPings);
    for ui := 0 to num
      invariant out.Valid() && out.Targets() == BlocksTargets(f, g, bs, ui, search)
      invariant out.Aside() == [[], [], [], [], [], [], []]
    {
      DetectBlock(f, s, g, BlockPings(ui, bs, f.nPings), search, out);
    }
    out.Finalize();
    return Success(out);
  }

  /** One pass of `detect_esp3`'s block loop, for the pings of `span`. */
  method DetectBlock(f: Frame, s: Setup, g: nat, span: Span, ghost search: Search, out: StStruct)
    requires Valid(f) && SetupOk(s) && span.lo <= span.hi <= f.nPings && g <= f.nSamples && out.Valid()
    requires Searches(f, s, search)
    modifies out
    ensures out.Valid() && out.Targets() == old(out.Targets()) + BlockTargets(f, g, span, search)
    ensures out.Aside() == old(out.Aside()) && out.nbValidTargets == old(out.nbValidTargets)
  {
    var m, last := ScanBlock(f, g, span);
    if last < 0 {
      return;
    }
    DetectColumns(f, s, span, m, last + 1, search, out);
  }

  /**
    The block loop of `detect_esp3` up to the per-ping search: the rows kept for the block, its masked `TS` matrix
    and the last row holding a cell above `-999` (-1 when the block is skipped).
  */
  method ScanBlock(f: Frame, g: nat, span: Span) returns (m: seq<seq<Db>>, last: int)
    requires Valid(f) && span.lo <= span.hi <= f.nPings && g <= f.nSamples
    ensures |m| == BlockRows(f, g, span) && MasksBlock(f, span, m)
    ensures last == BlockLastRow(f, span, |m|) && last < |m|
  {
    var rows := BlockRowCount(f, g, span);
    m := MaskBlock(f, span, rows);
    last := LastSignalRow(m);
    SignalRowsAgree(f, span, m);
  }

  /** The masking of `detect_esp3`'s block loop: the block `TS` matrix, with `-999` written where the mask is set. */
  method MaskBlock(f: Frame, span: Span, rows: nat) returns (m: seq<seq<Db>>)
    requires Valid(f) && span.lo <= span.hi <= f.nPings && rows <= f.nSamples
    ensures |m| == rows && MasksBlock(f, span, m)
  {
    var nb := span.hi - span.lo;
    var ts := new Db[rows, nb]((r: nat, j: nat) requires r < rows && j < nb => f.sv[span.lo + j][r]);
    var mask := new bool[rows, nb]((r: nat, j: nat) => false);
    if f.bottom.Some? && nb > 0 {
      MarkUnderBottom(f, span, mask);
    }
    assert forall r, j | 0 <= r < rows && 0 <= j < nb :: mask[r, j] == Under(f, span.lo + j, r);
    Fill(ts, mask, Val(Sentinel));
    assert forall r, j | 0 <= r < rows && 0 <= j < nb :: ts[r, j] == MaskedCell(f, span.lo + j, r);
    m := Snapshot(ts);
  }

  /** `for jp in range(nb_pings)` over the block matrix trimmed to `n` rows. */
  method DetectColumns(f: Frame, s: Setup, span: Span, m: seq<seq<Db>>, n: nat, ghost search: Search, out: StStruct)
    requires MasksBlock(f, span, m) && SetupOk(s) && n <= |m| && out.Valid()
    requires Searches(f, s, search)
    modifies out
    ensures out.Valid() && out.Targets() == old(out.Targets()) + ColumnsTargets(span, n, span.hi - span.lo, search)
    ensures out.Aside() == old(out.Aside()) && out.nbValidTargets == old(out.nbValidTargets)
  {
    for j := 0 to span.hi - span.lo
      invariant out.Valid() && out.Targets() == old(out.Targets()) + ColumnsTargets(span, n, j, search)
      invariant out.Aside() == old(out.Aside()) && out.nbValidTargets == old(out.nbValidTargets)
    {
      DetectColumn(f, s, span, m, n, j, search, old(out.Targets()), out);
    }
  }

  /**
    The body of `for jp in range(nb_pings)`: `z = TS[:, jp]`, `d = DEP[:, jp]` and the search,
    taking the detections of the first `j` pings to those of the first `j + 1`.
  */
  method DetectColumn(f: Frame, s: Setup, span: Span, m: seq<seq<Db>>, n: nat, j: nat, ghost search: Search,
                      ghost base: seq<Target>, out: StStruct)
    requires MasksBlock(f, span, m) && SetupOk(s) && n <= |m| && j < span.hi - span.lo && out.Valid()
    requires Searches(f, s, search)
    requires out.Targets() == base + ColumnsTargets(span, n, j, search)
    modifies out
    ensures out.Valid() && out.Targets() == base + ColumnsTargets(span, n, j + 1, search)
    ensures out.Aside() == old(out.Aside()) && out.nbValidTargets == old(out.nbValidTargets)
  {
    var p := span.lo + j;
    ColumnOfMasked(f, span, m, n, j);
    DetectPing(f, s, p, n, ColumnOf(m, j, n), search, out);
    Regroup(base, ColumnsTargets(span, n, j, search), search(p, n), old(out.Targets()), out.Targets());
  }

  /** The search over the masked column `z` of ping `p`, trimmed to `n` rows. */
  method DetectPing(f: Frame, s: Setup, p: nat, n: nat, z: seq<Db>, ghost search: Search, out: StStruct)
    requires Valid(f) && SetupOk(s) && p < f.nPings && n <= f.nSamples && out.Valid()
    requires Searches(f, s, search) && z == MaskedColumn(f, p, n)
    modifies out
    ensures out.Valid() && out.Targets() == old(out.Targets()) + search(p, n)
    ensures out.Aside() == old(out.Aside()) && out.nbValidTargets == old(out.nbValidTargets)
  {
    DetectInColumn(z, f.depth[p][..n], p, f.times[p], f.nSamples, s, out);
    assert search(p, n) == ColumnDetections(f, s, p, n);
  }

  /** A column of the block matrix is the masked column of its ping. */
  lemma ColumnOfMasked(f: Frame, span: Span, m: seq<seq<Db>>, n: nat, j: nat)
    requires MasksBlock(f, span, m) && n <= |m| && j < span.hi - span.lo
    ensures ColumnOf(m, j, n) == MaskedColumn(f, span.lo + j, n)
  {
    ColumnOfCells(m, j, n);
    MaskedColumnCells(f, span.lo + j, n);
  }

  /** The last row of the block matrix holding a cell above `-999` is the block's last signal row. */
  lemma SignalRowsAgree(f: Frame, span: Span, m: seq<seq<Db>>)
    requires MasksBlock(f, span, m)
    ensures LastSignalRow(m) == BlockLastRow(f, span, |m|)
  {
    forall r: nat | r < |m|
      ensures RowHasSignal(m[r]) == SignalAt(f, span, r)
    {
      if RowHasSignal(m[r]) {
        var j :| 0 <= j < |m[r]| && Above(m[r][j], Sentinel);
        assert Above(MaskedCell(f, span.lo + j, r), Sentinel);
      }
      if SignalAt(f, span, r) {
        var p :| span.lo <= p < span.hi && Above(MaskedCell(f, p, r), Sentinel);
        assert Above(m[r][p - span.lo], Sentinel);
      }
    }
    LastWhereAgree(|m|, (r: nat) => r < |m| && RowHasSignal(m[r]), (r: nat) => r < |m| && SignalAt(f, span, r));
  }


}
