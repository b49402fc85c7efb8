/**
  The Matecho-style detector around the per-ping search: the pings are processed block by
  block; each block keeps the rows down to its own deepest bottom, builds the matrices
  `tsu = Sv + gain`, `Plike = tsu + gain` and `ts = tsu + compensation`, sets them to NaN at
  and under the bottom, and hands each ping's columns, with its range from the transducer
  face, to the per-ping search.

  The per-row gains (`20 log10(r) + sv2ts` and `-40 log10(r) - 2 alpha r`), the angle
  matrices, the platform attitude per ping and the transducer depth are inputs (`Scene`);
  the beam compensation polynomial and the range are computed as `detect_matecho` computes them.
*/
module MatechoDetector {
  import opened Wrappers
  import opened Samples
  import opened Params
  import opened Blocks
  import opened Masking
  import opened Detections
  import opened Frames
  import opened Matecho

  // ---------------------------------------------------------------- inputs

  /**
    What the detector reads besides Sv, depth, the bottom and the ping times: the TS gain
    and the `Plike` gain per sample, the along- and athwart-ship angles when the dataset has
    them, the attitude per ping and the transducer depth `TD`.
  */
  datatype Scene = Scene(
    tsuGain: seq<Db>,
    plikeGain: seq<Db>,
    along: Option<seq<seq<Db>>>,
    athwart: Option<seq<seq<Db>>>,
    nav: seq<Attitude>,
    td: real)

  /** `m` is a `rows x cols` matrix. */
  predicate Matrix(m: seq<seq<Db>>, rows: nat, cols: nat) {
    |m| == rows && forall p | 0 <= p < rows :: |m[p]| == cols
  }

  /** Every input of the scene matches the frame: one gain per sample, one attitude per ping, angles per cell. */
  predicate SceneOk(f: Frame, sc: Scene) {
    && |sc.tsuGain| == f.nSamples && |sc.plikeGain| == f.nSamples && |sc.nav| == f.nPings
    && (sc.along.Some? ==> Matrix(sc.along.value, f.nPings, f.nSamples))
    && (sc.athwart.Some? ==> Matrix(sc.athwart.value, f.nPings, f.nSamples))
  }

  // ---------------------------------------------------------------- the cells

  /**
    The one-way beam compensation `6.0206 (x^2 + y^2 - 0.18 x^2 y^2)` with
    `x = 2 (along - steer_along) / bw_along` and `y` likewise athwart ship. It is NaN where
    an angle is NaN, and also where a beam width is zero: the division then leaves only
    infinities and NaN, and the polynomial of those is NaN.
  */
  function OneWayComp(b: Beam, along: Db, athwart: Db): (d: Db)
    ensures d.Val? <==> along.Val? && athwart.Val? && b.bwAlong != 0.0 && b.bwAthwart != 0.0
    ensures d.Val? && along.v == b.steerAlong && athwart.v == b.steerAthwart ==> d.v == 0.0
  {
    if along.Val? && athwart.Val? && b.bwAlong != 0.0 && b.bwAthwart != 0.0 then
      var x := 2.0 * ((along.v - b.steerAlong) / b.bwAlong);
      var y := 2.0 * ((athwart.v - b.steerAthwart) / b.bwAthwart);
      Val(6.0206 * (x * x + y * y - 0.18 * (x * x) * (y * y)))
    else NaN
  }

  /** `R.clip(min=0.0)` for one cell: NaN stays NaN. */
  function Clip(x: Db): (y: Db)
    ensures y.Val? <==> x.Val?
    ensures y.Val? ==> 0.0 <= y.v && (x.v >= 0.0 ==> y.v == x.v) && (x.v < 0.0 ==> y.v == 0.0)
  {
    if x.Val? && x.v < 0.0 then Val(0.0) else x
  }

  /** The compensation at ping `p`, sample `r`: zero unless the dataset has both angle matrices. */
  function Comp(f: Frame, sc: Scene, b: Beam, p: nat, r: nat): (d: Db)
    requires Valid(f) && SceneOk(f, sc) && p < f.nPings && r < f.nSamples
    ensures sc.along.None? || sc.athwart.None? ==> d == Val(0.0)
  {
    if sc.along.Some? && sc.athwart.Some? then OneWayComp(b, sc.along.value[p][r], sc.athwart.value[p][r])
    else Val(0.0)
  }

  /** The matrices of a block: `ts`, `tsu`, `Plike` and the range `R`. */
  datatype Layer = TsLayer | TsuLayer | PlikeLayer | RangeLayer

  /**
    A cell before masking: `tsu = Sv + gain`, `Plike = tsu + gain`, `ts = tsu + comp`, and
    the range `R = clip(depth - (TD + heave), 0)` from the transducer face.
  */
  function Raw(f: Frame, sc: Scene, b: Beam, layer: Layer, p: nat, r: nat): (x: Db)
    requires Valid(f) && SceneOk(f, sc) && p < f.nPings && r < f.nSamples
    ensures layer != RangeLayer && x.Val? ==> f.sv[p][r].Val? && sc.tsuGain[r].Val?
    ensures layer == TsLayer && (sc.along.None? || sc.athwart.None?) ==> x == Plus(f.sv[p][r], sc.tsuGain[r])
    ensures layer == RangeLayer ==> (x.Val? <==> f.depth[p][r].Val? && sc.nav[p].heave.Val?)
    ensures layer == RangeLayer && x.Val? ==>
      0.0 <= x.v && f.depth[p][r].v - (sc.td + sc.nav[p].heave.v) <= x.v
      && (f.depth[p][r].v - (sc.td + sc.nav[p].heave.v) >= 0.0 ==> x.v == f.depth[p][r].v - (sc.td + sc.nav[p].heave.v))
  {
    match layer
    case TsuLayer => Plus(f.sv[p][r], sc.tsuGain[r])
    case PlikeLayer => Plus(Plus(f.sv[p][r], sc.tsuGain[r]), sc.plikeGain[r])
    case TsLayer => Plus(Plus(f.sv[p][r], sc.tsuGain[r]), Comp(f, sc, b, p, r))
    case RangeLayer => Clip(Minus(f.depth[p][r], Plus(Val(sc.td), sc.nav[p].heave)))
  }

  /** A cell as the per-ping search sees it: `ts`, `tsu` and `Plike` are NaN at and under the bottom; `R` is not masked. */
  function Cell(f: Frame, sc: Scene, b: Beam, layer: Layer, p: nat, r: nat): (x: Db)
    requires Valid(f) && SceneOk(f, sc) && p < f.nPings && r < f.nSamples
    ensures layer != RangeLayer && Under(f, p, r) ==> x == NaN
    ensures layer == RangeLayer || !Under(f, p, r) ==> x == Raw(f, sc, b, layer, p, r)
  {
    if layer != RangeLayer && Under(f, p, r) then NaN else Raw(f, sc, b, layer, p, r)
  }

  /** A finite compensated TS needs a finite uncompensated TS, and without angles the two agree. */
  lemma TsOverTsu(f: Frame, sc: Scene, b: Beam, p: nat, r: nat)
    requires Valid(f) && SceneOk(f, sc) && p < f.nPings && r < f.nSamples
    ensures Cell(f, sc, b, TsLayer, p, r).Val? ==> Cell(f, sc, b, TsuLayer, p, r).Val?
    ensures sc.along.None? || sc.athwart.None? ==> Cell(f, sc, b, TsLayer, p, r) == Cell(f, sc, b, TsuLayer, p, r)
  {
  }

  /** The first `n` cells of a layer for ping `p`: `layer[:, j]` of a block of `n` rows. */
  function Column(f: Frame, sc: Scene, b: Beam, layer: Layer, p: nat, n: nat): (z: seq<Db>)
    requires Valid(f) && SceneOk(f, sc) && p < f.nPings && n <= f.nSamples
    ensures |z| == n && forall r | 0 <= r < n :: z[r] == Cell(f, sc, b, layer, p, r)
  {
    seq(n, r requires 0 <= r < n => Cell(f, sc, b, layer, p, r))
  }

  /** The columns the per-ping search receives for ping `p` in a block of `n` rows. */
  function PingColumns(f: Frame, sc: Scene, b: Beam, p: nat, n: nat): (c: Ping)
    requires Valid(f) && SceneOk(f, sc) && p < f.nPings && n <= f.nSamples
    ensures WellFormed(c) && |c.ts| == n
  {
    var c := Ping(Column(f, sc, b, TsLayer, p, n), Column(f, sc, b, TsuLayer, p, n),
                  Column(f, sc, b, PlikeLayer, p, n), Column(f, sc, b, RangeLayer, p, n));
    forall k | 0 <= k < n && c.ts[k].Val?
      ensures c.tsu[k].Val?
    {
      TsOverTsu(f, sc, b, p, k);
    }
    c
  }

  /** Ping `p`: its index, its time, `nb_samples_tot`, `TD` and its heave. */
  function StampOf(f: Frame, sc: Scene, p: nat): (st: Stamp)
    requires Valid(f) && SceneOk(f, sc) && p < f.nPings
    ensures st.ping == p && st.ping < |sc.nav|
  {
    Stamp(p, f.times[p], f.nSamples, sc.td, sc.nav[p].heave)
  }

  // ---------------------------------------------------------------- what the detector computes

  /** The detections of ping `p` in a block of `n` rows. */
  function ColumnDetections(f: Frame, sc: Scene, b: Beam, s: Setup, p: nat, n: nat): seq<Target>
    requires Valid(f) && SceneOk(f, sc) && SetupOk(s) && p < f.nPings && n <= f.nSamples
  {
    PingDetections(PingColumns(f, sc, b, p, n), StampOf(f, sc, p), s)
  }

  /** The search of the Matecho-style detector over the frame `f`. */
  function MatechoSearch(f: Frame, sc: Scene, b: Beam, s: Setup): Search
    requires Valid(f) && SceneOk(f, sc) && SetupOk(s)
  {
    (p: nat, n: nat) => if p < f.nPings && n <= f.nSamples then ColumnDetections(f, sc, b, s, p, n) else []
  }

  /** `search` agrees with `ColumnDetections` on every ping and row count of the frame. */
  predicate Searches(f: Frame, sc: Scene, b: Beam, s: Setup, search: Search)
    requires Valid(f) && SceneOk(f, sc) && SetupOk(s)
  {
    forall p: nat, n: nat {:trigger ColumnDetections(f, sc, b, s, p, n)} | p < f.nPings && n <= f.nSamples ::
      search(p, n) == ColumnDetections(f, sc, b, s, p, n)
  }

  lemma MatechoSearchSearches(f: Frame, sc: Scene, b: Beam, s: Setup)
    requires Valid(f) && SceneOk(f, sc) && SetupOk(s)
    ensures Searches(f, sc, b, s, MatechoSearch(f, sc, b, s))
  {
    forall p: nat, n: nat | p < f.nPings && n <= f.nSamples
      ensures MatechoSearch(f, sc, b, s)(p, n) == ColumnDetections(f, sc, b, s, p, n)
    {
    }
  }

  /** The detections of one block: every ping of it, over the block's rows. */
  function BlockTargets(f: Frame, g: nat, span: Span, search: Search): seq<Target>
    requires Valid(f) && span.lo <= span.hi <= f.nPings && g <= f.nSamples
  {
    ColumnsTargets(span, BlockRows(f, g, span), span.hi - span.lo, search)
  }

  /** The detections of blocks `0 .. u-1` of size `bs`. */
  function BlocksTargets(f: Frame, g: nat, bs: int, u: nat, search: Search): seq<Target>
    requires Valid(f) && g <= f.nSamples
  {
    if u == 0 then []
    else BlocksTargets(f, g, bs, u - 1, search) + BlockTargets(f, g, BlockPings(u - 1, bs, f.nPings), search)
  }

  /** Everything the detector appends, block after block. */
  function FrameTargets(f: Frame, sc: Scene, b: Beam, s: Setup): seq<Target>
    requires Valid(f) && f.nPings >= 1 && SceneOk(f, sc) && SetupOk(s)
  {
    var g := GlobalRows(f);
    var bs := BlockSize(s.blockLen, g, f.nPings);
    BlocksTargets(f, g, bs, MatechoBlockCount(bs, f.nPings), MatechoSearch(f, sc, b, s))
  }

  // ---------------------------------------------------------------- what a detection means

  /**
    A record of the frame: a real ping and sample above the bottom, tagged with the ping's
    time and the linear index `ping * nb_samples_tot + sample`, and `Accepted` by the
    per-ping search on the ping's columns over the rows of its block.
  */
  predicate Detected(f: Frame, sc: Scene, b: Beam, s: Setup, t: Target)
    requires Valid(f) && SceneOk(f, sc) && SetupOk(s)
  {
    && Indexed(t, f.nSamples) && t.ping < f.nPings
    && t.time == f.times[t.ping]
    && !Under(f, t.ping, t.idxR)
    && exists n | t.idxR < n <= f.nSamples ::
         Accepted(PingColumns(f, sc, b, t.ping, n), StampOf(f, sc, t.ping), s, t)
  }

  /** `Detected` as a check on one record. */
  function DetectedBy(f: Frame, sc: Scene, b: Beam, s: Setup): Target -> bool
    requires Valid(f) && SceneOk(f, sc) && SetupOk(s)
  {
    t => Detected(f, sc, b, s, t)
  }

  /** The detections of one ping are detections of that ping, in sample order and spaced. */
  lemma {:induction false} ColumnSound(f: Frame, sc: Scene, b: Beam, s: Setup, p: nat, n: nat)
    requires Valid(f) && SceneOk(f, sc) && SetupOk(s) && p < f.nPings && n <= f.nSamples
    ensures RecordsOf(ColumnDetections(f, sc, b, s, p, n), p, p + 1, DetectedBy(f, sc, b, s), s.minSpace)
  {
    var c, st := PingColumns(f, sc, b, p, n), StampOf(f, sc, p);
    var ts := PingDetections(c, st, s);
    PingDetectionsSound(c, st, s);
    forall i | 0 <= i < |ts|
      ensures Detected(f, sc, b, s, ts[i]) && p <= ts[i].ping < p + 1
    {
      var t := ts[i];
      assert Accepted(c, st, s, t);
      assert c.ts[t.idxR] == Cell(f, sc, b, TsLayer, p, t.idxR);
    }
  }

  lemma MatechoSearchSound(f: Frame, sc: Scene, b: Beam, s: Setup)
    requires Valid(f) && SceneOk(f, sc) && SetupOk(s)
    ensures SoundSearch(f.nPings, f.nSamples, MatechoSearch(f, sc, b, s), DetectedBy(f, sc, b, s), s.minSpace)
  {
    forall p: nat, n: nat | p < f.nPings && n <= f.nSamples
      ensures RecordsOf(MatechoSearch(f, sc, b, s)(p, n), p, p + 1, DetectedBy(f, sc, b, s), s.minSpace)
    {
      ColumnSound(f, sc, b, s, p, n);
    }
  }

  /** The detections of a block are records of the block's pings. */
  lemma BlockSound(f: Frame, g: nat, span: Span, search: Search, ok: Target -> bool, minSpace: int)
    requires Valid(f) && span.lo <= span.hi <= f.nPings && g <= f.nSamples
    requires SoundSearch(f.nPings, f.nSamples, search, ok, minSpace)
    ensures RecordsOf(BlockTargets(f, g, span, search), span.lo, span.hi, ok, minSpace)
  {
    ColumnsSound(f.nPings, f.nSamples, span, BlockRows(f, g, span), span.hi - span.lo, search, ok, minSpace);
  }

  /** With a positive block size, the detections of the first `u` blocks are records of pings before `u * bs`. */
  lemma {:induction false} BlocksSound(f: Frame, g: nat, bs: int, u: nat, search: Search, ok: Target -> bool, minSpace: int)
    requires Valid(f) && g <= f.nSamples && bs >= 1
    requires SoundSearch(f.nPings, f.nSamples, search, ok, minSpace)
    ensures RecordsOf(BlocksTargets(f, g, bs, u, search), 0, u * bs, ok, minSpace)
  {
    if u > 0 {
      var v := u - 1;
      BlocksSound(f, g, bs, v, search, ok, minSpace);
      var span := BlockPings(v, bs, f.nPings);
      BlockSound(f, g, span, search, ok, minSpace);
      RegularBlock(v, bs, f.nPings);
      MulMono(0, v, bs);
      MulMono(v, v + 1, bs);
      var c := BlockTargets(f, g, span, search);
      RecordsWiden(c, span.lo, span.hi, v * bs, (v + 1) * bs, ok, minSpace);
      RecordsConcat(BlocksTargets(f, g, bs, v, search), c, 0, v * bs, (v + 1) * bs, ok, minSpace);
    }
  }

  /**
    With a block size of zero or less only the first block holds pings, so the detections
    of any number of blocks are records of the first block's pings.
  */
  lemma {:induction false} BlocksSoundNonPositive(f: Frame, g: nat, bs: int, u: nat, search: Search, ok: Target -> bool, minSpace: int)
    requires Valid(f) && g <= f.nSamples && bs <= 0
    requires SoundSearch(f.nPings, f.nSamples, search, ok, minSpace)
    ensures RecordsOf(BlocksTargets(f, g, bs, u, search), 0, f.nPings, ok, minSpace)
  {
    if u == 1 {
      var span := BlockPings(0, bs, f.nPings);
      BlockSound(f, g, span, search, ok, minSpace);
      assert BlocksTargets(f, g, bs, u, search) == BlockTargets(f, g, span, search);
    } else if u > 1 {
      BlocksSoundNonPositive(f, g, bs, u - 1, search, ok, minSpace);
      LaterBlocksEmpty(u - 1, bs, f.nPings);
      assert BlocksTargets(f, g, bs, u, search) == BlocksTargets(f, g, bs, u - 1, search);
    }
  }

  /** Every record of the frame passes `DetectedBy`, and the records are `Ordered`. */
  lemma FrameRecords(f: Frame, sc: Scene, b: Beam, s: Setup)
    requires Valid(f) && f.nPings >= 1 && SceneOk(f, sc) && SetupOk(s)
    ensures var ts := FrameTargets(f, sc, b, s);
      (forall i | 0 <= i < |ts| :: DetectedBy(f, sc, b, s)(ts[i])) && Ordered(ts, s.minSpace)
  {
    var g := GlobalRows(f);
    var bs := BlockSize(s.blockLen, g, f.nPings);
    var search := MatechoSearch(f, sc, b, s);
    MatechoSearchSound(f, sc, b, s);
    if bs >= 1 {
      BlocksSound(f, g, bs, MatechoBlockCount(bs, f.nPings), search, DetectedBy(f, sc, b, s), s.minSpace);
    } else {
      BlocksSoundNonPositive(f, g, bs, MatechoBlockCount(bs, f.nPings), search, DetectedBy(f, sc, b, s), s.minSpace);
    }
  }

  /**
    Everything the detector records is a detection of the frame, the records come ping by
    ping and from the transducer outwards, records of one ping are at least `min_space`
    samples apart, and so `idx_target_lin` strictly increases.
  */
  lemma FrameSound(f: Frame, sc: Scene, b: Beam, s: Setup)
    requires Valid(f) && f.nPings >= 1 && SceneOk(f, sc) && SetupOk(s)
    ensures var ts := FrameTargets(f, sc, b, s);
      && (forall i | 0 <= i < |ts| :: Detected(f, sc, b, s, ts[i]))
      && InScanOrder(ts)
      && Spaced(ts, s.minSpace)
      && (forall i, j | 0 <= i < j < |ts| :: ts[i].idxLin < ts[j].idxLin)
  {
    var ts := FrameTargets(f, sc, b, s);
    FrameRecords(f, sc, b, s);
    OrderedScan(ts, s.minSpace);
    forall i | 0 <= i < |ts|
      ensures Detected(f, sc, b, s, ts[i])
    {
      assert DetectedBy(f, sc, b, s)(ts[i]);
    }
    ScanOrderSortsLinearIndex(ts, f.nSamples);
  }

  // ---------------------------------------------------------------- the detector

  /** The merged parameters and the numbers read from them, or the first error. */
  function Configure(params: Option<Dict>): (r: Result<MatechoConfig, ConfigError>)
    ensures params.None? ==> r == Failure(ParamsRequired)
    ensures params.Some? && ChannelMissing(params.value) ==> r == Failure(ChannelRequired)
    ensures params.Some? && !ChannelMissing(params.value) ==> r == MatechoSettings(Merge(MatechoDefaults, params.value))
    ensures r.Success? ==> params.Some? && !ChannelMissing(params.value)
  {
    var p :- ParseMatecho(params);
    MatechoSettings(p)
  }

  /**
    The detector: parameters are merged and read first (a missing channel or a value that
    is not a number is refused before any record is written); then every block of pings is
    searched, each record is appended with its ping's attitude, and the count is set to
    the number of records. `rounded` is `round(T / max(dt, 1e-6))`.
  */
  method DetectMatecho(f: Frame, sc: Scene, params: Option<Dict>, rounded: int) returns (r: Result<StStruct, ConfigError>)
    requires Valid(f) && f.nPings >= 1 && SceneOk(f, sc)
    ensures r.Failure? <==> Configure(params).Failure?
    ensures r.Failure? ==> r.error == Configure(params).error
    ensures r.Success? ==>
      var c := Configure(params).value;
      && fresh(r.value) && r.value.Complete()
      && r.value.Targets() == FrameTargets(f, sc, c.beam, SetupOf(c, rounded))
      && Tagged(r.value.Targets(), r.value.Attitudes(), sc.nav)
      && r.value.nbValidTargets == |r.value.Targets()|
  {
    var c :- Configure(params);
    var s := SetupOf(c, rounded);
    ghost var search := MatechoSearch(f, sc, c.beam, s);
    MatechoSearchSearches(f, sc, c.beam, s);
    var out := new StStruct();
    var g := GlobalRowCount(f);
    var bs := BlockSize(s.blockLen, g, f.nPings);
    var num := MatechoBlockCount(bs, f.nPings);
    for ui := 0 to num
      invariant out.Complete() && out.Targets() == BlocksTargets(f, g, bs, ui, search)
      invariant Tagged(out.Targets(), out.Attitudes(), sc.nav)
    {
      DetectBlock(f, sc, c.beam, s, g, BlockPings(ui, bs, f.nPings), search, out);
    }
    out.Finalize();
    return Success(out);
  }

  /** The matrices of a block, `[sample][ping]`. */
  datatype Block = Block(ts: seq<seq<Db>>, tsu: seq<seq<Db>>, plike: seq<seq<Db>>, range: seq<seq<Db>>)

  /** `m` is `layer[sample, ping]` over the pings of `span`, masked as the layer is. */
  predicate IsLayer(f: Frame, sc: Scene, b: Beam, layer: Layer, span: Span, m: seq<seq<Db>>) {
    && Valid(f) && SceneOk(f, sc) && span.lo <= span.hi <= f.nPings && |m| <= f.nSamples
    && (forall r | 0 <= r < |m| :: |m[r]| == span.hi - span.lo)
    && (forall r, j | 0 <= r < |m| && 0 <= j < span.hi - span.lo :: m[r][j] == Cell(f, sc, b, layer, span.lo + j, r))
  }

  /** The four matrices of the block of `span`, each with `rows` rows. */
  predicate IsBlock(f: Frame, sc: Scene, b: Beam, span: Span, rows: nat, blk: Block) {
    && |blk.ts| == rows && |blk.tsu| == rows && |blk.plike| == rows && |blk.range| == rows
    && IsLayer(f, sc, b, TsLayer, span, blk.ts) && IsLayer(f, sc, b, TsuLayer, span, blk.tsu)
    && IsLayer(f, sc, b, PlikeLayer, span, blk.plike) && IsLayer(f, sc, b, RangeLayer, span, blk.range)
  }

  /** One pass of the block loop for the pings of `span`. */
  method DetectBlock(f: Frame, sc: Scene, b: Beam, s: Setup, g: nat, span: Span, ghost search: Search, out: StStruct)
    requires Valid(f) && SceneOk(f, sc) && SetupOk(s) && span.lo <= span.hi <= f.nPings && g <= f.nSamples
    requires out.Complete() && Tagged(out.Targets(), out.Attitudes(), sc.nav)
    requires Searches(f, sc, b, s, search)
    modifies out
    ensures out.Complete() && out.Targets() == old(out.Targets()) + BlockTargets(f, g, span, search)
    ensures Tagged(out.Targets(), out.Attitudes(), sc.nav) && out.nbValidTargets == old(out.nbValidTargets)
  {
    var rows := BlockRowCount(f, g, span);
    var blk := BuildBlock(f, sc, b, span, rows);
    DetectColumns(f, sc, b, s, span, blk, rows, search, out);
  }

  /** The block's matrices: the under-bottom mask, the four layers and NaN written where the mask is set. */
  method BuildBlock(f: Frame, sc: Scene, b: Beam, span: Span, rows: nat) returns (blk: Block)
    requires Valid(f) && SceneOk(f, sc) && span.lo <= span.hi <= f.nPings && rows <= f.nSamples
    ensures IsBlock(f, sc, b, span, rows, blk)
  {
    var nb := span.hi - span.lo;
    var mask := new bool[rows, nb]((r: nat, j: nat) => false);
    if f.bottom.Some? && nb > 0 {
      MarkUnderBottom(f, span, mask);
    }
    var ts := BuildLayer(f, sc, b, TsLayer, span, mask);
    var tsu := BuildLayer(f, sc, b, TsuLayer, span, mask);
    var plike := BuildLayer(f, sc, b, PlikeLayer, span, mask);
    var range := BuildLayer(f, sc, b, RangeLayer, span, mask);
    blk := Block(ts, tsu, plike, range);
  }

  /** One layer of the block: computed over the block, then `layer[mask] = np.nan` except for the range. */
  method BuildLayer(f: Frame, sc: Scene, b: Beam, layer: Layer, span: Span, mask: array2<bool>) returns (m: seq<seq<Db>>)
    requires Valid(f) && SceneOk(f, sc) && span.lo <= span.hi <= f.nPings
    requires mask.Length0 <= f.nSamples && mask.Length1 == span.hi - span.lo
    requires forall r, j | 0 <= r < mask.Length0 && 0 <= j < mask.Length1 :: mask[r, j] == Under(f, span.lo + j, r)
    ensures |m| == mask.Length0 && IsLayer(f, sc, b, layer, span, m)
  {
    var rows, nb := mask.Length0, mask.Length1;
    var a := new Db[rows, nb]((r: nat, j: nat) requires r < rows && j < nb => Raw(f, sc, b, layer, span.lo + j, r));
    if layer != RangeLayer {
      Fill(a, mask, NaN);
    }
    m := Snapshot(a);
  }

  /** `for j in range(Plike.shape[1])` over the block. */
  method DetectColumns(f: Frame, sc: Scene, b: Beam, s: Setup, span: Span, blk: Block, n: nat, ghost search: Search, out: StStruct)
    requires IsBlock(f, sc, b, span, n, blk) && SetupOk(s)
    requires out.Complete() && Tagged(out.Targets(), out.Attitudes(), sc.nav)
    requires Searches(f, sc, b, s, search)
    modifies out
    ensures out.Complete() && out.Targets() == old(out.Targets()) + ColumnsTargets(span, n, span.hi - span.lo, search)
    ensures Tagged(out.Targets(), out.Attitudes(), sc.nav) && out.nbValidTargets == old(out.nbValidTargets)
  {
    for j := 0 to span.hi - span.lo
      invariant out.Complete() && out.Targets() == old(out.Targets()) + ColumnsTargets(span, n, j, search)
      invariant Tagged(out.Targets(), out.Attitudes(), sc.nav) && out.nbValidTargets == old(out.nbValidTargets)
    {
      DetectColumn(f, sc, b, s, span, blk, n, j, search, old(out.Targets()), out);
    }
  }

  /**
    The body of `for j in range(Plike.shape[1])`: the columns `ts[:, j]`, `tsu[:, j]`,
    `Plike[:, j]` and `R_blk[:, j]`, and the search of the ping.
  */
  method DetectColumn(f: Frame, sc: Scene, b: Beam, s: Setup, span: Span, blk: Block, n: nat, j: nat,
                      ghost search: Search, ghost base: seq<Target>, out: StStruct)
    requires IsBlock(f, sc, b, span, n, blk) && SetupOk(s) && j < span.hi - span.lo
    requires out.Complete() && Tagged(out.Targets(), out.Attitudes(), sc.nav)
    requires Searches(f, sc, b, s, search)
    requires out.Targets() == base + ColumnsTargets(span, n, j, search)
    modifies out
    ensures out.Complete() && out.Targets() == base + ColumnsTargets(span, n, j + 1, search)
    ensures Tagged(out.Targets(), out.Attitudes(), sc.nav) && out.nbValidTargets == old(out.nbValidTargets)
  {
    var p := span.lo + j;
    var c := BlockColumns(f, sc, b, span, n, blk, j);
    DetectPing(f, sc, b, s, p, n, c, search, out);
    Regroup(base, ColumnsTargets(span, n, j, search), search(p, n), old(out.Targets()), out.Targets());
  }

  /** The search over the columns `c` of ping `p` in a block of `n` rows. */
  method DetectPing(f: Frame, sc: Scene, b: Beam, s: Setup, p: nat, n: nat, c: Ping, ghost search: Search, out: StStruct)
    requires Valid(f) && SceneOk(f, sc) && SetupOk(s) && p < f.nPings && n <= f.nSamples
    requires out.Complete() && Tagged(out.Targets(), out.Attitudes(), sc.nav)
    requires Searches(f, sc, b, s, search) && c == PingColumns(f, sc, b, p, n)
    modifies out
    ensures out.Complete() && out.Targets() == old(out.Targets()) + search(p, n)
    ensures Tagged(out.Targets(), out.Attitudes(), sc.nav) && out.nbValidTargets == old(out.nbValidTargets)
  {
    DetectInPing(c, StampOf(f, sc, p), s, sc.nav, out);
    assert search(p, n) == ColumnDetections(f, sc, b, s, p, n);
  }

  /** The columns `ts[:, j]`, `tsu[:, j]`, `Plike[:, j]` and `R_blk[:, j]` of a block are those of ping `lo + j`. */
  method BlockColumns(f: Frame, sc: Scene, b: Beam, span: Span, n: nat, blk: Block, j: nat) returns (c: Ping)
    requires IsBlock(f, sc, b, span, n, blk) && j < span.hi - span.lo
    ensures Valid(f) && SceneOk(f, sc) && span.lo + j < f.nPings && n <= f.nSamples
    ensures c == PingColumns(f, sc, b, span.lo + j, n)
  {
    c := Ping(ColumnOf(blk.ts, j, n), ColumnOf(blk.tsu, j, n), ColumnOf(blk.plike, j, n), ColumnOf(blk.range, j, n));
    ColumnOfLayer(f, sc, b, TsLayer, span, blk.ts, n, j);
    ColumnOfLayer(f, sc, b, TsuLayer, span, blk.tsu, n, j);
    ColumnOfLayer(f, sc, b, PlikeLayer, span, blk.plike, n, j);
    ColumnOfLayer(f, sc, b, RangeLayer, span, blk.range, n, j);
  }

  /** A column of a block layer is the column of its ping. */
  lemma ColumnOfLayer(f: Frame, sc: Scene, b: Beam, layer: Layer, span: Span, m: seq<seq<Db>>, n: nat, j: nat)
    requires IsLayer(f, sc, b, layer, span, m) && n <= |m| && j < span.hi - span.lo
    ensures ColumnOf(m, j, n) == Column(f, sc, b, layer, span.lo + j, n)
  {
    ColumnOfCells(m, j, n);
  }
}
