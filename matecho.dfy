/**
  The Matecho-style single-target detector, per ping: the local maxima of the level `Plike`
  past the first `dec_tir` samples are taken in order; a peak is kept when its compensated
  TS passes the threshold, the off-axis guard holds, its 6 dB echo width lies within the
  echo-length bounds, it lies far enough from every peak kept before it and its depth lies
  within the depth band; a kept peak is recorded with the range extent of its echo.
*/
module Matecho {
  import opened Wrappers
  import opened Samples
  import opened Indices
  import opened Params
  import opened Envelope
  import opened Detections

  /** `dec_tir`: no peak is taken among the first samples after transmission. */
  const DecTir: nat := 8

  /** The echo width is measured down to 6 dB below the peak of `Plike`. */
  const WidthDrop: real := 6.0

  /**
    The numbers the detection loop uses, fixed before the block loop: the TS threshold, the
    one-way off-axis limit, the echo-length bounds and the spacing in samples, the depth
    band, the samples per pulse `NechP`, the pulse length `Np`, the memory budget and
    `c * T / 4`. `Np` is computed as `detect_matecho` computes it, and only printed there.
  */
  datatype Setup = Setup(
    tsThr: real,
    maxAngle: real,
    minLen: int,
    maxLen: int,
    minSpace: int,
    minDepth: real,
    maxDepth: real,
    nechP: int,
    np: int,
    blockLen: real,
    halfPulse: real)

  predicate SetupOk(s: Setup) {
    s.nechP >= 3 && s.np >= 3
  }

  /**
    The numbers of the detector from its merged parameters and the rounded ratio
    `round(T / max(dt, 1e-6))`: `NechP` and `Np` are at least 3, and the echo-length bounds
    and the spacing are `NechP` times their parameters, rounded to the nearest integer
    (`SetupOfRoundsHalfEven` gives their exact values).
  */
  function SetupOf(c: MatechoConfig, rounded: int): (s: Setup)
    ensures SetupOk(s)
    ensures s.nechP == SamplesPerPulse(rounded) && s.np == ChooseNp(c.npParam, rounded)
    ensures s.minLen as real - 0.5 <= s.nechP as real * c.minEchoLength <= s.minLen as real + 0.5
    ensures s.maxLen as real - 0.5 <= s.nechP as real * c.maxEchoLength <= s.maxLen as real + 0.5
    ensures s.minSpace as real - 0.5 <= c.minEchoSpace * s.nechP as real <= s.minSpace as real + 0.5
    ensures s.tsThr == c.tsThreshold && s.maxAngle == c.maxAngleOneWay
    ensures s.minDepth == c.minEchoDepth && s.maxDepth == c.maxEchoDepth
    ensures s.blockLen == c.blockLen && s.halfPulse == c.soundSpeed * c.pulseLength / 4.0
  {
    var nechP := SamplesPerPulse(rounded);
    Setup(c.tsThreshold, c.maxAngleOneWay,
          RoundHalfEven(nechP as real * c.minEchoLength), RoundHalfEven(nechP as real * c.maxEchoLength),
          RoundHalfEven(c.minEchoSpace * nechP as real), c.minEchoDepth, c.maxEchoDepth,
          nechP, ChooseNp(c.npParam, rounded), c.blockLen, c.soundSpeed * c.pulseLength / 4.0)
  }

  /** The echo-length bounds and the spacing of the setup are rounded half to even, as Python's `round` is. */
  lemma SetupOfRoundsHalfEven(c: MatechoConfig, rounded: int)
    ensures var s := SetupOf(c, rounded);
      && s.minLen == RoundHalfEven(s.nechP as real * c.minEchoLength)
      && s.maxLen == RoundHalfEven(s.nechP as real * c.maxEchoLength)
      && s.minSpace == RoundHalfEven(c.minEchoSpace * s.nechP as real)
  {
  }

  /** At a tie the bound goes to the even side: five samples per pulse and a length of 0.5 give 2, not 3. */
  lemma SetupOfTieGoesToEven(c: MatechoConfig, rounded: int)
    requires rounded == 5 && c.minEchoLength == 0.5
    ensures SetupOf(c, rounded).minLen == 2
  {
    SetupOfRoundsHalfEven(c, rounded);
  }

  /**
    One ping's columns over the block's rows: `ts[:, j]`, `tsu[:, j]` and `Plike[:, j]`, NaN
    where masked, and the range `R_blk[:, j]` from the transducer face.
  */
  datatype Ping = Ping(ts: seq<Db>, tsu: seq<Db>, plike: seq<Db>, range: seq<Db>)

  /** The four columns have one cell per row, and `ts = tsu + comp` is NaN wherever `tsu` is. */
  predicate WellFormed(c: Ping) {
    && |c.tsu| == |c.ts| && |c.plike| == |c.ts| && |c.range| == |c.ts|
    && forall k | 0 <= k < |c.ts| && c.ts[k].Val? :: c.tsu[k].Val?
  }

  /** Where the ping sits: its index, its time, `nb_samples_tot`, the transducer depth and the ping's heave. */
  datatype Stamp = Stamp(ping: nat, time: int, nTot: int, td: real, heave: Db)

  // ---------------------------------------------------------------- peaks

  /**
    `valid[1:-1] & (zP[1:-1] > zP[:-2]) & (zP[1:-1] >= zP[2:])` at `k`, where `valid` is
    `np.isfinite(zP)` with its first `dec_tir` entries cleared.
  */
  predicate IsPeak(zP: seq<Db>, k: nat)
    ensures IsPeak(zP, k) ==> 1 <= k && k + 1 < |zP| && zP[k - 1].Val? && zP[k].Val? && zP[k + 1].Val?
  {
    DecTir <= k && k + 1 < |zP| && zP[k].Val? && Greater(zP[k], zP[k - 1]) && NotLess(zP[k], zP[k + 1])
  }

  /**
    `loc`: every peak of the column, in increasing order. No peak lies among the first
    `dec_tir` samples, and both neighbours of a peak are finite, the one before strictly lower
    and the one after not higher.
  */
  function Peaks(zP: seq<Db>): (loc: seq<nat>)
    ensures forall i | 0 <= i < |loc| ::
      && DecTir <= loc[i] && loc[i] + 1 < |zP|
      && zP[loc[i] - 1].Val? && zP[loc[i]].Val? && zP[loc[i] + 1].Val?
      && zP[loc[i] - 1].v < zP[loc[i]].v && zP[loc[i] + 1].v <= zP[loc[i]].v
    ensures forall i | 0 <= i < |loc| :: IsPeak(zP, loc[i])
    ensures forall k: nat | IsPeak(zP, k) :: k in loc
  {
    Where(|zP|, (k: nat) => IsPeak(zP, k))
  }

  /** The peaks come in increasing sample order. */
  lemma PeaksIncreasing(zP: seq<Db>)
    ensures Increasing(Peaks(zP))
  {
    WhereIncreasing(|zP|, (k: nat) => IsPeak(zP, k));
  }

  /** `np.isfinite(zP).any()`. */
  predicate AnyFinite(z: seq<Db>) {
    exists k | 0 <= k < |z| :: z[k].Val?
  }

  // ---------------------------------------------------------------- spacing

  function Abs(x: int): nat {
    if x < 0 then -x else x
  }

  /** `min(abs(k - kk) for kk in keep)`: the distance from `k` to the nearest kept peak. */
  function MinGap(k: int, keep: seq<nat>): nat
    requires |keep| > 0
    decreases |keep|
  {
    if |keep| == 1 then Abs(k - keep[0])
    else
      var g := MinGap(k, keep[..|keep| - 1]);
      var a := Abs(k - keep[|keep| - 1]);
      if a < g then a else g
  }

  /** `MinGap` is the least distance from `k` to a kept peak, and some kept peak lies at that distance. */
  lemma {:induction false} MinGapExact(k: int, keep: seq<nat>)
    requires |keep| > 0
    ensures forall i | 0 <= i < |keep| :: MinGap(k, keep) <= Abs(k - keep[i])
    ensures exists i | 0 <= i < |keep| :: MinGap(k, keep) == Abs(k - keep[i])
    decreases |keep|
  {
    if |keep| == 1 {
      assert MinGap(k, keep) == Abs(k - keep[0]);
    } else {
      var last := |keep| - 1;
      var init := keep[..last];
      MinGapExact(k, init);
      var g := MinGap(k, init);
      var j :| 0 <= j < |init| && g == Abs(k - init[j]);
      assert init[j] == keep[j];
      forall i | 0 <= i < last
        ensures g <= Abs(k - keep[i])
      {
        assert init[i] == keep[i];
      }
      var w := if Abs(k - keep[last]) < g then last else j;
      assert MinGap(k, keep) == Abs(k - keep[w]);
    }
  }

  /** `keep and min(abs(k - kk) for kk in keep) < min_space`. */
  predicate TooClose(k: int, keep: seq<nat>, minSpace: int) {
    |keep| > 0 && MinGap(k, keep) < minSpace
  }

  /** The generator loop `min(abs(k - kk) for kk in keep)`. */
  method NearestKept(k: int, keep: seq<nat>) returns (g: nat)
    requires |keep| > 0
    ensures g == MinGap(k, keep)
  {
    g := Abs(k - keep[0]);
    MinGapStart(k, keep);
    for i := 1 to |keep|
      invariant g == MinGap(k, keep[..i])
    {
      MinGapStep(k, keep, i);
      var a := Abs(k - keep[i]);
      if a < g {
        g := a;
      }
    }
    assert keep[..|keep|] == keep;
  }

  /** The nearest of the first kept peak alone is that peak. */
  lemma MinGapStart(k: int, keep: seq<nat>)
    requires |keep| > 0
    ensures MinGap(k, keep[..1]) == Abs(k - keep[0])
  {
  }

  /** One more kept peak lowers the least distance when it lies nearer. */
  lemma MinGapStep(k: int, keep: seq<nat>, i: nat)
    requires 1 <= i < |keep|
    ensures var g, a := MinGap(k, keep[..i]), Abs(k - keep[i]);
      MinGap(k, keep[..i + 1]) == if a < g then a else g
  {
    assert keep[..i + 1][..i] == keep[..i];
  }

  // ---------------------------------------------------------------- one peak

  /** What the `for k in loc` body does with a peak: `continue` before keeping it, or keep it and record it unless its range window holds no finite value. */
  datatype Outcome = Skip | Keep(rec: Option<Target>)

  /** `rcol[k] + TD + heave[ping]`: the depth of sample `k` below the surface. */
  function DepthAt(c: Ping, k: nat, st: Stamp): (depth: Db)
    requires k < |c.range|
    ensures depth.Val? <==> c.range[k].Val? && st.heave.Val?
  {
    Plus(Plus(c.range[k], Val(st.td)), st.heave)
  }

  /** `MinEchoDepthM <= depth <= MaxEchoDepthM`, false for a NaN depth. */
  predicate InBand(depth: Db, s: Setup) {
    AtLeast(depth, s.minDepth) && AtMost(depth, s.maxDepth)
  }

  /** The body of `for k in loc` for peak `k`, given the peaks kept before it: the TS gate and the off-axis guard, then the 6 dB width. */
  function Judge(c: Ping, k: nat, keep: seq<nat>, st: Stamp, s: Setup): (o: Outcome)
    requires WellFormed(c) && SetupOk(s) && IsPeak(c.plike, k)
    ensures o.Keep? ==> Above(c.ts[k], s.tsThr)
    ensures o.Keep? && o.rec.Some? ==> o.rec.value.idxR == k && o.rec.value.ping == st.ping
  {
    if !Above(c.ts[k], s.tsThr) then Skip
    else if Greater(Minus(c.ts[k], c.tsu[k]), Val(2.0 * s.maxAngle)) then Skip
    else
      var thr := c.plike[k].v - WidthDrop;
      Width(c, k, keep, st, s, RunLeft(c.plike, k, thr, k), RunRight(c.plike, k, thr, |c.plike|))
  }

  /** The gates after the 6 dB width `[k - left, k + right]` is known: the echo length, the spacing and the depth band. */
  function Width(c: Ping, k: nat, keep: seq<nat>, st: Stamp, s: Setup, left: nat, right: nat): (o: Outcome)
    requires WellFormed(c) && SetupOk(s) && k < |c.ts| && c.ts[k].Val?
    requires left <= k && k + right < |c.ts|
    ensures o.Keep? ==> InBand(DepthAt(c, k, st), s) && !TooClose(k, keep, s.minSpace)
    ensures o.Keep? && o.rec.Some? ==>
      o.rec.value.idxR == k && o.rec.value.ping == st.ping && o.rec.value.before == left && o.rec.value.after == right
  {
    var plen := left + right + 1;
    if plen < s.minLen || plen > s.maxLen then Skip
    else if TooClose(k, keep, s.minSpace) then Skip
    else if !InBand(DepthAt(c, k, st), s) then Skip
    else Keep(Record(c, k, st, s, left, right))
  }

  /** The record of a kept peak: None when `R_blk[i0 : i1 + 1, j]` holds no finite value. */
  function Record(c: Ping, k: nat, st: Stamp, s: Setup, left: nat, right: nat): (r: Option<Target>)
    requires WellFormed(c) && SetupOk(s) && k < |c.ts| && c.ts[k].Val? && c.range[k].Val?
    requires left <= k && k + right < |c.ts|
    ensures r.Some? ==>
      r.value.idxR == k && r.value.ping == st.ping && r.value.before == left && r.value.after == right
  {
    var e := Extent(c.range, k - left, k + right + 1);
    if e.None? then None
    else
      var plen := left + right + 1;
      var rPeak := c.range[k].v;
      Some(Target(c.ts[k].v, c.tsu[k].v, rPeak, rPeak + s.halfPulse, e.value.lo, e.value.hi, k,
                  st.ping, st.time, st.ping * st.nTot + k, left, right, plen as real / s.nechP as real, plen))
  }

  // ---------------------------------------------------------------- one ping

  /** The `keep` list and the records, after some of the peaks. */
  datatype Sweep = Sweep(keep: seq<nat>, recs: seq<Target>)

  /** One peak's outcome applied: a kept peak joins `keep`, and its record, if any, the records. */
  function Advance(w: Sweep, k: nat, o: Outcome): Sweep {
    match o
    case Skip => w
    case Keep(r) => Sweep(w.keep + [k], w.recs + Recorded(r))
  }

  /** `for k in loc` over the peaks `ks`, in order, each judged against the peaks kept before it. */
  function Scan(c: Ping, ks: seq<nat>, st: Stamp, s: Setup): (w: Sweep)
    requires WellFormed(c) && SetupOk(s) && forall i | 0 <= i < |ks| :: IsPeak(c.plike, ks[i])
    ensures forall i | 0 <= i < |w.keep| :: w.keep[i] in ks
    ensures |w.recs| <= |w.keep| <= |ks|
    decreases |ks|
  {
    if |ks| == 0 then Sweep([], [])
    else
      var w := Scan(c, ks[..|ks| - 1], st, s);
      Advance(w, ks[|ks| - 1], Judge(c, ks[|ks| - 1], w.keep, st, s))
  }

  /** The detections of one ping: nothing when `Plike` has no finite cell, else the records of its peaks. */
  function PingDetections(c: Ping, st: Stamp, s: Setup): (ts: seq<Target>)
    requires WellFormed(c) && SetupOk(s)
    ensures !AnyFinite(c.plike) ==> ts == []
    ensures |ts| <= |Peaks(c.plike)|
  {
    if !AnyFinite(c.plike) then [] else Scan(c, Peaks(c.plike), st, s).recs
  }

  // ---------------------------------------------------------------- what a record means

  /**
    `[k - before, k + after]` is the 6 dB width of the peak `k` of `zP`: every sample in it is
    finite and at most 6 dB below the peak, and the sample just outside on each side is past
    the column's end, NaN or lower.
  */
  predicate SixDbWidth(zP: seq<Db>, k: nat, before: int, after: int)
    requires k < |zP| && zP[k].Val?
  {
    && 0 <= before <= k && 0 <= after && k + after < |zP|
    && (forall i | k - before <= i <= k + after :: AtLeast(zP[i], zP[k].v - WidthDrop))
    && (before < k ==> !AtLeast(zP[k - before - 1], zP[k].v - WidthDrop))
    && (k + after + 1 < |zP| ==> !AtLeast(zP[k + after + 1], zP[k].v - WidthDrop))
  }

  /**
    The gates a record passed and the fields it carries: it sits on a peak of `Plike`; its
    compensated TS is above the threshold and at most twice the one-way limit above the
    uncompensated TS; the depth of the peak lies within the band; its range is the peak's
    range, displayed `c * T / 4` further; its linear index is `ping * nb_samples_tot + k`.
  */
  predicate Gated(c: Ping, st: Stamp, s: Setup, t: Target)
    requires WellFormed(c)
  {
    && 0 <= t.idxR < |c.ts| && IsPeak(c.plike, t.idxR)
    && c.ts[t.idxR] == Val(t.tsComp) && c.tsu[t.idxR] == Val(t.tsUncomp)
    && t.tsComp > s.tsThr && t.tsComp - t.tsUncomp <= 2.0 * s.maxAngle
    && InBand(DepthAt(c, t.idxR, st), s)
    && c.range[t.idxR] == Val(t.range) && t.rangeDisp == t.range + s.halfPulse
    && t.ping == st.ping && t.time == st.time && t.idxLin == st.ping * st.nTot + t.idxR
  }

  /**
    The echo of a record: `before` and `after` span the 6 dB width of its peak, the pulse
    length is `before + after + 1` within the echo-length bounds, normalised by `NechP`.
  */
  predicate Shaped(c: Ping, s: Setup, t: Target)
    requires WellFormed(c) && SetupOk(s) && 0 <= t.idxR < |c.ts| && c.plike[t.idxR].Val?
  {
    && SixDbWidth(c.plike, t.idxR, t.before, t.after)
    && t.pl == t.before + t.after + 1 && s.minLen <= t.pl <= s.maxLen
    && t.plNorm == t.pl as real / s.nechP as real
  }

  /** The range bounds of a record are the extreme finite ranges over its echo, and enclose its range. */
  predicate Extended(c: Ping, t: Target)
    requires WellFormed(c) && 0 <= t.before <= t.idxR && 0 <= t.after && t.idxR + t.after < |c.ts|
  {
    var lo, hi := t.idxR - t.before, t.idxR + t.after;
    && t.rangeMin <= t.range <= t.rangeMax
    && (forall i | lo <= i <= hi && c.range[i].Val? :: t.rangeMin <= c.range[i].v <= t.rangeMax)
    && (exists i | lo <= i <= hi :: c.range[i] == Val(t.rangeMin))
    && (exists i | lo <= i <= hi :: c.range[i] == Val(t.rangeMax))
  }

  /** Every record: `Gated`, `Shaped` and `Extended`. */
  predicate Accepted(c: Ping, st: Stamp, s: Setup, t: Target)
    requires WellFormed(c) && SetupOk(s)
  {
    && Gated(c, st, s, t)
    && Shaped(c, s, t)
    && Extended(c, t)
  }

  /**
    The record built for the peak `k` with the width `[k - left, k + right]`: there is one,
    since the peak's own range is finite, and its range bounds are the extreme finite
    ranges over the width.
  */
  lemma {:induction false} RecordExtended(c: Ping, k: nat, st: Stamp, s: Setup, left: nat, right: nat)
    requires WellFormed(c) && SetupOk(s) && k < |c.ts| && c.ts[k].Val? && c.range[k].Val?
    requires left <= k && k + right < |c.ts|
    ensures var r := Record(c, k, st, s, left, right);
      r.Some? && Extended(c, r.value)
  {
    ExtentExact(c.range, k - left, k + right + 1);
  }

  /** Past the level gates, the record of a kept peak is `Gated`. */
  lemma {:induction false} WidthGated(c: Ping, k: nat, keep: seq<nat>, st: Stamp, s: Setup, left: nat, right: nat)
    requires WellFormed(c) && SetupOk(s) && IsPeak(c.plike, k)
    requires Above(c.ts[k], s.tsThr) && !Greater(Minus(c.ts[k], c.tsu[k]), Val(2.0 * s.maxAngle))
    requires left <= k && k + right < |c.ts|
    ensures var o := Width(c, k, keep, st, s, left, right);
      o.Keep? && o.rec.Some? ==> Gated(c, st, s, o.rec.value)
  {
  }

  /** The runs at or above 6 dB below the peak on each side of it make up its 6 dB width. */
  lemma {:induction false} SixDbRuns(zP: seq<Db>, k: nat)
    requires k < |zP| && zP[k].Val?
    ensures var thr := zP[k].v - WidthDrop;
      SixDbWidth(zP, k, RunLeft(zP, k, thr, k), RunRight(zP, k, thr, |zP|))
  {
    var thr := zP[k].v - WidthDrop;
    RunLeftExact(zP, k, thr, k);
    RunRightExact(zP, k, thr, |zP|);
  }

  /** With the 6 dB width as its width, the record of a kept peak is `Shaped`. */
  lemma {:induction false} WidthShaped(c: Ping, k: nat, keep: seq<nat>, st: Stamp, s: Setup, left: nat, right: nat)
    requires WellFormed(c) && SetupOk(s) && IsPeak(c.plike, k) && c.ts[k].Val?
    requires SixDbWidth(c.plike, k, left, right)
    ensures var o := Width(c, k, keep, st, s, left, right);
      o.Keep? && o.rec.Some? ==> Shaped(c, s, o.rec.value)
  {
  }

  /**
    A kept peak always has a record (its depth passed the band, so its own range is finite
    and the window `R_blk[i0 : i1 + 1, j]` holds a finite value), and the record is `Accepted`.
  */
  lemma {:induction false} KeptIsAccepted(c: Ping, k: nat, keep: seq<nat>, st: Stamp, s: Setup)
    requires WellFormed(c) && SetupOk(s) && IsPeak(c.plike, k)
    ensures var o := Judge(c, k, keep, st, s);
      o.Keep? ==> o.rec.Some? && Accepted(c, st, s, o.rec.value)
  {
    if Above(c.ts[k], s.tsThr) && !Greater(Minus(c.ts[k], c.tsu[k]), Val(2.0 * s.maxAngle)) {
      var thr := c.plike[k].v - WidthDrop;
      var left, right := RunLeft(c.plike, k, thr, k), RunRight(c.plike, k, thr, |c.plike|);
      if Width(c, k, keep, st, s, left, right).Keep? {
        RecordExtended(c, k, st, s, left, right);
        WidthGated(c, k, keep, st, s, left, right);
        SixDbRuns(c.plike, k);
        WidthShaped(c, k, keep, st, s, left, right);
      }
    }
  }

  /** A kept peak lies at least `min_space` samples from every peak kept before it. */
  lemma {:induction false} KeptIsSpaced(c: Ping, k: nat, keep: seq<nat>, st: Stamp, s: Setup)
    requires WellFormed(c) && SetupOk(s) && IsPeak(c.plike, k)
    ensures Judge(c, k, keep, st, s).Keep? ==> forall i | 0 <= i < |keep| :: Abs(k - keep[i]) >= s.minSpace
  {
    if |keep| > 0 {
      MinGapExact(k, keep);
    }
  }

  /** Over increasing peaks `ks`, the `keep` list of a scan is increasing. */
  lemma {:induction false} ScanKeeps(c: Ping, ks: seq<nat>, st: Stamp, s: Setup)
    requires WellFormed(c) && SetupOk(s) && forall i | 0 <= i < |ks| :: IsPeak(c.plike, ks[i])
    requires Increasing(ks)
    ensures Increasing(Scan(c, ks, st, s).keep)
    decreases |ks|
  {
    if |ks| > 0 {
      var init, k := ks[..|ks| - 1], ks[|ks| - 1];
      ScanKeeps(c, init, st, s);
      var keep := Scan(c, init, st, s).keep;
      forall i | 0 <= i < |keep|
        ensures keep[i] < k
      {
        var j :| 0 <= j < |init| && init[j] == keep[i];
        assert ks[j] == init[j];
      }
      ScanGrows(c, ks, st, s);
      IncreasingAppend(keep, k);
    }
  }

  /** One step of the scan keeps the list of kept peaks, or appends the peak scanned last. */
  lemma ScanGrows(c: Ping, ks: seq<nat>, st: Stamp, s: Setup)
    requires WellFormed(c) && SetupOk(s) && forall i | 0 <= i < |ks| :: IsPeak(c.plike, ks[i])
    requires |ks| > 0
    ensures var keep := Scan(c, ks[..|ks| - 1], st, s).keep;
      Scan(c, ks, st, s).keep in {keep, keep + [ks[|ks| - 1]]}
  {
  }

  /**
    The records of a scan are exactly its kept peaks, in order: record `i` is the outcome of
    judging `keep[i]` against the peaks kept before it, so the `continue` on an all-NaN range
    window is never taken.
  */
  lemma {:induction false} ScanRecords(c: Ping, ks: seq<nat>, st: Stamp, s: Setup)
    requires WellFormed(c) && SetupOk(s) && forall i | 0 <= i < |ks| :: IsPeak(c.plike, ks[i])
    ensures var w := Scan(c, ks, st, s);
      && |w.recs| == |w.keep|
      && forall i | 0 <= i < |w.keep| :: Judge(c, w.keep[i], w.keep[..i], st, s) == Keep(Some(w.recs[i]))
    decreases |ks|
  {
    if |ks| > 0 {
      var init, k := ks[..|ks| - 1], ks[|ks| - 1];
      ScanRecords(c, init, st, s);
      var w := Scan(c, init, st, s);
      var o := Judge(c, k, w.keep, st, s);
      if o.Keep? {
        KeptIsAccepted(c, k, w.keep, st, s);
        var keep, recs := w.keep + [k], w.recs + [o.rec.value];
        assert Scan(c, ks, st, s) == Sweep(keep, recs);
        forall i | 0 <= i < |keep|
          ensures Judge(c, keep[i], keep[..i], st, s) == Keep(Some(recs[i]))
        {
          if i < |w.keep| {
            assert keep[..i] == w.keep[..i];
          } else {
            assert keep[..i] == w.keep;
          }
        }
      }
    }
  }

  /**
    Every detection of a ping is `Accepted`, and the records come in increasing sample
    order, each at least `min_space` samples after every earlier one: the records are
    exactly the kept peaks, and each was checked against all peaks kept before it.
  */
  lemma {:induction false} PingDetectionsSound(c: Ping, st: Stamp, s: Setup)
    requires WellFormed(c) && SetupOk(s)
    ensures var ts := PingDetections(c, st, s);
      && (forall i | 0 <= i < |ts| :: Accepted(c, st, s, ts[i]))
      && (forall i, j | 0 <= i < j < |ts| :: ts[i].idxR < ts[j].idxR && ts[j].idxR - ts[i].idxR >= s.minSpace)
  {
    if AnyFinite(c.plike) {
      var ks := Peaks(c.plike);
      PeaksIncreasing(c.plike);
      ScanRecords(c, ks, st, s);
      ScanKeeps(c, ks, st, s);
      var w := Scan(c, ks, st, s);
      forall i | 0 <= i < |w.recs|
        ensures Accepted(c, st, s, w.recs[i]) && w.recs[i].idxR == w.keep[i]
      {
        KeptIsAccepted(c, w.keep[i], w.keep[..i], st, s);
      }
      forall i, j | 0 <= i < j < |w.recs|
        ensures w.recs[i].idxR < w.recs[j].idxR && w.recs[j].idxR - w.recs[i].idxR >= s.minSpace
      {
        KeptIsSpaced(c, w.keep[j], w.keep[..j], st, s);
        assert w.keep[..j][i] == w.keep[i];
      }
    }
  }

  // ---------------------------------------------------------------- the loops

  /** `while i0 > 0 and np.isfinite(zP[i0 - 1]) and zP[i0 - 1] >= base - 6.0: i0 -= 1`. */
  method WidenLeft(zP: seq<Db>, k: nat, thr: real) returns (i0: nat)
    requires k < |zP|
    ensures i0 == k - RunLeft(zP, k, thr, k)
  {
    i0 := k;
    while i0 > 0 && AtLeast(zP[i0 - 1], thr)
      invariant i0 <= k
      invariant RunLeft(zP, k, thr, k) == (k - i0) + RunLeft(zP, i0, thr, i0)
    {
      i0 := i0 - 1;
    }
  }

  /** `while i1 + 1 < nP and np.isfinite(zP[i1 + 1]) and zP[i1 + 1] >= base - 6.0: i1 += 1`. */
  method WidenRight(zP: seq<Db>, k: nat, thr: real) returns (i1: nat)
    requires k < |zP|
    ensures i1 == k + RunRight(zP, k, thr, |zP|)
  {
    i1 := k;
    while i1 + 1 < |zP| && AtLeast(zP[i1 + 1], thr)
      invariant k <= i1 < |zP|
      invariant RunRight(zP, k, thr, |zP|) == (i1 - k) + RunRight(zP, i1, thr, |zP| - (i1 - k))
      decreases |zP| - i1
    {
      i1 := i1 + 1;
    }
  }

  /** The body of `for k in loc` up to the appends: the gates in `detect_matecho`'s order, then the range extent. */
  method Consider(c: Ping, k: nat, keep: seq<nat>, st: Stamp, s: Setup) returns (o: Outcome)
    requires WellFormed(c) && SetupOk(s) && IsPeak(c.plike, k)
    ensures o == Judge(c, k, keep, st, s)
  {
    if !Above(c.ts[k], s.tsThr) {
      return Skip;
    }
    if Greater(Minus(c.ts[k], c.tsu[k]), Val(2.0 * s.maxAngle)) {
      return Skip;
    }
    var base := c.plike[k].v;
    var i0 := WidenLeft(c.plike, k, base - WidthDrop);
    var i1 := WidenRight(c.plike, k, base - WidthDrop);
    o := ConsiderWidth(c, k, keep, st, s, i0, i1);
  }

  /** The gates after the 6 dB width `[i0, i1]`: the echo length, the spacing against every kept peak and the depth band. */
  method ConsiderWidth(c: Ping, k: nat, keep: seq<nat>, st: Stamp, s: Setup, i0: nat, i1: nat) returns (o: Outcome)
    requires WellFormed(c) && SetupOk(s) && i0 <= k <= i1 < |c.ts| && c.ts[k].Val?
    ensures o == Width(c, k, keep, st, s, k - i0, i1 - k)
  {
    var plen := i1 - i0 + 1;
    if plen < s.minLen || plen > s.maxLen {
      return Skip;
    }
    if |keep| > 0 {
      var g := NearestKept(k, keep);
      if g < s.minSpace {
        return Skip;
      }
    }
    var depthHere := DepthAt(c, k, st);
    if !InBand(depthHere, s) {
      return Skip;
    }
    var r := Measure(c, k, st, s, i0, i1);
    return Keep(r);
  }

  /** `r_seg = R_blk[i0 : i1 + 1, j]`, its finite extent and the fields the appends record. */
  method Measure(c: Ping, k: nat, st: Stamp, s: Setup, i0: nat, i1: nat) returns (r: Option<Target>)
    requires WellFormed(c) && SetupOk(s) && i0 <= k <= i1 < |c.ts| && c.ts[k].Val? && c.range[k].Val?
    ensures r == Record(c, k, st, s, k - i0, i1 - k)
  {
    var e := Extent(c.range, i0, i1 + 1);
    if e.None? {
      return None;
    }
    var plen := i1 - i0 + 1;
    var rPeak := c.range[k].v;
    return Some(Target(c.ts[k].v, c.tsu[k].v, rPeak, rPeak + s.halfPulse, e.value.lo, e.value.hi, k,
                       st.ping, st.time, st.ping * st.nTot + k, k - i0, i1 - k,
                       plen as real / s.nechP as real, plen));
  }

  /** One more peak advances the scan by its outcome. */
  lemma ScanStep(c: Ping, ks: seq<nat>, i: nat, st: Stamp, s: Setup)
    requires WellFormed(c) && SetupOk(s) && forall j | 0 <= j < |ks| :: IsPeak(c.plike, ks[j])
    requires i < |ks|
    ensures Scan(c, ks[..i + 1], st, s)
         == Advance(Scan(c, ks[..i], st, s), ks[i], Judge(c, ks[i], Scan(c, ks[..i], st, s).keep, st, s))
  {
    assert ks[..i + 1][..i] == ks[..i];
  }

  /**
    The per-ping body of the block loop: skip a column without finite `Plike`, else run
    over its peaks, keep and record as the gates allow, and append each record with the
    ping's attitude.
  */
  method DetectInPing(c: Ping, st: Stamp, s: Setup, nav: seq<Attitude>, out: StStruct)
    requires WellFormed(c) && SetupOk(s) && st.ping < |nav| && out.Complete()
    requires Tagged(out.Targets(), out.Attitudes(), nav)
    modifies out
    ensures out.Complete() && out.Targets() == old(out.Targets()) + PingDetections(c, st, s)
    ensures Tagged(out.Targets(), out.Attitudes(), nav) && out.nbValidTargets == old(out.nbValidTargets)
  {
    if !AnyFinite(c.plike) {
      return;
    }
    var loc := Peaks(c.plike);
    var keep: seq<nat> := [];
    for i := 0 to |loc|
      invariant out.Complete() && Tagged(out.Targets(), out.Attitudes(), nav)
      invariant out.nbValidTargets == old(out.nbValidTargets)
      invariant keep == Scan(c, loc[..i], st, s).keep
      invariant out.Targets() == old(out.Targets()) + Scan(c, loc[..i], st, s).recs
    {
      keep := ScanNext(c, loc, i, keep, st, s, nav, out, old(out.Targets()));
    }
    assert loc[..|loc|] == loc;
  }

  /** One pass of `for k in loc`, taking the scan of the first `i` peaks to that of the first `i + 1`. */
  method ScanNext(c: Ping, loc: seq<nat>, i: nat, keep: seq<nat>, st: Stamp, s: Setup, nav: seq<Attitude>,
                  out: StStruct, ghost base: seq<Target>) returns (keep': seq<nat>)
    requires WellFormed(c) && SetupOk(s) && st.ping < |nav| && out.Complete()
    requires i < |loc| && forall j | 0 <= j < |loc| :: IsPeak(c.plike, loc[j])
    requires Tagged(out.Targets(), out.Attitudes(), nav)
    requires keep == Scan(c, loc[..i], st, s).keep && out.Targets() == base + Scan(c, loc[..i], st, s).recs
    modifies out
    ensures out.Complete() && Tagged(out.Targets(), out.Attitudes(), nav)
    ensures keep' == Scan(c, loc[..i + 1], st, s).keep && out.Targets() == base + Scan(c, loc[..i + 1], st, s).recs
    ensures out.nbValidTargets == old(out.nbValidTargets)
  {
    ScanStep(c, loc, i, st, s);
    keep' := ConsiderAndRecord(c, loc[i], keep, st, s, nav, out, base, Scan(c, loc[..i], st, s).recs);
  }

  /** One pass of `for k in loc`: the gates, `keep.append(k)` and the appends of the record. */
  method ConsiderAndRecord(c: Ping, k: nat, keep: seq<nat>, st: Stamp, s: Setup, nav: seq<Attitude>, out: StStruct,
                           ghost base: seq<Target>, ghost recs: seq<Target>) returns (keep': seq<nat>)
    requires WellFormed(c) && SetupOk(s) && IsPeak(c.plike, k) && st.ping < |nav| && out.Complete()
    requires Tagged(out.Targets(), out.Attitudes(), nav) && out.Targets() == base + recs
    modifies out
    ensures out.Complete() && Tagged(out.Targets(), out.Attitudes(), nav)
    ensures var w := Advance(Sweep(keep, recs), k, Judge(c, k, keep, st, s));
      keep' == w.keep && out.Targets() == base + w.recs
    ensures out.nbValidTargets == old(out.nbValidTargets)
  {
    var o := Consider(c, k, keep, st, s);
    keep' := keep;
    if o.Keep? {
      keep' := keep + [k];
      if o.rec.Some? {
        var t := o.rec.value;
        TaggedAppend(out.Targets(), out.Attitudes(), nav, t);
        out.AppendMatecho(t, nav[st.ping]);
      }
    }
  }
}
