/**
  The ESP3-style single-target detector, CW branch: per ping, unmasked local maxima of TS
  are thinned greedily to at least `Np` samples apart, expanded left and right while TS stays
  within `PLDL` dB of the peak (at most `max_len` samples per side), and kept when the pulse
  length, the depth segment, the effective range and the TVG-corrected level pass their gates.
*/
module Esp3 {
  import opened Wrappers
  import opened Samples
  import opened Indices
  import opened Params
  import opened Blocks
  import opened Masking
  import opened Envelope
  import opened Detections
  import opened Frames

  /**
    The numbers the detection loop uses, fixed before the block loop: the TS threshold, the
    PLDL drop, the pulse length `Np` in samples, the envelope bounds `min_len` and `max_len`,
    the memory budget, `c * T / 4`, and the TVG law `r -> 40 log10(r) + 2 alpha r`.
  */
  datatype Setup = Setup(
    tsThr: real,
    pldl: real,
    np: int,
    minLen: int,
    maxLen: nat,
    blockLen: real,
    halfPulse: real,
    tvg: real -> real)

  predicate SetupOk(s: Setup) {
    && s.np >= 3 && s.minLen >= 1 && s.maxLen >= 1 && s.blockLen > 0.0
    && -120.0 <= s.tsThr <= -20.0 && 1.0 <= s.pldl <= 30.0
  }

  /**
    The constants `detect_esp3` prepares before its block loop, from a validated configuration
    and the rounded ratio `round(T / dt)`.
  */
  function SetupOf(c: Esp3Config, rounded: int, tvg: real -> real): (s: Setup)
    requires Esp3InRange(c)
    ensures SetupOk(s)
    ensures s.np == ChooseNp(c.npParam, rounded) && s.tsThr == c.tsThreshold && s.pldl == c.pldl
    ensures s.minLen == MinLen(s.np, c.minNormPL) && s.maxLen == MaxLen(s.np, c.maxNormPL)
    ensures s.blockLen == c.blockLen && s.halfPulse == c.soundSpeed * c.pulseLength / 4.0 && s.tvg == tvg
  {
    var np := ChooseNp(c.npParam, rounded);
    Setup(c.tsThreshold, c.pldl, np, MinLen(np, c.minNormPL), MaxLen(np, c.maxNormPL),
          c.blockLen, c.soundSpeed * c.pulseLength / 4.0, tvg)
  }

  // ---------------------------------------------------------------- peak picking

  /** An unmasked sample strictly above the previous one and not below the next: `valid[1:-1] & (z[1:-1] > z[:-2]) & (z[1:-1] >= z[2:])`. */
  predicate IsCandidate(z: seq<Db>, k: nat) {
    1 <= k && k + 1 < |z| && Above(z[k], Sentinel) && Greater(z[k], z[k - 1]) && NotLess(z[k], z[k + 1])
  }

  /** `cand`: every candidate of the column. */
  function Candidates(z: seq<Db>): (cand: seq<nat>)
    ensures forall i | 0 <= i < |cand| :: IsCandidate(z, cand[i])
    ensures forall k: nat | IsCandidate(z, k) :: k in cand
  {
    Where(|z|, (k: nat) => IsCandidate(z, k))
  }

  /** The candidates come in increasing sample order. */
  lemma CandidatesIncreasing(z: seq<Db>)
    ensures Increasing(Candidates(z))
  {
    WhereIncreasing(|z|, (k: nat) => IsCandidate(z, k));
  }

  /** `last = -(10**9)` before the first candidate. */
  const NoPeakYet: int := -1000000000

  /** The greedy thinning `if k - last >= Np: keep.append(k); last = k`, run over `cand` from `last`. */
  function Separated(cand: seq<nat>, np: int, last: int): (keep: seq<nat>)
    ensures |keep| <= |cand|
    ensures |cand| > 0 && cand[0] - last >= np ==> |keep| > 0 && keep[0] == cand[0]
    decreases |cand|
  {
    if |cand| == 0 then []
    else
      var take := cand[0] - last >= np;
      (if take then [cand[0]] else []) + Separated(cand[1..], np, if take then cand[0] else last)
  }

  /** Thinning keeps only candidates. */
  lemma {:induction false} SeparatedKeepsCandidates(cand: seq<nat>, np: int, last: int)
    ensures forall i | 0 <= i < |Separated(cand, np, last)| :: Separated(cand, np, last)[i] in cand
    decreases |cand|
  {
    if |cand| > 0 {
      var take := cand[0] - last >= np;
      var rest := cand[1..];
      var next := if take then cand[0] else last;
      SeparatedKeepsCandidates(rest, np, next);
      var tail := Separated(rest, np, next);
      var keep := Separated(cand, np, last);
      assert keep == (if take then [cand[0]] else []) + tail;
      forall i | 0 <= i < |keep|
        ensures keep[i] in cand
      {
        if take && i == 0 {
        } else {
          var j := if take then i - 1 else i;
          assert keep[i] == tail[j] && tail[j] in rest;
        }
      }
    }
  }

  /** The thinning loop of `detect_esp3`. */
  method SeparateGreedy(cand: seq<nat>, np: int) returns (keep: seq<nat>)
    ensures keep == Separated(cand, np, NoPeakYet)
  {
    keep := [];
    var last := NoPeakYet;
    var rest := cand;
    while |rest| > 0
      invariant keep + Separated(rest, np, last) == Separated(cand, np, NoPeakYet)
    {
      var k := rest[0];
      if k - last >= np {
        assert keep + ([k] + Separated(rest[1..], np, k)) == (keep + [k]) + Separated(rest[1..], np, k);
        keep := keep + [k];
        last := k;
      }
      rest := rest[1..];
    }
  }

  /** Kept candidates stay in order and lie at least `np` apart, the first at least `np` past `last`. */
  lemma {:induction false} SeparatedSpacing(cand: seq<nat>, np: int, last: int)
    requires Increasing(cand) && np >= 1
    ensures var keep := Separated(cand, np, last);
      && (|keep| > 0 ==> keep[0] - last >= np)
      && (forall i, j | 0 <= i < j < |keep| :: keep[j] - keep[i] >= np)
    decreases |cand|
  {
    if |cand| > 0 {
      var rest := cand[1..];
      assert Increasing(rest);
      if cand[0] - last >= np {
        SeparatedSpacing(rest, np, cand[0]);
        var tail := Separated(rest, np, cand[0]);
        var keep := [cand[0]] + tail;
        forall i, j | 0 <= i < j < |keep|
          ensures keep[j] - keep[i] >= np
        {
          if i == 0 && j > 1 {
            assert tail[j - 1] - tail[0] >= np;
          }
        }
      } else {
        SeparatedSpacing(rest, np, last);
      }
    }
  }

  /** Candidate `c` lies less than `np` past one of the kept candidates before it. */
  predicate Suppressed(c: int, keep: seq<nat>, np: int) {
    exists j | 0 <= j < |keep| :: keep[j] < c && c - keep[j] < np
  }

  /**
    A candidate is dropped only when it lies less than `np` past `last` or less than `np`
    past a kept candidate before it.
  */
  lemma {:induction false} SeparatedDrops(cand: seq<nat>, np: int, last: int)
    requires Increasing(cand)
    ensures forall c | c in cand && c !in Separated(cand, np, last) ::
      c - last < np || Suppressed(c, Separated(cand, np, last), np)
    decreases |cand|
  {
    if |cand| > 0 {
      var rest := cand[1..];
      assert Increasing(rest);
      if cand[0] - last >= np {
        SeparatedDrops(rest, np, cand[0]);
        var tail := Separated(rest, np, cand[0]);
        var keep := [cand[0]] + tail;
        assert Separated(cand, np, last) == keep;
        forall c | c in cand && c !in keep
          ensures Suppressed(c, keep, np)
        {
          var m :| 0 <= m < |cand| && cand[m] == c;
          assert 0 < m && rest[m - 1] == c;
          if c - cand[0] < np {
            assert keep[0] < c;
          } else {
            var j :| 0 <= j < |tail| && tail[j] < c && c - tail[j] < np;
            assert keep[j + 1] == tail[j];
          }
        }
      } else {
        SeparatedDrops(rest, np, last);
        var keep := Separated(rest, np, last);
        assert Separated(cand, np, last) == keep;
        forall c | c in cand && c !in keep && c != cand[0]
          ensures c in rest
        {
          var m :| 0 <= m < |cand| && cand[m] == c;
          assert rest[m - 1] == c;
        }
      }
    }
  }

  /** The first candidate is kept exactly when it lies at least `np` past `last`. */
  lemma SeparatedFirst(cand: seq<nat>, np: int, last: int)
    requires Increasing(cand) && |cand| > 0
    ensures cand[0] in Separated(cand, np, last) <==> cand[0] - last >= np
  {
    if cand[0] - last < np {
      var tail := Separated(cand[1..], np, last);
      SeparatedKeepsCandidates(cand[1..], np, last);
      forall m | 0 <= m < |tail|
        ensures tail[m] != cand[0]
      {
        var j :| 0 <= j < |cand[1..]| && cand[1..][j] == tail[m];
        assert cand[j + 1] == tail[m];
      }
    }
  }

  // ---------------------------------------------------------------- PLDL envelope

  /** The left `while` loop that widens the echo: at most `max_len` samples at or above `thr`. */
  method ExpandLeft(z: seq<Db>, k: nat, thr: real, maxLen: nat) returns (left: nat)
    requires k < |z|
    ensures left == RunLeft(z, k, thr, maxLen)
  {
    left := 0;
    var i := k - 1;
    while i >= 0 && left < maxLen && AtLeast(z[i], thr)
      invariant left <= k && left <= maxLen && i == k - 1 - left
      invariant RunLeft(z, k, thr, maxLen) == left + RunLeft(z, k - left, thr, maxLen - left)
      decreases i
    {
      left := left + 1;
      i := i - 1;
    }
  }

  /** The right `while` loop that widens the echo. */
  method ExpandRight(z: seq<Db>, k: nat, thr: real, maxLen: nat) returns (right: nat)
    requires k < |z|
    ensures right == RunRight(z, k, thr, maxLen)
  {
    right := 0;
    var i := k + 1;
    while i < |z| && right < maxLen && AtLeast(z[i], thr)
      invariant k + right < |z| && right <= maxLen && i == k + 1 + right
      invariant RunRight(z, k, thr, maxLen) == right + RunRight(z, k + right, thr, maxLen - right)
      decreases |z| - i
    {
      right := right + 1;
      i := i + 1;
    }
  }

  // ---------------------------------------------------------------- one echo

  /**
    The body of `detect_esp3`'s `for k in keep` loop for the kept candidate `k` of a column `z` (TS, -999
    where masked) with depths `d`, at ping `ping` of a frame of `nTot` samples per ping:
    the TS gate, then the PLDL envelope, then the remaining gates.
  */
  function PeakTarget(z: seq<Db>, d: seq<Db>, k: nat, ping: int, time: int, nTot: int, s: Setup): (r: Option<Target>)
    requires k < |z| == |d| && SetupOk(s)
    ensures r.Some? ==> r.value.idxR == k && Above(z[k], s.tsThr)
  {
    if !Above(z[k], s.tsThr) then None
    else
      var thr := z[k].v - s.pldl;
      Gate(z, d, k, ping, time, nTot, s, RunLeft(z, k, thr, s.maxLen), RunRight(z, k, thr, s.maxLen))
  }

  /** The gates after the envelope is known: its length, its finite depths, the effective range and the TVG-corrected level. */
  function Gate(z: seq<Db>, d: seq<Db>, k: nat, ping: int, time: int, nTot: int, s: Setup, left: nat, right: nat): (r: Option<Target>)
    requires k < |z| == |d| && SetupOk(s) && z[k].Val?
    requires left <= k && k + right < |z|
    ensures r.Some? ==> r.value.idxR == k && r.value.before == left && r.value.after == right
  {
    var plen := 1 + left + right;
    if plen < s.minLen || plen > s.maxLen then None
    else
      var e := Extent(d, k - left, k + right + 1);
      if e.None? then None
      else
        var rMin := e.value.lo;
        var rMax := e.value.hi;
        var rPeak := if d[k].Val? then d[k].v else 0.5 * (rMin + rMax);
        var rEff := rPeak - s.halfPulse;
        if rEff <= 0.0 then None
        else
          var tsUncomp := z[k].v + s.tvg(rEff);
          if tsUncomp <= s.tsThr then None
          else
            Some(Target(tsUncomp, tsUncomp, rPeak, rPeak + s.halfPulse, rMin, rMax, k, ping, time,
                        ping * nTot + k, left, right, plen as real / s.np as real, plen))
  }

  /**
    What a record of `Gate` satisfies: it sits at sample `k` of `ping`; it is above the TS
    threshold after the TVG correction; its length lies between `min_len` and `max_len`; its
    range is the depth at the peak, or the midpoint of the extreme finite depths of the envelope
    when that depth is NaN, lies between those extremes and is above `c * T / 4`.
  */
  predicate GateOk(z: seq<Db>, d: seq<Db>, k: nat, ping: int, time: int, nTot: int, s: Setup, t: Target)
    requires k < |z| == |d| && SetupOk(s) && z[k].Val?
  {
    && t.idxR == k && t.ping == ping && t.time == time && t.idxLin == ping * nTot + k
    && t.tsComp == t.tsUncomp == z[k].v + s.tvg(t.range - s.halfPulse) && t.tsComp > s.tsThr
    && 0 <= t.before <= k && 0 <= t.after && k + t.after < |z|
    && t.pl == 1 + t.before + t.after && s.minLen <= t.pl <= s.maxLen
    && t.plNorm * s.np as real == t.pl as real
    && t.rangeMin <= t.range <= t.rangeMax
    && (d[k].Val? ==> t.range == d[k].v)
    && (d[k].NaN? ==> t.range == 0.5 * (t.rangeMin + t.rangeMax))
    && t.range > s.halfPulse && t.rangeDisp == t.range + s.halfPulse
    && (forall i | k - t.before <= i <= k + t.after && d[i].Val? :: t.rangeMin <= d[i].v <= t.rangeMax)
    && (exists i | k - t.before <= i <= k + t.after :: d[i] == Val(t.rangeMin))
    && (exists i | k - t.before <= i <= k + t.after :: d[i] == Val(t.rangeMax))
  }

  lemma GateSound(z: seq<Db>, d: seq<Db>, k: nat, ping: int, time: int, nTot: int, s: Setup, left: nat, right: nat)
    requires k < |z| == |d| && SetupOk(s) && z[k].Val?
    requires left <= k && k + right < |z|
    ensures var r := Gate(z, d, k, ping, time, nTot, s, left, right);
      r.Some? ==> GateOk(z, d, k, ping, time, nTot, s, r.value)
  {
    var r := Gate(z, d, k, ping, time, nTot, s, left, right);
    if r.Some? {
      var t := r.value;
      var lo, hi := k - left, k + right + 1;
      ExtentExact(d, lo, hi);
    }
  }

  /**
    What a recorded echo satisfies besides `GateOk`: the peak passed the TS gate, and the
    envelope stays within `PLDL` of the peak and stops where the next sample falls below
    that level or the `max_len` cap is reached.
  */
  predicate EnvelopeOk(z: seq<Db>, k: nat, s: Setup, t: Target)
    requires k < |z| && SetupOk(s)
  {
    && Above(z[k], s.tsThr)
    && 0 <= t.before <= k && 0 <= t.after && k + t.after < |z|
    && (forall i | k - t.before <= i <= k + t.after :: AtLeast(z[i], z[k].v - s.pldl))
    && (t.before < s.maxLen && t.before < k ==> !AtLeast(z[k - 1 - t.before], z[k].v - s.pldl))
    && (t.after < s.maxLen && k + t.after + 1 < |z| ==> !AtLeast(z[k + t.after + 1], z[k].v - s.pldl))
  }

  /** Every record `PeakTarget` produces satisfies `EnvelopeOk`. */
  lemma PeakEnvelopeSound(z: seq<Db>, d: seq<Db>, k: nat, ping: int, time: int, nTot: int, s: Setup)
    requires k < |z| == |d| && SetupOk(s)
    ensures var r := PeakTarget(z, d, k, ping, time, nTot, s);
      r.Some? ==> EnvelopeOk(z, k, s, r.value)
  {
    if Above(z[k], s.tsThr) {
      var thr := z[k].v - s.pldl;
      RunLeftExact(z, k, thr, s.maxLen);
      RunRightExact(z, k, thr, s.maxLen);
    }
  }

  /** Every record `PeakTarget` produces satisfies `GateOk`. */
  lemma PeakGateSound(z: seq<Db>, d: seq<Db>, k: nat, ping: int, time: int, nTot: int, s: Setup)
    requires k < |z| == |d| && SetupOk(s)
    ensures var r := PeakTarget(z, d, k, ping, time, nTot, s);
      r.Some? ==> GateOk(z, d, k, ping, time, nTot, s, r.value)
  {
    if Above(z[k], s.tsThr) {
      var thr := z[k].v - s.pldl;
      GateSound(z, d, k, ping, time, nTot, s, RunLeft(z, k, thr, s.maxLen), RunRight(z, k, thr, s.maxLen));
    }
  }

  // ---------------------------------------------------------------- one ping

  /** The records of the kept candidates `ks`, in order, for those that pass every gate. */
  function Collect(z: seq<Db>, d: seq<Db>, ks: seq<nat>, ping: int, time: int, nTot: int, s: Setup): (ts: seq<Target>)
    requires |z| == |d| && SetupOk(s) && forall i | 0 <= i < |ks| :: ks[i] < |z|
    ensures |ts| <= |ks|
    decreases |ks|
  {
    if |ks| == 0 then []
    else Collect(z, d, ks[..|ks| - 1], ping, time, nTot, s) + Recorded(PeakTarget(z, d, ks[|ks| - 1], ping, time, nTot, s))
  }

  /** Every collected record is the record of one of the candidates `ks`. */
  lemma {:induction false} CollectSound(z: seq<Db>, d: seq<Db>, ks: seq<nat>, ping: int, time: int, nTot: int, s: Setup)
    requires |z| == |d| && SetupOk(s) && forall i | 0 <= i < |ks| :: ks[i] < |z|
    ensures forall i | 0 <= i < |Collect(z, d, ks, ping, time, nTot, s)| ::
      && Collect(z, d, ks, ping, time, nTot, s)[i].idxR in ks
      && PeakTarget(z, d, Collect(z, d, ks, ping, time, nTot, s)[i].idxR, ping, time, nTot, s)
         == Some(Collect(z, d, ks, ping, time, nTot, s)[i])
    decreases |ks|
  {
    if |ks| > 0 {
      var init := ks[..|ks| - 1];
      CollectSound(z, d, init, ping, time, nTot, s);
      var prev := Collect(z, d, init, ping, time, nTot, s);
      var k := ks[|ks| - 1];
      var r := PeakTarget(z, d, k, ping, time, nTot, s);
      var ts := Collect(z, d, ks, ping, time, nTot, s);
      assert ts == prev + Recorded(r);
      forall i | 0 <= i < |ts|
        ensures ts[i].idxR in ks && PeakTarget(z, d, ts[i].idxR, ping, time, nTot, s) == Some(ts[i])
      {
        if i < |prev| {
          assert ts[i] == prev[i];
          var m :| 0 <= m < |init| && init[m] == prev[i].idxR;
          assert ks[m] == init[m];
        } else {
          assert ts[i] == r.value && r.value.idxR == k;
        }
      }
    }
  }

  /** One more kept candidate adds its record, if it has one. */
  lemma CollectStep(z: seq<Db>, d: seq<Db>, ks: seq<nat>, i: nat, ping: int, time: int, nTot: int, s: Setup)
    requires |z| == |d| && SetupOk(s) && forall j | 0 <= j < |ks| :: ks[j] < |z|
    requires i < |ks|
    ensures Collect(z, d, ks[..i + 1], ping, time, nTot, s)
         == Collect(z, d, ks[..i], ping, time, nTot, s) + Recorded(PeakTarget(z, d, ks[i], ping, time, nTot, s))
  {
    assert ks[..i + 1][..i] == ks[..i];
  }

  /** Records whose samples lie at least `np` apart, in increasing order. */
  predicate SpacedBy(ts: seq<Target>, np: int) {
    forall i, j | 0 <= i < j < |ts| :: ts[j].idxR - ts[i].idxR >= np
  }

  /** Records collected from candidates `np` apart lie `np` apart. */
  lemma {:induction false} CollectKeepsSpacing(z: seq<Db>, d: seq<Db>, ks: seq<nat>, ping: int, time: int, nTot: int, s: Setup)
    requires |z| == |d| && SetupOk(s) && forall i | 0 <= i < |ks| :: ks[i] < |z|
    requires forall i, j | 0 <= i < j < |ks| :: ks[j] - ks[i] >= s.np
    ensures SpacedBy(Collect(z, d, ks, ping, time, nTot, s), s.np)
    decreases |ks|
  {
    if |ks| > 0 {
      var init := ks[..|ks| - 1];
      CollectKeepsSpacing(z, d, init, ping, time, nTot, s);
      CollectSound(z, d, init, ping, time, nTot, s);
      var prev := Collect(z, d, init, ping, time, nTot, s);
      var r := PeakTarget(z, d, ks[|ks| - 1], ping, time, nTot, s);
      assert Collect(z, d, ks, ping, time, nTot, s) == prev + Recorded(r);
      if r.Some? {
        forall i | 0 <= i < |prev|
          ensures r.value.idxR - prev[i].idxR >= s.np
        {
          var m :| 0 <= m < |init| && init[m] == prev[i].idxR;
          assert ks[m] == init[m];
        }
        SpacedAppend(prev, r.value, s.np);
      }
    }
  }

  lemma SpacedAppend(prev: seq<Target>, t: Target, np: int)
    requires SpacedBy(prev, np)
    requires forall i | 0 <= i < |prev| :: t.idxR - prev[i].idxR >= np
    ensures SpacedBy(prev + [t], np)
  {
  }

  /** The kept candidates of a column: candidates thinned greedily to `np` apart. */
  function Kept(z: seq<Db>, np: int): (keep: seq<nat>)
    ensures forall i | 0 <= i < |keep| :: IsCandidate(z, keep[i]) && keep[i] < |z|
  {
    SeparatedKeepsCandidates(Candidates(z), np, NoPeakYet);
    Separated(Candidates(z), np, NoPeakYet)
  }

  /** The detections of one ping: nothing when the column has fewer than 3 samples. */
  function ColumnTargets(z: seq<Db>, d: seq<Db>, ping: int, time: int, nTot: int, s: Setup): (ts: seq<Target>)
    requires |z| == |d| && SetupOk(s)
    ensures |z| < 3 ==> ts == []
    ensures |ts| <= |Kept(z, s.np)| <= |Candidates(z)|
  {
    if |z| < 3 then [] else Collect(z, d, Kept(z, s.np), ping, time, nTot, s)
  }

  /** The body of `detect_esp3`'s `for k in keep` loop: the record of kept candidate `k`, or None where a gate says `continue`. */
  method MeasurePeak(z: seq<Db>, d: seq<Db>, k: nat, ping: int, time: int, nTot: int, s: Setup) returns (r: Option<Target>)
    requires k < |z| == |d| && SetupOk(s)
    ensures r == PeakTarget(z, d, k, ping, time, nTot, s)
  {
    if !Above(z[k], s.tsThr) {
      return None;
    }
    var pk := z[k].v;
    var thr := pk - s.pldl;
    var left := ExpandLeft(z, k, thr, s.maxLen);
    var right := ExpandRight(z, k, thr, s.maxLen);
    var plen := 1 + left + right;
    if plen < s.minLen || plen > s.maxLen {
      return None;
    }
    var e := Extent(d, k - left, k + right + 1);
    if e.None? {
      return None;
    }
    var rMin, rMax := e.value.lo, e.value.hi;
    var rPeak := if d[k].Val? then d[k].v else 0.5 * (rMin + rMax);
    var rEffPeak := rPeak - s.halfPulse;
    if rEffPeak <= 0.0 {
      return None;
    }
    var tsUncomp := pk + s.tvg(rEffPeak);
    var tsComp := tsUncomp;
    if tsComp <= s.tsThr {
      return None;
    }
    return Some(Target(tsComp, tsUncomp, rPeak, rPeak + s.halfPulse, rMin, rMax, k, ping, time,
                       ping * nTot + k, left, right, plen as real / s.np as real, plen));
  }

  /** The per-ping loop body of the CW branch, appending to `out` as it goes. */
  method DetectInColumn(z: seq<Db>, d: seq<Db>, ping: int, time: int, nTot: int, s: Setup, out: StStruct)
    requires |z| == |d| && SetupOk(s) && out.Valid()
    modifies out
    ensures out.Valid() && out.Targets() == old(out.Targets()) + ColumnTargets(z, d, ping, time, nTot, s)
    ensures out.Aside() == old(out.Aside()) && out.nbValidTargets == old(out.nbValidTargets)
  {
    if |z| < 3 {
      return;
    }
    var cand := Candidates(z);
    var keep := SeparateGreedy(cand, s.np);
    assert keep == Kept(z, s.np);
    RecordKept(z, d, keep, ping, time, nTot, s, out);
  }

  /** `for k in keep`: appends the record of every kept candidate that passes the gates. */
  method RecordKept(z: seq<Db>, d: seq<Db>, keep: seq<nat>, ping: int, time: int, nTot: int, s: Setup, out: StStruct)
    requires |z| == |d| && SetupOk(s) && out.Valid() && forall j | 0 <= j < |keep| :: keep[j] < |z|
    modifies out
    ensures out.Valid() && out.Targets() == old(out.Targets()) + Collect(z, d, keep, ping, time, nTot, s)
    ensures out.Aside() == old(out.Aside()) && out.nbValidTargets == old(out.nbValidTargets)
  {
    for i := 0 to |keep|
      invariant out.Valid() && out.Targets() == old(out.Targets()) + Collect(z, d, keep[..i], ping, time, nTot, s)
      invariant out.Aside() == old(out.Aside()) && out.nbValidTargets == old(out.nbValidTargets)
    {
      RecordNext(z, d, keep, i, ping, time, nTot, s, out, old(out.Targets()));
    }
    assert keep[..|keep|] == keep;
  }

  /** One pass of `for k in keep`, taking the records of the first `i` kept candidates to those of the first `i + 1`. */
  method RecordNext(z: seq<Db>, d: seq<Db>, keep: seq<nat>, i: nat, ping: int, time: int, nTot: int, s: Setup,
                    out: StStruct, ghost base: seq<Target>)
    requires |z| == |d| && SetupOk(s) && out.Valid() && i < |keep| && forall j | 0 <= j < |keep| :: keep[j] < |z|
    requires out.Targets() == base + Collect(z, d, keep[..i], ping, time, nTot, s)
    modifies out
    ensures out.Valid() && out.Targets() == base + Collect(z, d, keep[..i + 1], ping, time, nTot, s)
    ensures out.Aside() == old(out.Aside()) && out.nbValidTargets == old(out.nbValidTargets)
  {
    CollectStep(z, d, keep, i, ping, time, nTot, s);
    RecordOne(z, d, keep[i], ping, time, nTot, s, out);
  }

  /** The body of `for k in keep`: measures candidate `k` and appends its record if it passes. */
  method RecordOne(z: seq<Db>, d: seq<Db>, k: nat, ping: int, time: int, nTot: int, s: Setup, out: StStruct)
    requires |z| == |d| && SetupOk(s) && out.Valid() && k < |z|
    modifies out
    ensures out.Valid() && out.Targets() == old(out.Targets()) + Recorded(PeakTarget(z, d, k, ping, time, nTot, s))
    ensures out.Aside() == old(out.Aside()) && out.nbValidTargets == old(out.nbValidTargets)
  {
    var r := MeasurePeak(z, d, k, ping, time, nTot, s);
    if r.Some? {
      out.AppendEsp3(r.value);
    }
  }

  /** A ping's detections are records of candidates that pass every gate. */
  lemma ColumnTargetsGated(z: seq<Db>, d: seq<Db>, ping: int, time: int, nTot: int, s: Setup)
    requires |z| == |d| && SetupOk(s)
    ensures var ts := ColumnTargets(z, d, ping, time, nTot, s);
      forall i | 0 <= i < |ts| :: 0 <= ts[i].idxR && IsCandidate(z, ts[i].idxR)
        && PeakTarget(z, d, ts[i].idxR, ping, time, nTot, s) == Some(ts[i])
  {
    if |z| >= 3 {
      var keep := Kept(z, s.np);
      CollectSound(z, d, keep, ping, time, nTot, s);
      var ts := ColumnTargets(z, d, ping, time, nTot, s);
      forall i | 0 <= i < |ts|
        ensures 0 <= ts[i].idxR && IsCandidate(z, ts[i].idxR)
      {
        var b :| 0 <= b < |keep| && keep[b] == ts[i].idxR;
      }
    }
  }

  /**
    Every detection of a ping carries that ping, its time and `ping * nb_samples_tot + k`,
    and lies on a sample of the column whose level is above the TS threshold.
  */
  lemma ColumnTargetsTagged(z: seq<Db>, d: seq<Db>, ping: int, time: int, nTot: int, s: Setup)
    requires |z| == |d| && SetupOk(s)
    ensures var ts := ColumnTargets(z, d, ping, time, nTot, s);
      forall i | 0 <= i < |ts| ::
        && 0 <= ts[i].idxR < |z| && ts[i].ping == ping && ts[i].time == time
        && ts[i].idxLin == ping * nTot + ts[i].idxR && Above(z[ts[i].idxR], s.tsThr)
  {
    ColumnTargetsGated(z, d, ping, time, nTot, s);
    var ts := ColumnTargets(z, d, ping, time, nTot, s);
    forall i | 0 <= i < |ts|
      ensures 0 <= ts[i].idxR < |z| && ts[i].ping == ping && ts[i].time == time
      ensures ts[i].idxLin == ping * nTot + ts[i].idxR && Above(z[ts[i].idxR], s.tsThr)
    {
      var k: nat := ts[i].idxR;
      PeakGateSound(z, d, k, ping, time, nTot, s);
    }
  }

  /** A ping's detections lie at least `Np` samples apart, in increasing sample order. */
  lemma ColumnTargetsSpaced(z: seq<Db>, d: seq<Db>, ping: int, time: int, nTot: int, s: Setup)
    requires |z| == |d| && SetupOk(s)
    ensures SpacedBy(ColumnTargets(z, d, ping, time, nTot, s), s.np)
  {
    if |z| >= 3 {
      CandidatesIncreasing(z);
      SeparatedSpacing(Candidates(z), s.np, NoPeakYet);
      CollectKeepsSpacing(z, d, Kept(z, s.np), ping, time, nTot, s);
    }
  }

  /**
    A kept candidate suppresses every detection less than `Np` samples after it, even when it
    fails a later gate itself, because thinning runs before the gates.
  */
  lemma KeptSuppresses(z: seq<Db>, d: seq<Db>, ping: int, time: int, nTot: int, s: Setup)
    requires |z| == |d| && SetupOk(s)
    ensures var ts := ColumnTargets(z, d, ping, time, nTot, s);
      forall i, k | 0 <= i < |ts| && k in Kept(z, s.np) && k < ts[i].idxR :: ts[i].idxR - k >= s.np
  {
    if |z| >= 3 {
      var keep := Kept(z, s.np);
      CandidatesIncreasing(z);
      SeparatedSpacing(Candidates(z), s.np, NoPeakYet);
      CollectSound(z, d, keep, ping, time, nTot, s);
      var ts := ColumnTargets(z, d, ping, time, nTot, s);
      forall i, k | 0 <= i < |ts| && k in keep && k < ts[i].idxR
        ensures ts[i].idxR - k >= s.np
      {
        SpacedAfter(keep, s.np, k, ts[i].idxR);
      }
    }
  }

  /** In a list whose entries lie `np` apart in increasing order, a later entry is `np` past an earlier one. */
  lemma SpacedAfter(keep: seq<nat>, np: int, k: nat, m: nat)
    requires forall i, j | 0 <= i < j < |keep| :: keep[j] - keep[i] >= np
    requires np >= 1 && k in keep && m in keep && k < m
    ensures m - k >= np
  {
    var a :| 0 <= a < |keep| && keep[a] == k;
    var b :| 0 <= b < |keep| && keep[b] == m;
  }
}
