/**
  The detection output. The detectors keep one dictionary of parallel lists
  (`init_st_struct`), appends one entry per list for each accepted echo and finally
  stores the count in `nb_valid_targets`. A detection is also viewed as one `Target` record.
*/
module Detections {
  import opened Wrappers
  import opened Samples

  /** The fields every detector appends for an accepted echo. */
  datatype Target = Target(
    tsComp: real,
    tsUncomp: real,
    range: real,
    rangeDisp: real,
    rangeMin: real,
    rangeMax: real,
    idxR: int,
    ping: int,
    time: int,
    idxLin: int,
    before: int,
    after: int,
    plNorm: real,
    pl: int)

  /** Heave, roll, pitch, heading and distance at a ping (zero where the dataset has none). */
  datatype Attitude = Attitude(heave: Db, roll: Db, pitch: Db, heading: Db, dist: Db)

  /** A placeholder list: every entry NaN. */
  predicate AllNaN(s: seq<Db>) {
    forall i | 0 <= i < |s| :: s[i] == NaN
  }

  /** The parallel lists read as one record per index. */
  function Zip(c: seq<real>, u: seq<real>, r: seq<real>, rd: seq<real>, rmin: seq<real>, rmax: seq<real>,
               ir: seq<int>, p: seq<int>, tm: seq<int>, lin: seq<int>, b: seq<int>, a: seq<int>,
               pln: seq<real>, pl: seq<int>): (ts: seq<Target>)
    requires |u| == |c| && |r| == |c| && |rd| == |c| && |rmin| == |c| && |rmax| == |c| && |ir| == |c|
    requires |p| == |c| && |tm| == |c| && |lin| == |c| && |b| == |c| && |a| == |c| && |pln| == |c| && |pl| == |c|
    ensures |ts| == |c|
    ensures forall i | 0 <= i < |c| ::
      ts[i] == Target(c[i], u[i], r[i], rd[i], rmin[i], rmax[i], ir[i], p[i], tm[i], lin[i], b[i], a[i], pln[i], pl[i])
  {
    seq(|c|, i requires 0 <= i < |c| =>
      Target(c[i], u[i], r[i], rd[i], rmin[i], rmax[i], ir[i], p[i], tm[i], lin[i], b[i], a[i], pln[i], pl[i]))
  }

  lemma ZipAppend(c: seq<real>, u: seq<real>, r: seq<real>, rd: seq<real>, rmin: seq<real>, rmax: seq<real>,
                  ir: seq<int>, p: seq<int>, tm: seq<int>, lin: seq<int>, b: seq<int>, a: seq<int>,
                  pln: seq<real>, pl: seq<int>, t: Target)
    requires |u| == |c| && |r| == |c| && |rd| == |c| && |rmin| == |c| && |rmax| == |c| && |ir| == |c|
    requires |p| == |c| && |tm| == |c| && |lin| == |c| && |b| == |c| && |a| == |c| && |pln| == |c| && |pl| == |c|
    ensures Zip(c + [t.tsComp], u + [t.tsUncomp], r + [t.range], rd + [t.rangeDisp], rmin + [t.rangeMin],
                rmax + [t.rangeMax], ir + [t.idxR], p + [t.ping], tm + [t.time], lin + [t.idxLin],
                b + [t.before], a + [t.after], pln + [t.plNorm], pl + [t.pl])
            == Zip(c, u, r, rd, rmin, rmax, ir, p, tm, lin, b, a, pln, pl) + [t]
  {
  }

  /** The attitude lists read as one record per index. */
  function ZipAttitudes(h: seq<Db>, r: seq<Db>, p: seq<Db>, hd: seq<Db>, d: seq<Db>): (as_: seq<Attitude>)
    requires |r| == |h| && |p| == |h| && |hd| == |h| && |d| == |h|
    ensures |as_| == |h|
    ensures forall i | 0 <= i < |h| :: as_[i] == Attitude(h[i], r[i], p[i], hd[i], d[i])
  {
    seq(|h|, i requires 0 <= i < |h| => Attitude(h[i], r[i], p[i], hd[i], d[i]))
  }

  lemma ZipAttitudesAppend(h: seq<Db>, r: seq<Db>, p: seq<Db>, hd: seq<Db>, d: seq<Db>, x: Attitude)
    requires |r| == |h| && |p| == |h| && |hd| == |h| && |d| == |h|
    ensures ZipAttitudes(h + [x.heave], r + [x.roll], p + [x.pitch], hd + [x.heading], d + [x.dist])
            == ZipAttitudes(h, r, p, hd, d) + [x]
  {
  }

  class StStruct {
    var tsComp: seq<real>
    var tsUncomp: seq<real>
    var targetRange: seq<real>
    var targetRangeDisp: seq<real>
    var targetRangeMin: seq<real>
    var targetRangeMax: seq<real>
    var idxR: seq<int>
    var stdAnglesMinorAxis: seq<Db>
    var stdAnglesMajorAxis: seq<Db>
    var angleMinorAxis: seq<Db>
    var angleMajorAxis: seq<Db>
    var pingNumber: seq<int>
    var time: seq<int>
    var nbValidTargets: int
    var idxTargetLin: seq<int>
    var pulseEnvBeforeLin: seq<int>
    var pulseEnvAfterLin: seq<int>
    var pulseLengthNormalized: seq<real>
    var transmittedPulseLength: seq<int>
    var heave: seq<Db>
    var roll: seq<Db>
    var pitch: seq<Db>
    var heading: seq<Db>
    var dist: seq<Db>

    /** The lists that both detectors append to have one entry per detection. */
    ghost predicate Parallel()
      reads this
    {
      var n := |tsComp|;
      && |tsUncomp| == n && |targetRange| == n && |targetRangeDisp| == n
      && |targetRangeMin| == n && |targetRangeMax| == n && |idxR| == n
      && |pingNumber| == n && |time| == n && |idxTargetLin| == n
      && |pulseEnvBeforeLin| == n && |pulseEnvAfterLin| == n
      && |pulseLengthNormalized| == n && |transmittedPulseLength| == n
      && |stdAnglesMinorAxis| == n && |stdAnglesMajorAxis| == n
    }

    /** Both detectors append only NaN to the angle-spread lists. */
    ghost predicate Valid()
      reads this
    {
      Parallel() && AllNaN(stdAnglesMinorAxis) && AllNaN(stdAnglesMajorAxis)
    }

    /** Every list has one entry per detection, as the Matecho-style detector leaves them. */
    ghost predicate Complete()
      reads this
    {
      && Valid()
      && |angleMinorAxis| == |tsComp| && |angleMajorAxis| == |tsComp|
      && AllNaN(angleMinorAxis) && AllNaN(angleMajorAxis)
      && |heave| == |tsComp| && |roll| == |tsComp| && |pitch| == |tsComp|
      && |heading| == |tsComp| && |dist| == |tsComp|
    }

    /** The detections recorded so far, one record per index of the parallel lists. */
    ghost function Targets(): (ts: seq<Target>)
      reads this
      requires Parallel()
      ensures |ts| == |tsComp|
    {
      Zip(tsComp, tsUncomp, targetRange, targetRangeDisp, targetRangeMin, targetRangeMax, idxR,
          pingNumber, time, idxTargetLin, pulseEnvBeforeLin, pulseEnvAfterLin,
          pulseLengthNormalized, transmittedPulseLength)
    }

    /** The attitude lists, which only the Matecho-style detector fills. */
    ghost function Attitudes(): (as_: seq<Attitude>)
      reads this
      requires |roll| == |heave| && |pitch| == |heave| && |heading| == |heave| && |dist| == |heave|
      ensures |as_| == |heave|
    {
      ZipAttitudes(heave, roll, pitch, heading, dist)
    }

    /** The lists the ESP3-style detector never appends to: the peak angles and the attitude. */
    ghost function Aside(): seq<seq<Db>>
      reads this
    {
      [angleMinorAxis, angleMajorAxis, heave, roll, pitch, heading, dist]
    }

    /** `init_st_struct()`: every list empty and no valid target. */
    constructor ()
      ensures Complete() && Targets() == [] && Attitudes() == []
      ensures Aside() == [[], [], [], [], [], [], []]
      ensures nbValidTargets == 0
    {
      tsComp, tsUncomp, targetRange, targetRangeDisp := [], [], [], [];
      targetRangeMin, targetRangeMax, idxR := [], [], [];
      stdAnglesMinorAxis, stdAnglesMajorAxis, angleMinorAxis, angleMajorAxis := [], [], [], [];
      pingNumber, time, nbValidTargets, idxTargetLin := [], [], 0, [];
      pulseEnvBeforeLin, pulseEnvAfterLin, pulseLengthNormalized, transmittedPulseLength := [], [], [], [];
      heave, roll, pitch, heading, dist := [], [], [], [], [];
    }

    /** The appends of the ESP3-style detector: one record and two NaN spreads; the angle and attitude lists stay as they are. */
    method AppendEsp3(t: Target)
      requires Valid()
      modifies this
      ensures Valid() && Targets() == old(Targets()) + [t]
      ensures Aside() == old(Aside())
      ensures nbValidTargets == old(nbValidTargets)
    {
      ZipAppend(tsComp, tsUncomp, targetRange, targetRangeDisp, targetRangeMin, targetRangeMax, idxR,
                pingNumber, time, idxTargetLin, pulseEnvBeforeLin, pulseEnvAfterLin,
                pulseLengthNormalized, transmittedPulseLength, t);
      AppendCore(t);
    }

    /** The appends of the Matecho-style detector: one record, NaN spreads and angles, and the attitude of the ping. */
    method AppendMatecho(t: Target, a: Attitude)
      requires Complete()
      modifies this
      ensures Complete() && Targets() == old(Targets()) + [t]
      ensures Attitudes() == old(Attitudes()) + [a]
      ensures nbValidTargets == old(nbValidTargets)
    {
      ZipAttitudesAppend(heave, roll, pitch, heading, dist, a);
      ZipAppend(tsComp, tsUncomp, targetRange, targetRangeDisp, targetRangeMin, targetRangeMax, idxR,
                pingNumber, time, idxTargetLin, pulseEnvBeforeLin, pulseEnvAfterLin,
                pulseLengthNormalized, transmittedPulseLength, t);
      AppendCore(t);
      AppendAngles();
      AppendAttitude(a);
    }

    /** The appends both detectors make, list by list. */
    method AppendCore(t: Target)
      modifies this`tsComp, this`tsUncomp, this`stdAnglesMinorAxis, this`stdAnglesMajorAxis, this`targetRange, this`targetRangeDisp, this`targetRangeMin, this`targetRangeMax, this`idxR, this`pingNumber, this`time, this`idxTargetLin, this`pulseEnvBeforeLin, this`pulseEnvAfterLin, this`pulseLengthNormalized, this`transmittedPulseLength
      ensures tsComp == old(tsComp) + [t.tsComp]
      ensures tsUncomp == old(tsUncomp) + [t.tsUncomp]
      ensures stdAnglesMinorAxis == old(stdAnglesMinorAxis) + [NaN]
      ensures stdAnglesMajorAxis == old(stdAnglesMajorAxis) + [NaN]
      ensures targetRange == old(targetRange) + [t.range]
      ensures targetRangeDisp == old(targetRangeDisp) + [t.rangeDisp]
      ensures targetRangeMin == old(targetRangeMin) + [t.rangeMin]
      ensures targetRangeMax == old(targetRangeMax) + [t.rangeMax]
      ensures idxR == old(idxR) + [t.idxR]
      ensures pingNumber == old(pingNumber) + [t.ping]
      ensures time == old(time) + [t.time]
      ensures idxTargetLin == old(idxTargetLin) + [t.idxLin]
      ensures pulseEnvBeforeLin == old(pulseEnvBeforeLin) + [t.before]
      ensures pulseEnvAfterLin == old(pulseEnvAfterLin) + [t.after]
      ensures pulseLengthNormalized == old(pulseLengthNormalized) + [t.plNorm]
      ensures transmittedPulseLength == old(transmittedPulseLength) + [t.pl]
    {
      AppendLevels(t);
      AppendRanges(t);
      AppendPosition(t);
      AppendEnvelope(t);
    }

    method AppendAngles()
      modifies this`angleMinorAxis, this`angleMajorAxis
      ensures angleMinorAxis == old(angleMinorAxis) + [NaN]
      ensures angleMajorAxis == old(angleMajorAxis) + [NaN]
    {
      angleMinorAxis := angleMinorAxis + [NaN];
      angleMajorAxis := angleMajorAxis + [NaN];
    }

    method AppendAttitude(a: Attitude)
      modifies this`heave, this`roll, this`pitch, this`heading, this`dist
      ensures heave == old(heave) + [a.heave] && roll == old(roll) + [a.roll]
      ensures pitch == old(pitch) + [a.pitch] && heading == old(heading) + [a.heading]
      ensures dist == old(dist) + [a.dist]
    {
      heave, roll, pitch := heave + [a.heave], roll + [a.roll], pitch + [a.pitch];
      heading, dist := heading + [a.heading], dist + [a.dist];
    }

    /** Four of the lists at a time, so that each step stays small. */
    method AppendLevels(t: Target)
      modifies this`tsComp, this`tsUncomp, this`stdAnglesMinorAxis, this`stdAnglesMajorAxis
      ensures tsComp == old(tsComp) + [t.tsComp]
      ensures tsUncomp == old(tsUncomp) + [t.tsUncomp]
      ensures stdAnglesMinorAxis == old(stdAnglesMinorAxis) + [NaN]
      ensures stdAnglesMajorAxis == old(stdAnglesMajorAxis) + [NaN]
    {
      tsComp := tsComp + [t.tsComp];
      tsUncomp := tsUncomp + [t.tsUncomp];
      stdAnglesMinorAxis := stdAnglesMinorAxis + [NaN];
      stdAnglesMajorAxis := stdAnglesMajorAxis + [NaN];
    }

    method AppendRanges(t: Target)
      modifies this`targetRange, this`targetRangeDisp, this`targetRangeMin, this`targetRangeMax
      ensures targetRange == old(targetRange) + [t.range]
      ensures targetRangeDisp == old(targetRangeDisp) + [t.rangeDisp]
      ensures targetRangeMin == old(targetRangeMin) + [t.rangeMin]
      ensures targetRangeMax == old(targetRangeMax) + [t.rangeMax]
    {
      targetRange := targetRange + [t.range];
      targetRangeDisp := targetRangeDisp + [t.rangeDisp];
      targetRangeMin := targetRangeMin + [t.rangeMin];
      targetRangeMax := targetRangeMax + [t.rangeMax];
    }

    method AppendPosition(t: Target)
      modifies this`idxR, this`pingNumber, this`time, this`idxTargetLin
      ensures idxR == old(idxR) + [t.idxR]
      ensures pingNumber == old(pingNumber) + [t.ping]
      ensures time == old(time) + [t.time]
      ensures idxTargetLin == old(idxTargetLin) + [t.idxLin]
    {
      idxR := idxR + [t.idxR];
      pingNumber := pingNumber + [t.ping];
      time := time + [t.time];
      idxTargetLin := idxTargetLin + [t.idxLin];
    }

    method AppendEnvelope(t: Target)
      modifies this`pulseEnvBeforeLin, this`pulseEnvAfterLin, this`pulseLengthNormalized, this`transmittedPulseLength
      ensures pulseEnvBeforeLin == old(pulseEnvBeforeLin) + [t.before]
      ensures pulseEnvAfterLin == old(pulseEnvAfterLin) + [t.after]
      ensures pulseLengthNormalized == old(pulseLengthNormalized) + [t.plNorm]
      ensures transmittedPulseLength == old(transmittedPulseLength) + [t.pl]
    {
      pulseEnvBeforeLin := pulseEnvBeforeLin + [t.before];
      pulseEnvAfterLin := pulseEnvAfterLin + [t.after];
      pulseLengthNormalized := pulseLengthNormalized + [t.plNorm];
      transmittedPulseLength := transmittedPulseLength + [t.pl];
    }

    /** `out["nb_valid_targets"] = len(out["TS_comp"])`. */
    method Finalize()
      requires Parallel()
      modifies this`nbValidTargets
      ensures nbValidTargets == |Targets()|
      ensures Targets() == old(Targets()) && Aside() == old(Aside())
      ensures old(Valid()) ==> Valid()
      ensures old(Complete()) ==> Complete() && Attitudes() == old(Attitudes())
    {
      nbValidTargets := |tsComp|;
    }
  }

  /** What one kept candidate appends: its record, or nothing. */
  function Recorded(r: Option<Target>): (ts: seq<Target>)
    ensures |ts| == if r.Some? then 1 else 0
  {
    match r
    case None => []
    case Some(t) => [t]
  }

  /** Entry `i` of the attitude lists is the attitude of the ping of detection `i`, taken from `nav`. */
  predicate Tagged(ts: seq<Target>, as_: seq<Attitude>, nav: seq<Attitude>) {
    |as_| == |ts| && forall i {:trigger as_[i]} | 0 <= i < |ts| :: 0 <= ts[i].ping < |nav| && as_[i] == nav[ts[i].ping]
  }

  lemma TaggedAppend(ts: seq<Target>, as_: seq<Attitude>, nav: seq<Attitude>, t: Target)
    requires Tagged(ts, as_, nav) && 0 <= t.ping < |nav|
    ensures Tagged(ts + [t], as_ + [nav[t.ping]], nav)
  {
  }

  /** Sample `idxR` of ping `ping` in a frame of `nTot` samples per ping, at linear index `ping * nTot + idxR`. */
  predicate Indexed(t: Target, nTot: int) {
    0 <= t.idxR < nTot && 0 <= t.ping && t.idxLin == t.ping * nTot + t.idxR
  }

  /** Detections appear ping by ping and, within a ping, from the transducer outwards. */
  predicate InScanOrder(ts: seq<Target>) {
    forall i, j | 0 <= i < j < |ts| ::
      ts[i].ping < ts[j].ping || (ts[i].ping == ts[j].ping && ts[i].idxR < ts[j].idxR)
  }

  /** The linear index recovers the ping and the sample: `divmod(idx_target_lin, nb_samples_tot)`. */
  lemma LinearIndexDecodes(t: Target, nTot: int)
    requires Indexed(t, nTot)
    ensures t.idxLin / nTot == t.ping && t.idxLin % nTot == t.idxR
  {
    var x := t.idxLin;
    var q, r := x / nTot, x % nTot;
    assert x == q * nTot + r && 0 <= r < nTot;
    MulSub(q, t.ping, nTot);
    MulSub(t.ping, q, nTot);
    MulAtLeast(q - t.ping, nTot);
    MulAtLeast(t.ping - q, nTot);
  }

  lemma MulAtLeast(k: int, n: int)
    ensures k >= 1 && n >= 1 ==> k * n >= n
  {
    if k >= 1 && n >= 1 {
      assert k * n == (k - 1) * n + n;
      assert (k - 1) * n >= 0;
    }
  }

  lemma MulSub(x: int, y: int, n: int)
    ensures (x - y) * n == x * n - y * n
  {
  }

  /** Scan order is the order of the linear index. */
  lemma {:induction false} ScanOrderSortsLinearIndex(ts: seq<Target>, nTot: int)
    requires forall i | 0 <= i < |ts| :: Indexed(ts[i], nTot)
    requires InScanOrder(ts)
    ensures forall i, j | 0 <= i < j < |ts| :: ts[i].idxLin < ts[j].idxLin
  {
    forall i, j | 0 <= i < j < |ts|
      ensures ts[i].idxLin < ts[j].idxLin
    {
      var a, b := ts[i], ts[j];
      if a.ping < b.ping {
        MulAtLeast(b.ping - a.ping, nTot);
        MulSub(b.ping, a.ping, nTot);
      }
    }
  }

  /** Two records of the same ping lie at least `minSpace` samples apart. */
  predicate Spaced(ts: seq<Target>, minSpace: int) {
    forall i, j | 0 <= i < j < |ts| && ts[i].ping == ts[j].ping :: ts[j].idxR - ts[i].idxR >= minSpace
  }

  /** `InScanOrder` and `Spaced` together: a later record is on a later ping, or further out on the same ping by at least `minSpace`. */
  predicate Ordered(ts: seq<Target>, minSpace: int) {
    forall i, j | 0 <= i < j < |ts| ::
      || ts[i].ping < ts[j].ping
      || (ts[i].ping == ts[j].ping && ts[i].idxR < ts[j].idxR && ts[j].idxR - ts[i].idxR >= minSpace)
  }

  /** Every record of `ts` passes `ok` and belongs to a ping in `lo .. hi-1`, and they are `Ordered`. */
  predicate RecordsOf(ts: seq<Target>, lo: int, hi: int, ok: Target -> bool, minSpace: int) {
    && (forall i | 0 <= i < |ts| :: ok(ts[i]) && lo <= ts[i].ping < hi)
    && Ordered(ts, minSpace)
  }

  /** Records of pings `lo .. mid-1` followed by records of pings `mid .. hi-1` are records of pings `lo .. hi-1`. */
  lemma RecordsConcat(a: seq<Target>, c: seq<Target>, lo: int, mid: int, hi: int, ok: Target -> bool, minSpace: int)
    requires lo <= mid <= hi && RecordsOf(a, lo, mid, ok, minSpace) && RecordsOf(c, mid, hi, ok, minSpace)
    ensures RecordsOf(a + c, lo, hi, ok, minSpace)
  {
    var ac := a + c;
    forall i | 0 <= i < |ac|
      ensures ok(ac[i]) && lo <= ac[i].ping < hi
    {
      if i < |a| {
        assert ac[i] == a[i];
      } else {
        assert ac[i] == c[i - |a|];
      }
    }
    forall i, j | 0 <= i < j < |ac|
      ensures || ac[i].ping < ac[j].ping
              || (ac[i].ping == ac[j].ping && ac[i].idxR < ac[j].idxR && ac[j].idxR - ac[i].idxR >= minSpace)
    {
      if j < |a| {
        assert ac[i] == a[i] && ac[j] == a[j];
      } else if i >= |a| {
        assert ac[i] == c[i - |a|] && ac[j] == c[j - |a|];
      } else {
        assert ac[i] == a[i] && ac[j] == c[j - |a|];
      }
    }
  }

  /** Records of pings `lo .. hi-1` are records of any wider range of pings; there are none when the range is empty. */
  lemma RecordsWiden(ts: seq<Target>, lo: int, hi: int, lo': int, hi': int, ok: Target -> bool, minSpace: int)
    requires RecordsOf(ts, lo, hi, ok, minSpace) && (hi <= lo || (lo' <= lo && hi <= hi'))
    ensures RecordsOf(ts, lo', hi', ok, minSpace)
  {
  }

  /** `Ordered` records are in scan order and spaced within each ping. */
  lemma OrderedScan(ts: seq<Target>, minSpace: int)
    requires Ordered(ts, minSpace)
    ensures InScanOrder(ts) && Spaced(ts, minSpace)
  {
  }
}
