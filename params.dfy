/**
  Detection parameters: the default tables of both detectors, the merge of the caller's
  dictionary over them, the range checks of the ESP3-style detector and the conversion
  of the merged dictionary into the numbers the detectors use.
*/
module Params {
  import opened Wrappers

  /** A value in the caller's parameter dictionary. `Data` is an array-like value such as `bottom_da`. */
  datatype Value = Num(x: real) | Text(s: string) | Null | Data

  type Dict = map<string, Value>

  datatype ConfigError =
    | ParamsRequired
    | ChannelRequired
    | OnlyCW
    | TSThresholdOutOfRange
    | PLDLOutOfRange
    | MinNormPLOutOfRange
    | MaxNormPLOutOfRange
    | BlockLenNotPositive
    | MissingKey(key: string)
    | NotANumber(key: string)

  /** Keys that route data to the detector and are never merged into the parameters. */
  const RoutingKeys: set<string> := {"channel", "bottom_da"}

  /** The `DEFAULTS` table of the ESP3-style detector. */
  const Esp3Defaults: Dict := map[
    "SoundSpeed" := Num(1500.0),
    "TS_threshold" := Num(-50.0),
    "PLDL" := Num(6.0),
    "MinNormPL" := Num(0.7),
    "MaxNormPL" := Num(1.5),
    "DataType" := Text("CW"),
    "block_len" := Num(10000000.0 / 3.0)]

  /** The `MATECHO_DEFAULTS` table; the two 7-degree beamwidths are the float64 values of `np.deg2rad(7.0)`. */
  const MatechoDefaults: Dict := map[
    "SoundSpeed" := Num(1500.0),
    "TS_threshold" := Num(-50.0),
    "MaxAngleOneWayCompression" := Num(6.0),
    "MinEchoLength" := Num(0.8),
    "MaxEchoLength" := Num(1.8),
    "MinEchoSpace" := Num(1.0),
    "MinEchoDepthM" := Num(3.0),
    "MaxEchoDepthM" := Num(38.0),
    "tvg_start_sample" := Num(3.0),
    "block_len" := Num(10000000.0 / 3.0),
    "beamwidth_along_3dB_rad" := Num(0.12217304763960307),
    "beamwidth_athwart_3dB_rad" := Num(0.12217304763960307),
    "steer_along_rad" := Num(0.0),
    "steer_athwart_rad" := Num(0.0),
    "psi_two_way" := Num(0.0),
    "Sa_correction" := Num(0.0),
    "Sa_EK80_nominal" := Num(0.0)]

  /** `p` is `{**defaults, **{k: v for k, v in params.items() if k not in RoutingKeys}}`. */
  ghost predicate MergedFrom(p: Dict, defaults: Dict, params: Dict) {
    && p.Keys == defaults.Keys + (params.Keys - RoutingKeys)
    && (forall k | k in params && k !in RoutingKeys :: p[k] == params[k])
    && (forall k | k in defaults && (k !in params || k in RoutingKeys) :: p[k] == defaults[k])
  }

  function Merge(defaults: Dict, params: Dict): (p: Dict)
    ensures MergedFrom(p, defaults, params)
  {
    defaults + map k | k in params && k !in RoutingKeys :: params[k]
  }

  /** `params.get("channel")` is None. */
  predicate ChannelMissing(params: Dict) {
    "channel" !in params || params["channel"] == Null
  }

  /** `d.get(key, default)`. */
  function Get(d: Dict, key: string, default: Value): Value {
    if key in d then d[key] else default
  }

  /** `float(p[key])`: a `KeyError` for a missing key, an error for a value that is not a number. */
  function Number(p: Dict, key: string): (r: Result<real, ConfigError>)
    ensures r.Success? <==> key in p && p[key].Num?
    ensures r.Success? ==> r.value == p[key].x
  {
    if key !in p then Failure(MissingKey(key))
    else if p[key].Num? then Success(p[key].x)
    else Failure(NotANumber(key))
  }

  /** `float(p.get("pulse_length", 1e-3))`. */
  function PulseLength(p: Dict): (r: Result<real, ConfigError>)
    ensures "pulse_length" !in p ==> r == Success(0.001)
    ensures "pulse_length" in p ==> (r.Success? <==> p["pulse_length"].Num?)
  {
    if "pulse_length" in p then Number(p, "pulse_length") else Success(0.001)
  }

  /** Python's `int(x)` on a float: truncation toward zero. */
  function Trunc(x: real): (n: int)
    ensures x >= 0.0 ==> n as real <= x < n as real + 1.0
    ensures x < 0.0 ==> n as real - 1.0 < x <= n as real
  {
    if x >= 0.0 then x.Floor else -((-x).Floor)
  }

  /** `math.ceil(x)`. */
  function Ceil(x: real): (n: int)
    ensures n as real - 1.0 < x <= n as real
  {
    -((-x).Floor)
  }

  /**
    The caller's `Np`, if any: `"Np" in p and p["Np"] is not None` gives `int(p["Np"])`,
    which fails on a value that is not a number.
  */
  function NpParam(p: Dict): (r: Result<Option<int>, ConfigError>)
    ensures r.Failure? <==> "Np" in p && p["Np"] != Null && !p["Np"].Num?
    ensures r.Success? && r.value.Some? ==> "Np" in p && p["Np"].Num? && r.value.value == Trunc(p["Np"].x)
  {
    if "Np" !in p || p["Np"] == Null then Success(None)
    else if p["Np"].Num? then Success(Some(Trunc(p["Np"].x)))
    else Failure(NotANumber("Np"))
  }

  // ---------------------------------------------------------------- ESP3-style detector

  /** What `_validate_params` accepts, as one condition. */
  predicate Esp3Valid(p: Dict) {
    && Get(p, "DataType", Text("CW")) == Text("CW")
    && "TS_threshold" in p && p["TS_threshold"].Num? && -120.0 <= p["TS_threshold"].x <= -20.0
    && "PLDL" in p && p["PLDL"].Num? && 1.0 <= p["PLDL"].x <= 30.0
    && "MinNormPL" in p && p["MinNormPL"].Num? && 0.0 <= p["MinNormPL"].x <= 10.0
    && "MaxNormPL" in p && p["MaxNormPL"].Num? && 0.0 <= p["MaxNormPL"].x <= 10.0
    && "block_len" in p && p["block_len"].Num? && p["block_len"].x > 0.0
  }

  /** `_validate_params`: the checks in their written order; the first that fails is the error. */
  function ValidateEsp3(p: Dict): (r: Result<(), ConfigError>)
    ensures r.Success? <==> Esp3Valid(p)
    ensures r == Failure(OnlyCW) <==> Get(p, "DataType", Text("CW")) != Text("CW")
  {
    if Get(p, "DataType", Text("CW")) != Text("CW") then Failure(OnlyCW)
    else
      var ts :- Number(p, "TS_threshold");
      if !(-120.0 <= ts <= -20.0) then Failure(TSThresholdOutOfRange)
      else
        var pldl :- Number(p, "PLDL");
        if !(1.0 <= pldl <= 30.0) then Failure(PLDLOutOfRange)
        else
          var minNorm :- Number(p, "MinNormPL");
          if !(0.0 <= minNorm <= 10.0) then Failure(MinNormPLOutOfRange)
          else
            var maxNorm :- Number(p, "MaxNormPL");
            if !(0.0 <= maxNorm <= 10.0) then Failure(MaxNormPLOutOfRange)
            else
              var blockLen :- Number(p, "block_len");
              if blockLen <= 0.0 then Failure(BlockLenNotPositive) else Success(())
  }

  /** The numbers the ESP3-style detector reads from its merged, validated parameters. */
  datatype Esp3Config = Esp3Config(
    soundSpeed: real,
    tsThreshold: real,
    pldl: real,
    minNormPL: real,
    maxNormPL: real,
    blockLen: real,
    pulseLength: real,
    npParam: Option<int>)

  /** The configuration ranges that `_validate_params` guarantees. */
  predicate Esp3InRange(c: Esp3Config) {
    && -120.0 <= c.tsThreshold <= -20.0
    && 1.0 <= c.pldl <= 30.0
    && 0.0 <= c.minNormPL <= 10.0
    && 0.0 <= c.maxNormPL <= 10.0
    && c.blockLen > 0.0
  }

  /**
    The parameter handling of `detect_esp3`: a missing params dict counts as empty, a missing
    channel raises, the defaults are merged and validated, then the sound speed, the
    caller's `Np` and the pulse duration are read. A success holds exactly the numbers read
    from the merged dictionary.
  */
  function ParseEsp3(params: Option<Dict>): (r: Result<Esp3Config, ConfigError>)
    ensures params.None? ==> r == Failure(ChannelRequired)
    ensures params.Some? && ChannelMissing(params.value) ==> r == Failure(ChannelRequired)
    ensures params.Some? && !ChannelMissing(params.value) && !Esp3Valid(Merge(Esp3Defaults, params.value)) ==>
              r == ValidateEsp3(Merge(Esp3Defaults, params.value)).PropagateFailure()
    ensures r.Success? <==>
      && params.Some? && !ChannelMissing(params.value)
      && var p := Merge(Esp3Defaults, params.value);
         Esp3Valid(p) && Number(p, "SoundSpeed").Success? && NpParam(p).Success? && PulseLength(p).Success?
    ensures r.Success? ==> Esp3InRange(r.value)
    ensures r.Success? ==> params.Some?
    ensures r.Success? ==>
      var p := Merge(Esp3Defaults, params.value);
      && Number(p, "SoundSpeed") == Success(r.value.soundSpeed)
      && Number(p, "TS_threshold") == Success(r.value.tsThreshold)
      && Number(p, "PLDL") == Success(r.value.pldl)
      && Number(p, "MinNormPL") == Success(r.value.minNormPL)
      && Number(p, "MaxNormPL") == Success(r.value.maxNormPL)
      && Number(p, "block_len") == Success(r.value.blockLen)
      && NpParam(p) == Success(r.value.npParam)
      && PulseLength(p) == Success(r.value.pulseLength)
  {
    var given := if params.Some? then params.value else map[];
    if ChannelMissing(given) then Failure(ChannelRequired)
    else
      var p := Merge(Esp3Defaults, given);
      var _ :- ValidateEsp3(p);
      var c :- Number(p, "SoundSpeed");
      var np :- NpParam(p);
      var t :- PulseLength(p);
      Success(Esp3Config(c, p["TS_threshold"].x, p["PLDL"].x, p["MinNormPL"].x, p["MaxNormPL"].x,
                         p["block_len"].x, t, np))
  }

  /** The default ESP3 table passes `_validate_params`. */
  lemma Esp3DefaultsValid()
    ensures ValidateEsp3(Esp3Defaults).Success?
  {
    assert Esp3Valid(Esp3Defaults);
  }

  /**
    Python's `round(x)`: the nearest integer, ties to the even one. It is evaluated on the
    exact value of `x`, not on its float64 approximation.
  */
  function RoundHalfEven(x: real): (n: int)
    ensures n as real - 0.5 <= x <= n as real + 0.5
    ensures (x == n as real - 0.5 || x == n as real + 0.5) ==> n % 2 == 0
  {
    var fl := x.Floor;
    var frac := x - fl as real;
    if frac < 0.5 then fl
    else if frac > 0.5 then fl + 1
    else if fl % 2 == 0 then fl
    else fl + 1
  }

  /** `max(3, int(round(T / dt)))`, given the rounded ratio. */
  function SamplesPerPulse(rounded: int): (n: int)
    ensures n >= 3 && n >= rounded
    ensures rounded >= 3 ==> n == rounded
  {
    if rounded > 3 then rounded else 3
  }

  /** The pulse length in samples: the caller's `Np` when it exceeds 2, else the one derived from the pulse duration. */
  function ChooseNp(npParam: Option<int>, rounded: int): (np: int)
    ensures np >= 3
    ensures npParam.Some? && npParam.value > 2 ==> np == npParam.value
    ensures !(npParam.Some? && npParam.value > 2) ==> np == SamplesPerPulse(rounded)
  {
    if npParam.Some? && npParam.value > 2 then npParam.value else SamplesPerPulse(rounded)
  }

  /** `min_len = max(1, int(Np * MinNormPL))`. */
  function MinLen(np: int, minNormPL: real): (n: int)
    requires np >= 0 && minNormPL >= 0.0
    ensures n >= 1
    ensures np as real * minNormPL >= 1.0 ==> n as real <= np as real * minNormPL < n as real + 1.0
    ensures np as real * minNormPL < 1.0 ==> n == 1
  {
    var t := Trunc(np as real * minNormPL);
    if t > 1 then t else 1
  }

  /** `max_len = max(1, int(math.ceil(Np * MaxNormPL)))`. */
  function MaxLen(np: int, maxNormPL: real): (n: int)
    ensures n >= 1
    ensures np as real * maxNormPL > 0.0 ==> n as real - 1.0 < np as real * maxNormPL <= n as real
    ensures np as real * maxNormPL <= 0.0 ==> n == 1
  {
    var c := Ceil(np as real * maxNormPL);
    if c > 1 then c else 1
  }

  // ---------------------------------------------------------------- Matecho-style detector

  /**
    The start of `detect_matecho`: `params` is required, so is its channel; the result is the
    defaults overridden by every caller key except the routing keys. Nothing is range-checked.
  */
  function ParseMatecho(params: Option<Dict>): (r: Result<Dict, ConfigError>)
    ensures params.None? ==> r == Failure(ParamsRequired)
    ensures params.Some? && ChannelMissing(params.value) ==> r == Failure(ChannelRequired)
    ensures params.Some? && !ChannelMissing(params.value) ==> r.Success? && MergedFrom(r.value, MatechoDefaults, params.value)
  {
    if params.None? then Failure(ParamsRequired)
    else if ChannelMissing(params.value) then Failure(ChannelRequired)
    else Success(Merge(MatechoDefaults, params.value))
  }

  /** The beam pattern: the 3 dB beam widths and the steering angles along and athwart ship, in radians. */
  datatype Beam = Beam(bwAlong: real, bwAthwart: real, steerAlong: real, steerAthwart: real)

  /** The numbers the Matecho-style detector reads from its merged parameters. */
  datatype MatechoConfig = MatechoConfig(
    soundSpeed: real,
    tsThreshold: real,
    pulseLength: real,
    maxAngleOneWay: real,
    minEchoLength: real,
    maxEchoLength: real,
    minEchoSpace: real,
    minEchoDepth: real,
    maxEchoDepth: real,
    blockLen: real,
    npParam: Option<int>,
    beam: Beam)

  /** The keys `detect_matecho` reads with `float(...)` or `int(...)`, besides `pulse_length` and `Np`. */
  const MatechoNumberKeys: set<string> := {
    "SoundSpeed", "TS_threshold", "psi_two_way", "Sa_correction", "Sa_EK80_nominal", "block_len",
    "tvg_start_sample", "MaxAngleOneWayCompression", "MinEchoLength", "MaxEchoLength", "MinEchoSpace",
    "MinEchoDepthM", "MaxEchoDepthM", "beamwidth_along_3dB_rad", "beamwidth_athwart_3dB_rad",
    "steer_along_rad", "steer_athwart_rad"}

  /**
    Every `float(...)` and `int(...)` conversion `detect_matecho` applies to its parameters,
    in the order it applies them; the first value that is not a number is the error. A
    success holds exactly the numbers read.
  */
  function MatechoSettings(p: Dict): (r: Result<MatechoConfig, ConfigError>)
    ensures r.Success? <==>
      (forall k | k in MatechoNumberKeys :: Number(p, k).Success?) && PulseLength(p).Success? && NpParam(p).Success?
    ensures r.Failure? ==> r.error.NotANumber? || r.error.MissingKey?
    ensures r.Success? ==>
      && Number(p, "SoundSpeed") == Success(r.value.soundSpeed)
      && Number(p, "TS_threshold") == Success(r.value.tsThreshold)
      && PulseLength(p) == Success(r.value.pulseLength)
      && NpParam(p) == Success(r.value.npParam)
      && Number(p, "block_len") == Success(r.value.blockLen)
      && Number(p, "MaxAngleOneWayCompression") == Success(r.value.maxAngleOneWay)
      && Number(p, "MinEchoLength") == Success(r.value.minEchoLength)
      && Number(p, "MaxEchoLength") == Success(r.value.maxEchoLength)
      && Number(p, "MinEchoSpace") == Success(r.value.minEchoSpace)
      && Number(p, "MinEchoDepthM") == Success(r.value.minEchoDepth)
      && Number(p, "MaxEchoDepthM") == Success(r.value.maxEchoDepth)
      && Number(p, "beamwidth_along_3dB_rad") == Success(r.value.beam.bwAlong)
      && Number(p, "beamwidth_athwart_3dB_rad") == Success(r.value.beam.bwAthwart)
      && Number(p, "steer_along_rad") == Success(r.value.beam.steerAlong)
      && Number(p, "steer_athwart_rad") == Success(r.value.beam.steerAthwart)
  {
    var c :- Number(p, "SoundSpeed");
    var tsThreshold :- Number(p, "TS_threshold");
    var t :- PulseLength(p);
    var np :- NpParam(p);
    var _ :- Number(p, "psi_two_way");
    var _ :- Number(p, "Sa_correction");
    var _ :- Number(p, "Sa_EK80_nominal");
    var blockLen :- Number(p, "block_len");
    var _ :- Number(p, "tvg_start_sample");
    var maxAngle :- Number(p, "MaxAngleOneWayCompression");
    var minEchoLength :- Number(p, "MinEchoLength");
    var maxEchoLength :- Number(p, "MaxEchoLength");
    var minEchoSpace :- Number(p, "MinEchoSpace");
    var minDepth :- Number(p, "MinEchoDepthM");
    var maxDepth :- Number(p, "MaxEchoDepthM");
    var bwAlong :- Number(p, "beamwidth_along_3dB_rad");
    var bwAthwart :- Number(p, "beamwidth_athwart_3dB_rad");
    var steerAlong :- Number(p, "steer_along_rad");
    var steerAthwart :- Number(p, "steer_athwart_rad");
    Success(MatechoConfig(c, tsThreshold, t, maxAngle, minEchoLength, maxEchoLength, minEchoSpace,
                          minDepth, maxDepth, blockLen, np, Beam(bwAlong, bwAthwart, steerAlong, steerAthwart)))
  }

}
