# Single-target detection in echograms

This project models echopype's two single-target detectors for split-beam echosounder data
(`echopype/mask/single_target_detection`). Both detectors take one channel's Sv echogram, its
depth matrix, an optional bottom line and a parameter dictionary. Both return the same
dictionary of parallel lists: one entry per accepted echo, plus the count
`nb_valid_targets`. The model proves properties of both detectors in Dafny.

- **ESP3-style detector** (`detect_esp3.py`, CW branch only):
  - The parameters are merged over the defaults and validated.
  - The pings are cut into blocks sized by `block_len`. Each block keeps the rows down to its
    deepest bottom sample, writes `-999` into every cell at or under the bottom, and is skipped
    when nothing is left above `-999`. Otherwise it is trimmed after its last row that still
    holds signal.
  - In each ping's column, the local maxima are thinned greedily to at least `Np` samples
    apart.
  - Each kept peak above the TS threshold is widened while the level stays within `PLDL` dB,
    by at most `max_len` samples per side.
  - A peak is recorded when the pulse length lies within `[min_len, max_len]`, the depth
    segment has a finite sample, the effective range is positive and the TVG-corrected level
    is above the threshold.
- **Matecho-style detector** (`detect_matecho.py`):
  - The same block loop builds `tsu`, `Plike` and the beam-compensated `ts` over each block,
    and sets them to NaN at and under the bottom.
  - The range `R = clip(depth - (TD + heave), 0)` is computed per cell.
  - In each ping's column, the peaks of `Plike` past the first 8 samples are scanned in order.
    A peak is kept when its compensated TS is above the threshold and its compensation is at
    most twice the one-way limit. Its 6 dB width must give an echo length within the bounds,
    it must lie at least `MinEchoSpace` pulse lengths from every echo kept before it, and its
    depth must be inside the depth band.
  - Every kept echo is recorded with its range extent and the attitude of its ping.

The modules follow the structure of `detect_esp3` and `detect_matecho`:

| module | role |
|---|---|
| `Samples` | float cells, where NaN stands for every non-finite value |
| `Params` | defaults, merging, validation and derived lengths |
| `Indices` | `np.where`, `nanmin`/`nanmax` of a segment |
| `Envelope` | the widening loops |
| `Masking` | bottom indices, row crop, in-place masking |
| `Frames` | the echogram and its row counts |
| `Blocks` | the block split, with Python's slice semantics |
| `Detections` | the output dictionary as a class of parallel lists, and the `Target` record view |
| `Esp3`, `Matecho` | the per-ping searches |
| `Esp3Detector`, `MatechoDetector` | the block loops and the top-level detectors |

Each detector has two levels:

- **Specification functions** (`FrameTargets`) say what the records are.
- **Methods** (`DetectEsp3`, `DetectMatecho`) build the output as `detect_esp3` and `detect_matecho` do, with arrays
  for the block masks and an `StStruct` object whose lists are appended in place. Their
  postconditions tie the object to the specification.

Soundness lemmas (`FrameSound`) then state what every record means in terms of the input frame.

## Model

| member | source | states |
|---|---|---|
| Params.Merge | echopype/mask/single_target_detection/detect_esp3.py:84-85 | The merged dictionary has exactly the default keys plus the caller's keys other than `channel` and `bottom_da`. A caller's value overrides the default. |
| Params.Number | echopype/mask/single_target_detection/detect_matecho.py:64-65 | Reading a parameter as a float succeeds exactly when the key is present and holds a number, and it yields that number. |
| Params.PulseLength | echopype/mask/single_target_detection/detect_esp3.py:230 | An absent `pulse_length` gives 0.001 s. A present one is read when it is a number and is refused otherwise. |
| Params.Trunc | echopype/mask/single_target_detection/detect_esp3.py:244 | `int()` of a float truncates toward zero, for both signs. |
| Params.Ceil | echopype/mask/single_target_detection/detect_esp3.py:245 | `math.ceil` is the least integer not below its argument. |
| Params.NpParam | echopype/mask/single_target_detection/detect_esp3.py:228-229 | Reading `Np` fails exactly when it is present, not None and not a number. When it is present and a number, its value is `int(Np)`. |
| Params.ValidateEsp3 | echopype/mask/single_target_detection/detect_esp3.py:53-65 | Validation succeeds exactly when every range check passes. It fails with the CW-only error exactly when `DataType` is not "CW". |
| Params.ParseEsp3 | echopype/mask/single_target_detection/detect_esp3.py:77-87 | Missing parameters or a missing channel fail with "channel required". Otherwise invalid merged parameters fail with the validation error. Parsing succeeds exactly when the merged parameters are valid and `SoundSpeed`, `Np` and `pulse_length` can be read. A success holds the in-range numbers read from the merged dictionary: the sound speed, TS threshold, `PLDL`, `MinNormPL`, `MaxNormPL`, `block_len`, the caller's `Np` and the pulse length. |
| Params.Esp3DefaultsValid | echopype/mask/single_target_detection/detect_esp3.py:7-20 | The ESP3 defaults pass validation. |
| Params.RoundHalfEven | echopype/mask/single_target_detection/detect_matecho.py:134 | Python's `round` gives the nearest integer, and a tie goes to the even one. |
| Params.SamplesPerPulse | echopype/mask/single_target_detection/detect_matecho.py:174 | `max(3, round(T / dt))` is at least 3 and at least the rounded value. It equals the rounded value once that reaches 3. |
| Params.ChooseNp | echopype/mask/single_target_detection/detect_matecho.py:131-134 | `Np` is the caller's value when that exceeds 2, and otherwise the samples per pulse. It is always at least 3. |
| Params.MinLen | echopype/mask/single_target_detection/detect_esp3.py:244 | `min_len` is at least 1. It equals `int(Np * MinNormPL)` whenever that is at least 1. |
| Params.MaxLen | echopype/mask/single_target_detection/detect_esp3.py:245 | `max_len` is at least 1. It equals `ceil(Np * MaxNormPL)` whenever that is positive. |
| Params.ParseMatecho | echopype/mask/single_target_detection/detect_matecho.py:52-63 | Missing parameters and a missing channel fail with their own errors. Otherwise the result is the merge over the Matecho defaults. |
| Params.MatechoSettings | echopype/mask/single_target_detection/detect_matecho.py:213-225 | Reading succeeds exactly when every numeric parameter the detector reads is present and a number, and `pulse_length` and `Np` can be read. A failure is a missing key or a value that is not a number. A success holds each number as read: sound speed, TS threshold, pulse length, `Np`, `block_len`, the angle limit, both echo-length bounds, `MinEchoSpace`, the depth band, both beam widths and both steering angles. |
| Samples.Plus | echopype/mask/single_target_detection/detect_matecho.py:286 | A sum is finite exactly when both operands are finite. |
| Samples.Minus | echopype/mask/single_target_detection/detect_matecho.py:120 | A difference is finite exactly when both operands are finite. |
| Indices.Where | echopype/mask/single_target_detection/detect_esp3.py:360 | `np.where` lists exactly the indices below `n` that satisfy the condition. |
| Indices.WhereIncreasing | echopype/mask/single_target_detection/detect_esp3.py:360 | `np.where` lists its indices in increasing order. |
| Indices.WhereFirstIsLeast | echopype/mask/single_target_detection/detect_esp3.py:277-278 | When some index satisfies the condition, the first listed index is the least such index. |
| Indices.LastWhere | echopype/mask/single_target_detection/detect_esp3.py:331-332 | The result is the last index that satisfies the condition, or -1 when none does. |
| Indices.MaxInt | echopype/mask/single_target_detection/detect_esp3.py:136 | The maximum of a non-empty list is one of its elements and no element exceeds it. |
| Indices.Extent | echopype/mask/single_target_detection/detect_esp3.py:392-398 | When a segment has finite values, its minimum is at most its maximum. |
| Indices.ExtentExact | echopype/mask/single_target_detection/detect_esp3.py:392-398 | A window has no extent exactly when every sample in it is NaN. Otherwise the bounds enclose every finite sample of the window and both are attained. |
| Envelope.RunLeft | echopype/mask/single_target_detection/detect_esp3.py:376-380 | The left run never exceeds the cap or the samples before the peak. |
| Envelope.RunRight | echopype/mask/single_target_detection/detect_esp3.py:381-385 | The right run never exceeds the cap or the samples after the peak. |
| Envelope.RunLeftExact | echopype/mask/single_target_detection/detect_esp3.py:376-380 | Every sample of the left run is finite and at or above the threshold. The run stops at the cap, at the first sample or before a NaN or lower sample. |
| Envelope.RunRightExact | echopype/mask/single_target_detection/detect_esp3.py:381-385 | Every sample of the right run is finite and at or above the threshold. The run stops at the cap, at the last sample or before a NaN or lower sample. |
| Masking.UnderIndices | echopype/mask/single_target_detection/detect_esp3.py:277 | The result is exactly the samples whose depth is finite and at or under the bottom, and the first of them is the least. |
| Masking.FirstUnder | echopype/mask/single_target_detection/detect_esp3.py:277-278 | The result is the first sample at or under the bottom. When no sample is, it is the last sample. No earlier sample is under. |
| Masking.BottomIndexList | echopype/mask/single_target_detection/detect_esp3.py:275-278 | Entry `k` is the first under-bottom index of ping `lo + k`. |
| Masking.BottomIndices | echopype/mask/single_target_detection/detect_esp3.py:275-278 | The loop fills a fresh array with exactly those indices. |
| Masking.CropRows | echopype/mask/single_target_detection/detect_esp3.py:280 | The crop never keeps more rows than there are. |
| Masking.CropKeepsLeadingRows | echopype/mask/single_target_detection/detect_esp3.py:280 | `idx_r[idx_r <= max_idx]` is the prefix `0 .. CropRows - 1`. |
| Masking.DeeperSamplesAreUnder | echopype/mask/single_target_detection/detect_esp3.py:132-133 | When depth increases down the ping, every sample past the first under-bottom one is under the bottom too. |
| Masking.Fill | echopype/mask/single_target_detection/detect_esp3.py:326 | `TS[mask] = v` sets exactly the masked cells to `v` and leaves the others unchanged. |
| Masking.ColumnOfCells | echopype/mask/single_target_detection/detect_esp3.py:353 | `TS[:, jp]` holds cell `(r, jp)` at every row `r`. |
| Frames.GlobalRows | echopype/mask/single_target_detection/detect_esp3.py:122-137 | Without a bottom, every sample is kept. With one, the count is one more than the deepest first-under-bottom index: every ping's index lies below it and one ping attains it. |
| Frames.GlobalRowCount | echopype/mask/single_target_detection/detect_esp3.py:128-137 | The loop over the pings computes that row count. |
| Frames.BlockRows | echopype/mask/single_target_detection/detect_esp3.py:270-280 | A block never keeps more rows than the global crop. |
| Frames.BlockRowCount | echopype/mask/single_target_detection/detect_esp3.py:271-280 | The loop over the block's pings computes the block's row count. |
| Frames.BlockRowsReachBlockBottom | echopype/mask/single_target_detection/detect_esp3.py:275-280 | Every ping of the block has its first under-bottom index inside the block's rows, and one ping attains the last row. |
| Frames.BlockRowsAtBlockMax | echopype/mask/single_target_detection/detect_esp3.py:279-280 | The block's row count is `nanmax(idx_bot) + 1` over the block's pings. |
| Frames.BlockBottomWithinGlobal | echopype/mask/single_target_detection/detect_esp3.py:279-280 | The block's deepest bottom index lies within the globally kept rows. |
| Frames.CropDropsOnlyUnderBottom | echopype/mask/single_target_detection/detect_esp3.py:280 | For a ping whose depth increases, every row the block crop drops is under that ping's bottom. |
| Frames.MarkUnderBottom | echopype/mask/single_target_detection/detect_esp3.py:321-323 | `mask \|= DEP >= bcol` sets each cell to its old value or "at or under the bottom". |
| Blocks.BlockSize | echopype/mask/single_target_detection/detect_esp3.py:149-150 | The block size is at most the ping count, and at least 1 when `block_len` is positive and there are pings. Below the ping count it is the ceiling of `block_len / cells_per_ping`. |
| Blocks.CeilDiv | echopype/mask/single_target_detection/detect_esp3.py:151 | `ceil(a / b)` is the least `q` with `a <= q * b`. |
| Blocks.SliceIndex | echopype/mask/single_target_detection/detect_matecho.py:230 | A Python slice bound lies in `0 .. n` and equals the bound itself when that already lies there. |
| Blocks.BlockPings | echopype/mask/single_target_detection/detect_matecho.py:228-230 | A block's pings form an interval within the ping range. |
| Blocks.RegularBlock | echopype/mask/single_target_detection/detect_esp3.py:266-268 | For a positive block size, block `ui` runs from `ui * bs` to `min((ui + 1) * bs, n)`, both clipped to `n`. |
| Blocks.BlocksPartitionPings | echopype/mask/single_target_detection/detect_esp3.py:264-268 | The `num_ite` blocks are non-empty and adjacent. They cover the pings from 0 to the last one, and each holds `bs` pings except possibly the last. |
| Blocks.PingInOneBlock | echopype/mask/single_target_detection/detect_esp3.py:264-268 | Each ping lies in exactly one block, block `p / bs`. |
| Blocks.BlocksInOrder | echopype/mask/single_target_detection/detect_esp3.py:264-268 | The pings of an earlier block precede those of a later block. |
| Blocks.NonPositiveBlockSizeSkipsLastPing | echopype/mask/single_target_detection/detect_matecho.py:168-169 | When a non-positive `block_len` makes the block size 0 or negative, no block contains the last ping. |
| Blocks.LaterBlocksEmpty | echopype/mask/single_target_detection/detect_matecho.py:227-230 | With a non-positive block size, every block after the first is empty. |
| Blocks.Esp3BlockCount | echopype/mask/single_target_detection/detect_esp3.py:151 | `num_ite` is 0 for a non-positive block size, and otherwise the fewest blocks of `bs` pings that cover every ping. |
| Blocks.MatechoBlockCount | echopype/mask/single_target_detection/detect_matecho.py:169 | `num_ite` is the ping count when the block size is at most 1, and otherwise the fewest blocks of `bs` pings that cover every ping. |
| Blocks.ColumnsSound | echopype/mask/single_target_detection/detect_esp3.py:352 | For either detector, when every per-ping search yields records of its own ping that are `Ordered`, the ping loop over the first `j` pings of a block yields records of those pings, `Ordered`. |
| Detections.StStruct.constructor | echopype/mask/single_target_detection/detect_esp3.py:23-50 | Every list starts empty and the count starts at 0. |
| Detections.StStruct.AppendEsp3 | echopype/mask/single_target_detection/detect_esp3.py:437-456 | An ESP3 record adds exactly one entry to each list the ESP3 detector writes, with NaN angle spreads. The angle and attitude lists and the count are unchanged. |
| Detections.StStruct.AppendMatecho | echopype/mask/single_target_detection/detect_matecho.py:361-387 | A Matecho record adds exactly one entry to every list, including NaN angles and the ping's attitude. The count is unchanged. |
| Detections.StStruct.AppendCore | echopype/mask/single_target_detection/detect_matecho.py:361-379 | Each list the two detectors share gets the record's field appended. |
| Detections.StStruct.AppendAngles | echopype/mask/single_target_detection/detect_matecho.py:380-381 | The two angle lists each get NaN appended. |
| Detections.StStruct.AppendAttitude | echopype/mask/single_target_detection/detect_matecho.py:383-387 | The five attitude lists get heave, roll, pitch, heading and distance appended. |
| Detections.StStruct.AppendLevels | echopype/mask/single_target_detection/detect_esp3.py:437-438 | The TS lists get the record's levels appended, and the angle-spread lists get NaN. |
| Detections.StStruct.AppendRanges | echopype/mask/single_target_detection/detect_esp3.py:439-442 | The four range lists get the record's ranges appended. |
| Detections.StStruct.AppendPosition | echopype/mask/single_target_detection/detect_esp3.py:444-447 | The sample index, ping number, time and linear index are appended. |
| Detections.StStruct.AppendEnvelope | echopype/mask/single_target_detection/detect_esp3.py:449-452 | The envelope sides and the pulse lengths are appended. |
| Detections.StStruct.Finalize | echopype/mask/single_target_detection/detect_esp3.py:478 | `nb_valid_targets` becomes the number of records, and every list is unchanged. |
| Detections.TaggedAppend | echopype/mask/single_target_detection/detect_matecho.py:383-387 | Appending a record together with its ping's attitude keeps every attitude entry equal to its record's ping attitude. |
| Detections.LinearIndexDecodes | echopype/mask/single_target_detection/detect_esp3.py:447 | `idx_target_lin` decodes back to the ping and sample: `// nb_samples_tot` gives the ping and `% nb_samples_tot` the sample. |
| Detections.ScanOrderSortsLinearIndex | echopype/mask/single_target_detection/detect_esp3.py:447 | Records in scan order have strictly increasing linear indices. |
| Esp3.SetupOf | echopype/mask/single_target_detection/detect_esp3.py:228-245 | The search settings take `Np` from the caller or the pulse duration, the TS threshold and `PLDL` as validated. `min_len` is `MinLen(Np, MinNormPL)`, `max_len` is `MaxLen(Np, MaxNormPL)`, the block budget is `block_len` and the range offset is `c * T / 4`. They satisfy the bounds the search relies on. |
| Esp3.Candidates | echopype/mask/single_target_detection/detect_esp3.py:358-360 | The candidates are exactly the unmasked samples above the previous sample and not below the next. |
| Esp3.CandidatesIncreasing | echopype/mask/single_target_detection/detect_esp3.py:358-360 | The candidates come in increasing sample order. |
| Esp3.SeparatedKeepsCandidates | echopype/mask/single_target_detection/detect_esp3.py:362-367 | Thinning keeps only candidates. |
| Esp3.SeparateGreedy | echopype/mask/single_target_detection/detect_esp3.py:363-367 | The greedy loop computes `Separated` from `last = -10**9`. |
| Esp3.SeparatedSpacing | echopype/mask/single_target_detection/detect_esp3.py:362-367 | Kept candidates lie at least `Np` apart, and the first lies at least `Np` past `last`. |
| Esp3.SeparatedDrops | echopype/mask/single_target_detection/detect_esp3.py:362-367 | A candidate is dropped only when it is less than `Np` past `last` or past an earlier kept candidate. |
| Esp3.SeparatedFirst | echopype/mask/single_target_detection/detect_esp3.py:364-367 | The first candidate is kept if and only if it lies at least `Np` past `last`. |
| Esp3.ExpandLeft | echopype/mask/single_target_detection/detect_esp3.py:376-380 | The loop computes the left run of the peak. |
| Esp3.ExpandRight | echopype/mask/single_target_detection/detect_esp3.py:381-385 | The loop computes the right run of the peak. |
| Esp3.PeakTarget | echopype/mask/single_target_detection/detect_esp3.py:369-373 | A peak gives a record only when its level is finite and above the TS threshold, and that record is at the peak's sample. |
| Esp3.Gate | echopype/mask/single_target_detection/detect_esp3.py:387-410 | A record carries the peak's sample and the envelope sides it was given. |
| Esp3.GateSound | echopype/mask/single_target_detection/detect_esp3.py:387-452 | A gated record satisfies `GateOk`: its levels are the peak plus TVG at `r_peak - c T / 4` and lie above the threshold, and its pulse length is within the bounds. Its normalised length is `plen / Np`, its range bounds are the extreme finite depths of the segment. Its range `r_peak` is the depth at the peak, or the midpoint of those bounds when that depth is NaN, and it is positive after subtracting `c T / 4`. It carries the ping, time and linear index. |
| Esp3.PeakEnvelopeSound | echopype/mask/single_target_detection/detect_esp3.py:370-385 | The envelope of a record stays within `PLDL` of the peak. On each side it stops at `max_len` or before a sample that is NaN or lower. |
| Esp3.PeakGateSound | echopype/mask/single_target_detection/detect_esp3.py:369-452 | Every record built for a peak satisfies `GateOk`, including `r_peak` as the depth at the peak or, when that depth is NaN, the midpoint of the range bounds. |
| Esp3.Collect | echopype/mask/single_target_detection/detect_esp3.py:369 | There are no more records than kept candidates. |
| Esp3.Separated | echopype/mask/single_target_detection/detect_esp3.py:362-367 | Thinning keeps at most as many entries as there are candidates, and keeps the first candidate when it lies at least `Np` past `last`. `SeparatedSpacing`, `SeparatedDrops` and `SeparatedFirst` characterise it fully. |
| Esp3.ColumnTargets | echopype/mask/single_target_detection/detect_esp3.py:352-456 | A column shorter than 3 samples has no detections. Otherwise there are no more detections than kept candidates, nor kept candidates than candidates. `ColumnTargetsGated`, `ColumnTargetsTagged` and `ColumnTargetsSpaced` say what each detection is. |
| Esp3.CollectSound | echopype/mask/single_target_detection/detect_esp3.py:369-452 | Every collected record is the record of one of the kept candidates. |
| Esp3.CollectKeepsSpacing | echopype/mask/single_target_detection/detect_esp3.py:369 | Records of candidates at least `Np` apart are at least `Np` apart, in order. |
| Esp3.Kept | echopype/mask/single_target_detection/detect_esp3.py:358-367 | Every kept index is a candidate inside the column. |
| Esp3.MeasurePeak | echopype/mask/single_target_detection/detect_esp3.py:370-410 | The loop body computes the peak's record, or none when a gate rejects the peak. |
| Esp3.RecordOne | echopype/mask/single_target_detection/detect_esp3.py:370-456 | The output gains exactly the peak's record, if any. |
| Esp3.RecordKept | echopype/mask/single_target_detection/detect_esp3.py:369-456 | The output gains exactly the records of the kept candidates, in order. |
| Esp3.RecordNext | echopype/mask/single_target_detection/detect_esp3.py:369-456 | One pass of the loop takes the output from the records of the first `i` kept candidates to those of the first `i + 1`. |
| Esp3.DetectInColumn | echopype/mask/single_target_detection/detect_esp3.py:353-456 | The output gains exactly the column's detections. Columns shorter than 3 add nothing. |
| Esp3.ColumnTargetsGated | echopype/mask/single_target_detection/detect_esp3.py:358-456 | Each detection of a column sits on a candidate and is that candidate's record. |
| Esp3.ColumnTargetsTagged | echopype/mask/single_target_detection/detect_esp3.py:369-447 | Each detection carries the ping, its time and `ping * nb_samples_tot + k`, and lies on a sample above the threshold. |
| Esp3.ColumnTargetsSpaced | echopype/mask/single_target_detection/detect_esp3.py:362-369 | The detections of a column are in increasing sample order and at least `Np` samples apart. |
| Esp3.KeptSuppresses | echopype/mask/single_target_detection/detect_esp3.py:362-373 | A kept candidate suppresses detections less than `Np` after it even when it fails a later gate itself, because thinning runs before the gates. |
| Esp3Detector.MaskedCell | echopype/mask/single_target_detection/detect_esp3.py:321-326 | A masked cell above -999 is above the bottom and equals its Sv. |
| Esp3Detector.MaskedColumnCells | echopype/mask/single_target_detection/detect_esp3.py:353 | A ping's column holds the masked cell at every row. |
| Esp3Detector.BlockLastRow | echopype/mask/single_target_detection/detect_esp3.py:327-332 | The last row with signal lies within the block's rows, or is -1 when the block is skipped. |
| Esp3Detector.LastSignalRow | echopype/mask/single_target_detection/detect_esp3.py:331-332 | On the block matrix, the result is the last row holding a cell above -999, or -1 when there is none. |
| Esp3Detector.SignalRowsAgree | echopype/mask/single_target_detection/detect_esp3.py:327-332 | Computed on the masked block matrix, that row is the one the frame defines. |
| Esp3Detector.ColumnOfMasked | echopype/mask/single_target_detection/detect_esp3.py:353 | Column `jp` of the block matrix is the masked column of ping `lo + jp`. |
| Esp3Detector.ColumnSound | echopype/mask/single_target_detection/detect_esp3.py:352-456 | Each record of a ping is `Detected` on that ping, and the records are `Ordered`: in increasing sample order and at least `Np` apart. |
| Esp3Detector.BlockSound | echopype/mask/single_target_detection/detect_esp3.py:264-456 | A block's records are detections of its pings, `Ordered` with spacing `Np`. |
| Esp3Detector.BlocksSound | echopype/mask/single_target_detection/detect_esp3.py:264-268 | The records of the first `u` blocks are detections of their pings, `Ordered` with spacing `Np`. |
| Esp3Detector.FrameTargets | echopype/mask/single_target_detection/detect_esp3.py:264-456 | The records of the block loop, block after block; `FrameSound` states what they are. |
| Esp3Detector.FrameSound | echopype/mask/single_target_detection/detect_esp3.py:264-479 | Every record is `Detected`: a real ping and sample above the bottom, with the ping's time and linear index, whose Sv is above the threshold. On the ping's masked column the sample is a candidate peak, its envelope stays within `PLDL` and stops at `max_len` or a lower or NaN sample (`EnvelopeOk`), and it passes every gate of `GateOk`, with `r_peak` the depth at the peak or, when that is NaN, the midpoint of the envelope's extreme finite depths. The records come ping by ping from the transducer outwards, records of one ping lie at least `Np` samples apart, and `idx_target_lin` strictly increases. |
| Esp3Detector.EnvelopeAvoidsMask | echopype/mask/single_target_detection/detect_esp3.py:373-387 | With validated parameters, a detection's envelope lies inside the column and never reaches a cell at or under the bottom: each envelope sample is the unmasked Sv, at least the peak's Sv minus `PLDL`. |
| Esp3Detector.FrameEnvelopesAvoidMask | echopype/mask/single_target_detection/detect_esp3.py:264-456 | No envelope of any of the frame's detections reaches a cell at or under the bottom. |
| Esp3Detector.DetectEsp3 | echopype/mask/single_target_detection/detect_esp3.py:68-479 | On a frame with at least one ping, the detector fails exactly when parsing fails, with the same error (apart from the zero `SoundSpeed` noted under "## Left out"). On success, a fresh output holds exactly the frame's detections, and its count equals their number. |
| Esp3Detector.DetectBlock | echopype/mask/single_target_detection/detect_esp3.py:270-456 | A block adds exactly its detections and nothing when it is skipped. |
| Esp3Detector.ScanBlock | echopype/mask/single_target_detection/detect_esp3.py:270-332 | The block matrix has the block's row count and holds the masked cells, and the last row with signal is returned. |
| Esp3Detector.MaskBlock | echopype/mask/single_target_detection/detect_esp3.py:283-326 | The block's TS matrix, with an under-bottom mask built in place, holds exactly the masked cells. |
| Esp3Detector.DetectColumns | echopype/mask/single_target_detection/detect_esp3.py:352 | The loop over a block's pings adds their detections in ping order. |
| Esp3Detector.DetectColumn | echopype/mask/single_target_detection/detect_esp3.py:353-356 | One more column's detections are appended. |
| Esp3Detector.DetectPing | echopype/mask/single_target_detection/detect_esp3.py:353-456 | A ping's trimmed column adds exactly its detections. |
| Matecho.SetupOf | echopype/mask/single_target_detection/detect_matecho.py:174-219 | The setup takes `NechP` as the samples per pulse. The echo-length bounds and the spacing are `NechP` times their parameters, rounded to within 0.5 (`SetupOfRoundsHalfEven` gives the exact half-to-even value). The thresholds, depth band and `block_len` are taken as read, and the displayed-range offset is `c * T / 4`. |
| Matecho.SetupOfRoundsHalfEven | echopype/mask/single_target_detection/detect_matecho.py:338-342 | `round(NechP * MinEchoLen)`, `round(NechP * MaxEchoLen)` and `int(round(MinEchoSpace * NechP))` are `RoundHalfEven` of the products: the nearest integer, with a tie going to the even one. |
| Matecho.SetupOfTieGoesToEven | echopype/mask/single_target_detection/detect_matecho.py:338 | With `NechP = 5` and `MinEchoLength = 0.5` the lower echo-length bound is 2, as Python's `round(2.5)` gives. |
| Matecho.Peaks | echopype/mask/single_target_detection/detect_matecho.py:314-316 | The result is exactly the samples from index 8 on that are finite, strictly above the previous and not below the next, with both neighbours finite. |
| Matecho.IsPeak | echopype/mask/single_target_detection/detect_matecho.py:313-316 | A peak lies inside the column with both of its neighbours finite, so a NaN cell is never next to a peak. |
| Matecho.PeaksIncreasing | echopype/mask/single_target_detection/detect_matecho.py:314-316 | The peaks come in increasing sample order. |
| Matecho.MinGapExact | echopype/mask/single_target_detection/detect_matecho.py:342 | `MinGap` is the least distance from `k` to a kept echo, and it is attained. |
| Matecho.NearestKept | echopype/mask/single_target_detection/detect_matecho.py:342 | The loop computes that least distance. |
| Matecho.DepthAt | echopype/mask/single_target_detection/detect_matecho.py:346 | The depth of a peak is finite exactly when its range and the ping's heave are finite. |
| Matecho.Judge | echopype/mask/single_target_detection/detect_matecho.py:319-350 | A kept peak has a finite compensated TS above the threshold. Its record is at that sample and ping. |
| Matecho.Width | echopype/mask/single_target_detection/detect_matecho.py:335-350 | A kept peak is in the depth band and far enough from every kept echo. Its record carries the widths it was given. |
| Matecho.Record | echopype/mask/single_target_detection/detect_matecho.py:353-376 | A record carries the peak's sample, the ping and the two widths. |
| Matecho.Scan | echopype/mask/single_target_detection/detect_matecho.py:318-350 | Every kept index is one of the peaks scanned. |
| Matecho.PingDetections | echopype/mask/single_target_detection/detect_matecho.py:305-387 | A ping whose `Plike` column has no finite cell has no detections, and no ping has more detections than peaks. `PingDetectionsSound` says what each detection is. |
| Matecho.RecordExtended | echopype/mask/single_target_detection/detect_matecho.py:353-366 | A kept peak always gets a record, because its own range is finite. Its range bounds are the extreme finite ranges of its echo. |
| Matecho.WidthGated | echopype/mask/single_target_detection/detect_matecho.py:319-371 | A record passed the TS, compensation and depth gates. It carries the peak's levels, range, displayed range, time and linear index. |
| Matecho.SixDbRuns | echopype/mask/single_target_detection/detect_matecho.py:326-334 | The widening loops stop exactly at the 6 dB width. Every sample inside is finite and within 6 dB of the peak, and the neighbour outside on each side is missing, NaN or lower. |
| Matecho.WidthShaped | echopype/mask/single_target_detection/detect_matecho.py:335-339 | A record's echo length is `before + after + 1`, lies within the bounds, and is normalised by `NechP`. |
| Matecho.KeptIsAccepted | echopype/mask/single_target_detection/detect_matecho.py:319-387 | Every kept peak has a record that is `Accepted`, that is gated, shaped and extended. |
| Matecho.KeptIsSpaced | echopype/mask/single_target_detection/detect_matecho.py:341-343 | A kept peak lies at least `MinEchoSpace * NechP` samples from every echo kept before it. |
| Matecho.ScanKeeps | echopype/mask/single_target_detection/detect_matecho.py:318-350 | Kept peaks come in increasing order. |
| Matecho.ScanRecords | echopype/mask/single_target_detection/detect_matecho.py:350-387 | There is one record per kept peak, and record `i` is the one `Judge` gives for kept peak `i` against the peaks kept before it. |
| Matecho.PingDetectionsSound | echopype/mask/single_target_detection/detect_matecho.py:305-387 | Every record of a ping is `Accepted`. The records are in increasing sample order and at least the minimum spacing apart. |
| Matecho.WidenLeft | echopype/mask/single_target_detection/detect_matecho.py:328-330 | The loop stops at `k` minus the left 6 dB run. |
| Matecho.WidenRight | echopype/mask/single_target_detection/detect_matecho.py:331-334 | The loop stops at `k` plus the right 6 dB run. |
| Matecho.Consider | echopype/mask/single_target_detection/detect_matecho.py:319-350 | The loop body reaches the outcome `Judge` specifies. |
| Matecho.ConsiderWidth | echopype/mask/single_target_detection/detect_matecho.py:335-350 | The rest of the body reaches the outcome `Width` specifies. |
| Matecho.Measure | echopype/mask/single_target_detection/detect_matecho.py:353-376 | The recorded fields are the ones `Record` specifies. |
| Matecho.DetectInPing | echopype/mask/single_target_detection/detect_matecho.py:305-387 | The loop over a ping's peaks appends exactly the ping's detections, each with the ping's attitude. |
| Matecho.ConsiderAndRecord | echopype/mask/single_target_detection/detect_matecho.py:319-387 | One peak advances the kept list and the output as the scan specifies, and keeps the attitudes tagged. |
| Matecho.ScanNext | echopype/mask/single_target_detection/detect_matecho.py:319-387 | One pass of the loop takes the kept list and the output from the scan of the first `i` peaks to that of the first `i + 1`. |
| MatechoDetector.OneWayComp | echopype/mask/single_target_detection/detect_matecho.py:290-293 | The compensation is finite exactly when both angles are finite and both beam widths are non-zero. It is 0 on the steering axis. |
| MatechoDetector.Clip | echopype/mask/single_target_detection/detect_matecho.py:121 | `clip(min=0)` keeps NaN, keeps non-negative values and raises negative values to 0. |
| MatechoDetector.Comp | echopype/mask/single_target_detection/detect_matecho.py:290-295 | Without both angle matrices, the compensation is 0. |
| MatechoDetector.Raw | echopype/mask/single_target_detection/detect_matecho.py:283-297 | A finite `ts`, `tsu` or `Plike` cell needs a finite Sv and gain. Without both angle matrices, `ts` is `Sv + gain`. The range `clip(depth - (TD + heave), 0)` is finite exactly when the depth and heave are, is never negative, and equals the difference when that is not negative. |
| MatechoDetector.Cell | echopype/mask/single_target_detection/detect_matecho.py:299-302 | `ts`, `tsu` and `Plike` are NaN at and under the bottom and unmasked elsewhere. The range is never masked. |
| MatechoDetector.TsOverTsu | echopype/mask/single_target_detection/detect_matecho.py:297 | A finite `ts` implies a finite `tsu`. Without both angle matrices, `ts` equals `tsu`. |
| MatechoDetector.Column | echopype/mask/single_target_detection/detect_matecho.py:305-309 | A ping's column of a layer holds that layer's cell at every row. |
| MatechoDetector.PingColumns | echopype/mask/single_target_detection/detect_matecho.py:305-309 | The four columns of a ping have the block's row count. |
| MatechoDetector.ColumnSound | echopype/mask/single_target_detection/detect_matecho.py:305-387 | Each record of a ping is `Detected` on that ping and the records are `Ordered`. |
| MatechoDetector.BlockSound | echopype/mask/single_target_detection/detect_matecho.py:227-387 | A block's records are detections of its pings, `Ordered`. |
| MatechoDetector.BlocksSound | echopype/mask/single_target_detection/detect_matecho.py:227-230 | For a positive block size, the first `u` blocks' records are detections of their pings, `Ordered`. |
| MatechoDetector.BlocksSoundNonPositive | echopype/mask/single_target_detection/detect_matecho.py:168-169 | For a non-positive block size, the records are still detections of the frame, `Ordered`. |
| MatechoDetector.FrameRecords | echopype/mask/single_target_detection/detect_matecho.py:227-387 | All records of the frame are detections, `Ordered`. |
| MatechoDetector.FrameSound | echopype/mask/single_target_detection/detect_matecho.py:227-390 | Every record is `Detected`: a real ping and sample above the bottom, with the ping's time and linear index, `Accepted` on its ping's columns. The records are in scan order, echoes of one ping lie at least `MinEchoSpace * NechP` apart, and `idx_target_lin` strictly increases. |
| MatechoDetector.FrameTargets | echopype/mask/single_target_detection/detect_matecho.py:227-387 | The records of the block loop, block after block; `FrameSound` states what they are. |
| MatechoDetector.Configure | echopype/mask/single_target_detection/detect_matecho.py:52-225 | Missing parameters and a missing channel fail with their own errors. Otherwise the result is `MatechoSettings` of the merge over the Matecho defaults. |
| MatechoDetector.DetectMatecho | echopype/mask/single_target_detection/detect_matecho.py:47-390 | The detector fails exactly when reading the parameters fails, with the same error (apart from the zero `SoundSpeed` noted under "## Left out"). On success, a fresh output holds exactly the frame's detections, each attitude entry is the attitude of its record's ping, and the count equals the number of records. |
| MatechoDetector.DetectBlock | echopype/mask/single_target_detection/detect_matecho.py:227-387 | A block adds exactly its detections with their attitudes. |
| MatechoDetector.BuildBlock | echopype/mask/single_target_detection/detect_matecho.py:243-302 | The four block matrices hold exactly the masked cells of their layers. |
| MatechoDetector.BuildLayer | echopype/mask/single_target_detection/detect_matecho.py:285-302 | A layer filled cell by cell and masked in place holds that layer's cells. |
| MatechoDetector.DetectColumns | echopype/mask/single_target_detection/detect_matecho.py:305 | The loop over a block's pings adds their detections in ping order. |
| MatechoDetector.DetectColumn | echopype/mask/single_target_detection/detect_matecho.py:305-311 | One more column's detections are appended. |
| MatechoDetector.BlockColumns | echopype/mask/single_target_detection/detect_matecho.py:306-309 | Column `j` of the block's `Plike`, `ts`, `tsu` and `R_blk` matrices is exactly the per-ping column of ping `lo + j`, so searching block columns is searching the frame's pings. |
| MatechoDetector.DetectPing | echopype/mask/single_target_detection/detect_matecho.py:305-387 | A ping's columns add exactly its detections. |
| MatechoDetector.ColumnOfLayer | echopype/mask/single_target_detection/detect_matecho.py:305-309 | Column `j` of a block layer is the layer's column of ping `lo + j`. |

## Left out

- Dataset access is not modelled: the channel selection, transposition, the `ping_time` alignment of the bottom and the attitude variables (`_fallback_1d_aligned`, `_pull_nav`), and the absorption and transducer-depth lookups with their fallbacks. The frame, the bottom, the attitude per ping, `alpha` and `TD` are inputs.
- Logarithms and floating-point arithmetic are not modelled. The ESP3 TVG law is a function parameter. Matecho's per-row gains (`20 log10(r) + sv2ts` and `-40 log10(r) - 2 alpha r`, with `ts_range` from `tvg_start_sample`) are inputs.
- The median depth step, `dt` and `round(T / dt)` are not modelled. The rounded value is an input, and `Np`, `NechP` and every bound derived from them are computed from it as `detect_esp3` and `detect_matecho` compute them.
- Esp3Detector.DetectEsp3, MatechoDetector.DetectMatecho: a `SoundSpeed` of 0 is accepted by parsing, and the model then returns success. `detect_matecho` raises ZeroDivisionError at `dt = (2.0 * dstep) / c` (detect_matecho.py:128) whenever the depth step is positive. `detect_esp3` raises there (detect_esp3.py:238) when the depth step is positive and no `Np` above 2 is given. The depth step is not modelled, so neither is this raise.
- Reals are exact, and every non-finite float is one `NaN` value. Infinity is therefore not told apart from NaN. This is exact for the beam compensation with a zero beam width, which yields NaN. It differs where a cell is `-inf`: there `z[k] > z[k-1]` holds next to it, so a sample next to a `-inf` cell can be an ESP3 candidate or a Matecho peak, while in the model a NaN neighbour rules that out. Likewise a `+inf` cell can be an ESP3 candidate in `detect_esp3` and is never one in the model.
- Parameters are numbers, text, None or other data. `float()` and `int()` applied to text, and NaN or infinite parameter values, are not modelled. A text value where a number is read is an error.
- The ESP3 FM branch is an empty placeholder that validation makes unreachable, since any `DataType` other than "CW" is refused. The region mask is all false in `detect_esp3` and is left out.
- `print` calls in both detectors (including `print(Np)`) are left out.
- Angle statistics are not computed: the ESP3 detector appends NaN angle spreads only, and Matecho appends NaN to all four angle lists, as `detect_esp3` and `detect_matecho` do.
- Esp3Detector.DetectEsp3 requires at least one ping, because `detect_esp3` reads ping 0 for `range_vec` (detect_esp3.py:204) and raises on a frame without pings, with or without a bottom.
- MatechoDetector.DetectMatecho requires at least one ping, because `detect_matecho` reads ping 0 to compute the depth step (detect_matecho.py:124).
- MatechoDetector.DetectMatecho: the unreachable `r_seg.size == 0` branch is not modelled as a separate outcome. `Matecho.RecordExtended` proves that every kept peak gets a record.
- Time stamps are integers, and `Time` holds the ping's stamp.
