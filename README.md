# DVB-S2 frequency synchroniser state and parameter translation, in Dafny

This project models two parts of the gr-dvbs2rx DVB-S2 receiver.

**The frequency synchroniser `freq_sync`** (lib/pl_freq_sync.h). It estimates
the residual carrier frequency offset of DVB-S2 PLFRAMEs (ETSI EN 302 307-1).
The model is the class `PlFreqSync.FreqSync`. Its fields follow the header's
state:

- `period`, and the preamble length `n` and lag count `l` (N = 90 and L = 89);
- the frame counter `iFrame`, which cycles through `period` frames;
- the coarse accumulator `acc`, one autocorrelation sum per lag 1 .. L. It
  stands for `pilot_corr` summed over the frames of a cycle; the angle and
  weighting vectors derived from it when an estimate is emitted are part of
  the signal processing below;
- the last coarse estimate and the coarse-corrected flag;
- the last fine estimate and the fine-estimate-ready flag;
- the per-frame phase table `anglePilot`, an array of 23 slots. Slot 0 holds
  the PLHEADER phase. Slot `iBlk + 1` holds the phase of pilot block `iBlk`.

The class also keeps three ghost counters that exist only for the proofs:
`coarseCalls` (calls of `EstimateCoarse`), `coarseEstimates` (coarse estimates
emitted) and `fineCalls` (calls of `EstimateFinePilotMode`). The fields
`w_angle_avg`, `angle_diff_f` and the VOLK scratch buffers are not modelled.

The estimation calls that write state are methods with `modifies` clauses;
`EstimateSofPhase` writes nothing. Each getter is a method that changes
nothing.

The floating-point signal processing is a `Numerics` value that the
constructor receives: per-lag autocorrelation, atan2, the weight windows for
the full PLHEADER and for the SOF, weighted averaging and unwrapping.
Its bodies are in `pl_freq_sync.cc`, which is not part of this model. The
model proves facts about what is left:

- the counter and when an estimate is emitted;
- the two flags;
- which table slot each call writes and each getter reads.

Phase estimates are assumed to lie in [-pi, pi], as atan2 results do. Module
`PlFrame` holds the PLFRAME geometry: a 90-symbol PLHEADER (26-symbol SOF plus
64-symbol PLS code, section 5.5.2 of EN 302 307-1) and 36-symbol pilot blocks
every 1440 symbols (section 5.5.3). It also holds the arithmetic behind the
3.268e-4 range of the fine estimator.

**The parameter validator and translator** (python/params.py). Module `Params`
models `_adjust_case`, `validate` and `translate`. The `defs` tables are
abstract maps in a `Defs` parameter. Each `eval("dvbs2rx." + name)` is
modelled as the qualified name string. The Python exceptions `translate` can
raise are values of `PyError`.

Notes on the model:

- The counter lemmas (`RunCounts`, `EmitsOncePerPeriod`) are about the
  counter step alone. `EstimateCoarse` ensures that its counter and its result
  are exactly that step, so neither depends on the input symbols.
- `fine_foffset_corr_range` is 3.268e-4, the value 1/(2·1530) rounded to four
  digits. The exact value is about 3.26797e-4, so the rounding goes up.
  `CorrRangeRoundsUp` exhibits an offset below the constant whose phase still
  turns by more than half a cycle over the PLHEADER-to-pilot interval. The gap
  is below 3e-9. The model keeps the constant as written.
- The phase range is modelled as the closed interval [-pi, pi], as the header
  comments state it.

## Model

| member | source | states |
|---|---|---|
| PlFrame.PilotBlockStart | lib/pl_freq_sync.h:185-189 | pilot block i of the header-then-pilots buffer starts at 90 + 36·i: after the PLHEADER, a whole number of blocks in, and the block fits in a 90 + 36·22 buffer |
| PlFrame.PilotBlockEnd | lib/pl_freq_sync.h:185-189 | block i ends 36 symbols after its start, where block i + 1 starts, inside the 90 + 36·22 buffer |
| PlFrame.PilotBlocksDisjoint | lib/pl_freq_sync.h:185-189 | distinct pilot blocks occupy disjoint ranges, none overlapping the PLHEADER |
| PlFrame.FramePilotStart | lib/pl_freq_sync.h:16-27 | in the transmitted frame, every pilot block comes after the PLHEADER and at least 1440 data symbols |
| PlFrame.PhaseIntervals | lib/pl_freq_sync.h:16-28 | PLHEADER to first pilot spans 1440 + 90 symbols, pilot to pilot 1440 + 36; the first interval is the longest |
| PlFrame.MaxObservableOffset | lib/pl_freq_sync.h:16-28 | 1/(2D) is the positive offset whose phase advances exactly half a cycle over D symbols |
| PlFrame.HalfCycleBound | lib/pl_freq_sync.h:29-31 | over D symbols, the phase change of offset f stays within half a cycle iff abs(f) <= 1/(2D) |
| PlFrame.ShorterIntervalsObservable | lib/pl_freq_sync.h:16-31 | an offset observable over the longest interval keeps every shorter interval within half a cycle |
| PlFrame.CorrRangeArithmetic | lib/pl_freq_sync.h:15-28 | 3.268e-4 equals 1/(2·(1440+90)) to four digits; 1/(2·(1440+36)) is about 3.3875e-4 and exceeds both |
| PlFrame.CorrRangeRoundsUp | lib/pl_freq_sync.h:15-31 | the constant lies above 1/(2·1530); some offset below it turns the phase by more than half a cycle |
| PlFreqSync.CounterStep | lib/pl_freq_sync.h:86-90 | the counter stays below period, and an estimate is emitted exactly when the counter wraps to 0, from period - 1; otherwise the counter moves up by one |
| PlFreqSync.Run | lib/pl_freq_sync.h:137-158 | iterating coarse calls keeps the counter below period and emits at most one estimate per call |
| PlFreqSync.RunCounts | lib/pl_freq_sync.h:137-158 | after k calls from counter i the counter is (i + k) mod period and (i + k) div period estimates were emitted |
| PlFreqSync.EmitsOncePerPeriod | lib/pl_freq_sync.h:137-158 | any period consecutive calls emit exactly one estimate and bring the counter back |
| PlFreqSync.FreqSync.constructor | lib/pl_freq_sync.h:128-135 | a fresh synchroniser has N = 90 and L = 89 (lines 95-101) and, as assumed initial values, counter 0, per-lag sums 0, no estimates, both flags false and a 23-slot zeroed phase table |
| PlFreqSync.FreqSync.EstimateCoarse | lib/pl_freq_sync.h:137-158 | adds the frame's autocorrelation at each of the L lags, read from the N-symbol PLHEADER or the SOF as full says; only on the period-th call stores a new estimate computed from the per-lag sums with the window of that call, resets the sums and sets the flag iff abs(estimate) < 3.268e-4; otherwise estimate and flag are unchanged; the fine state is untouched |
| PlFreqSync.FreqSync.EstimateSofPhase | lib/pl_freq_sync.h:160-165 | returns the phase of the first 26 symbols, within [-pi, pi], and changes nothing |
| PlFreqSync.FreqSync.EstimatePlheaderPhase | lib/pl_freq_sync.h:167-177 | returns the phase of the 90-symbol PLHEADER for the given PLSC and keeps it in slot 0 only |
| PlFreqSync.FreqSync.EstimatePilotPhase | lib/pl_freq_sync.h:179-192 | writes the phase of symbols [90 + 36·i, 90 + 36·(i+1)) into slot i + 1; every other slot is unchanged |
| PlFreqSync.FreqSync.EstimateFinePilotMode | lib/pl_freq_sync.h:194-206 | overwrites the fine estimate from slots 0..n of the table, sets the ready flag, leaves the coarse state unchanged |
| PlFreqSync.FreqSync.GetPlheaderPhase | lib/pl_freq_sync.h:235-243 | returns slot 0 without side effects, within [-pi, pi] |
| PlFreqSync.FreqSync.GetPilotPhase | lib/pl_freq_sync.h:245-250 | returns slot i + 1 without side effects, within [-pi, pi] |
| PlFreqSync.FreqSync.GetCoarseFoffset | lib/pl_freq_sync.h:252-260 | returns the last coarse estimate, which is below 3.268e-4 in magnitude whenever the coarse-corrected flag is set |
| PlFreqSync.FreqSync.GetFineFoffset | lib/pl_freq_sync.h:262-270 | returns the last fine estimate without side effects |
| PlFreqSync.FreqSync.IsCoarseCorrected | lib/pl_freq_sync.h:272-281 | true iff an estimate was emitted and the last one is below 3.268e-4 in magnitude |
| PlFreqSync.FreqSync.HasFineFoffsetEst | lib/pl_freq_sync.h:283-291 | true iff fine estimation has run at least once |
| PlFreqSync.CoarseCycleOfFour | lib/pl_freq_sync.h:137-158 | on a fresh synchroniser with period 4, four calls return false, false, false, true; the estimate comes from the per-lag sums of the four frames' autocorrelations with the full-PLHEADER window, and the flag reflects it |
| Params.Upper | python/params.py:15 | upper-casing keeps the length and upper-cases every character |
| Params.Lower | python/params.py:17 | lower-casing keeps the length and lower-cases every character |
| Params.AdjustCase | python/params.py:12-20 | None stays None; a given standard or constellation has no lower-case letter, a given frame size no upper-case letter, and each equals its input up to case |
| Params.AdjustCaseIdempotent | python/params.py:12-20 | adjusting the case twice equals adjusting it once |
| Params.FirstRejection | python/params.py:49-110 | the first failing check, in source order; an unknown adjusted standard is reported iff it is not a key of standards |
| Params.Validate | python/params.py:23-110 | true iff every check holds: known standard and frame size, supported constellation if given, a code listing the standard and frame size, the VL-SNR conditions, valid roll-off if given, bool pilots if given |
| Params.StandardAndFrameSizeFirst | python/params.py:52-61 | an unknown standard, then an unknown frame size, is the verdict whatever the code, constellation, roll-off, pilots and VL-SNR flag |
| Params.VlSnrNeedsS2xAndCode | python/params.py:86-93 | with VL-SNR set, acceptance needs DVB-S2X and a truthy 'vl-snr' entry, and implies acceptance without VL-SNR |
| Params.ValidateCaseInsensitive | python/params.py:142-145 | validating the case-adjusted arguments gives the same verdict as validating the originals |
| Params.SelectCodeIndex | python/params.py:154-166 | returns the first index whose frame size and VL-SNR mode match; otherwise the IndexError or TypeError of the first faulty lookup, or AssertionError if nothing matches |
| Params.NoMatchAfterFault | python/params.py:159-165 | once the scan faults at an index, no index is a first match |
| Params.Translate | python/params.py:113-186 | ValueError iff validation without VL-SNR fails; success iff the code can be selected and the pilots key exists; the tuple has length 3 + the number of given optional arguments, with standard, frame size and code first, then constellation, roll-off and pilots in that order |

## Left out

- The floating-point signal processing of `freq_sync` is out: correlation with the known
  PLHEADER/pilot modulation, weight windows, atan2, unwrapping, weighted averaging and the
  VOLK buffers. Its bodies are in pl_freq_sync.cc, which is not part of this model. These are
  function values of `Numerics`, and estimates are exact reals, so float rounding is not
  modelled.
- `derotate_plheader` and `get_plheader` are out. Derotation is signal processing whose body
  is not in the header.
- `debug_level` and all logging are out (no behavioural effect).
- The constructor body is in pl_freq_sync.cc. Only N = 90 and L = 89 come from the header
  (lib/pl_freq_sync.h:95-101). The other initial values are assumed: counter 0, per-lag sums
  0, estimates 0, both flags false, and a zeroed phase table with room for 22 pilot blocks.
- FreqSync.EstimateCoarse: every frame adds an autocorrelation at each of the L lags, also
  when only the SOF is used. Which of those lags the SOF-only correlation fills is decided by
  `lagCorrelation`, whose body is in pl_freq_sync.cc.
- The caller obligations are preconditions, because pointers are not checked:
  - input buffers long enough;
  - PLSC at most 127 when the full PLHEADER is used;
  - pilot block index below 22;
  - at least one pilot block for fine estimation.
- `period` must be positive.
- FreqSync.EstimateSofPhase: the model assumes it does not write the phase table. The header
  does not say where, or whether, the SOF phase is kept.
- The `dvbs2rx` import fallback, `textwrap.fill` and every `print` message of params.py are
  out. The real `eval` into the C++ module is a qualified-name string instead.
- The `defs` tables are not part of this model. They are a `Defs` parameter.
  - Dictionaries are maps, so filtered lists are sets. Only membership in them is used.
  - Roll-off keys are reals.
  - A Python object that is not a bool, passed as `pilots`, is `NonBool`.
- Params.Upper, Params.Lower: case mapping covers ASCII letters only. Python's Unicode case
  rules are not modelled.
- Params.Validate, Params.Translate: `standard` and `frame_size` are strings, not optional.
  The docstring says they are always given.
- bench/fec/src/bench_bch.cc is out. It is a benchmarking harness over external codec
  libraries.
- python/dvbs2rx/bindings/xfecframe_demapper_cb_python.cc is out. It is generated binding
  glue with no logic.
