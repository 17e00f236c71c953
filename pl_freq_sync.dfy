/** The frequency synchroniser of DVB-S2 PLFRAMEs: the state it keeps between
    frames (frame counter, last coarse and fine estimates, the two flags and
    the per-frame phase table) and the calls that update and read it. */
module PlFreqSync {
  import opened PlFrame

  /** A complex number over the reals: the signal-processing values. */
  datatype Complex = Complex(re: real, im: real) {
    function Add(other: Complex): Complex {
      Complex(re + other.re, im + other.im)
    }
  }

  const Zero: Complex := Complex(0.0, 0.0)

  /** A real constant standing for pi; only its role as the bound of
      phase estimates matters. */
  const Pi: real := 3.141592653589793

  /** The frame segment whose phase is estimated; each has its own known
      modulation to remove. */
  datatype Segment = Sof | Plheader(plsc: nat) | PilotBlock

  /** The floating-point signal processing behind the synchroniser, as
      functions of the symbols it reads:
      - lagCorrelation: the modulation-removed autocorrelation of one frame at
        lag m, from its SOF (full = false) or its whole PLHEADER with the
        given PLSC (full = true), the per-lag entry of `pilot_corr`;
      - offsetOf: the normalised offset derived from the autocorrelations
        accumulated per lag (their angles, the differences of those angles
        weighted by the full-PLHEADER or the SOF-only window as `full` says,
        scaled by 2 pi);
      - segmentPhase: the angle of the coherent sum of a modulation-removed
        segment;
      - fineOffsetOf: the offset derived from the phase table of one frame
        (unwrapped differences, weighted average, pilot spacing). */
  datatype Numerics = Numerics(
    lagCorrelation: (seq<Complex>, bool, nat, nat) -> Complex,
    offsetOf: (seq<Complex>, bool) -> real,
    segmentPhase: (Segment, seq<Complex>) -> real,
    fineOffsetOf: seq<real> -> real)
  {
    /** Every phase estimate lies in [-pi, pi], as an atan2 result does. */
    ghost predicate PhasesInRange() {
      forall seg, x :: -Pi <= segmentPhase(seg, x) <= Pi
    }

    /** The per-lag sums after one more frame: entry k gains the frame's
        autocorrelation at lag k + 1. */
    function Accumulate(acc: seq<Complex>, symbols: seq<Complex>, full: bool, plsc: nat): (r: seq<Complex>)
      ensures |r| == |acc|
      ensures forall k :: 0 <= k < |acc| ==> r[k] == acc[k].Add(lagCorrelation(symbols, full, plsc, k + 1))
    {
      seq(|acc|, k requires 0 <= k < |acc| => acc[k].Add(lagCorrelation(symbols, full, plsc, k + 1)))
    }
  }

  /** An accumulator with every lag's sum at zero. */
  function ZeroLags(count: nat): (z: seq<Complex>)
    ensures |z| == count
    ensures forall k :: 0 <= k < count ==> z[k] == Zero
  {
    seq(count, _ => Zero)
  }

  /** One coarse-estimation call as seen by the frame counter: the counter
      after the call and whether an estimate is emitted. */
  function CounterStep(i: nat, period: nat): (r: (nat, bool))
    requires i < period
    ensures r.0 < period
    ensures r.1 <==> r.0 == 0
    ensures r.1 <==> i == period - 1
    ensures !r.1 ==> r.0 == i + 1
  {
    if i + 1 == period then (0, true) else (i + 1, false)
  }

  /** The counter after `k` calls that start from counter `i`, and how many
      of those calls emitted an estimate. */
  function Run(i: nat, period: nat, k: nat): (r: (nat, nat))
    requires i < period
    ensures r.0 < period
    ensures r.1 <= k
  {
    if k == 0 then (i, 0)
    else
      var prev := Run(i, period, k - 1);
      var next := CounterStep(prev.0, period);
      (next.0, if next.1 then prev.1 + 1 else prev.1)
  }

  /** Integer division and remainder are determined by the quotient-remainder
      decomposition. */
  lemma DivModUnique(x: nat, p: nat, q: nat, r: nat)
    requires 0 < p && r < p && x == q * p + r
    ensures x / p == q && x % p == r
  {
    var q', r' := x / p, x % p;
    assert x == q' * p + r';
    if q' < q {
      assert (q - q') * p == q * p - q' * p;
      MulGrows(q - q', p);
    } else if q' > q {
      assert (q' - q) * p == q' * p - q * p;
      MulGrows(q' - q, p);
    }
  }

  /** A positive multiple of p is at least p. */
  lemma MulGrows(a: nat, p: nat)
    requires 0 < a
    ensures a * p >= p
  {
    assert a * p == (a - 1) * p + p;
  }

  /** One more call moves the counter as x + 1 moves its remainder, and adds
      one emission exactly when x + 1 reaches a multiple of period. */
  lemma CounterStepDivMod(x: nat, p: nat)
    requires 0 < p
    ensures x % p < p
    ensures CounterStep(x % p, p).0 == (x + 1) % p
    ensures (x + 1) / p == x / p + (if CounterStep(x % p, p).1 then 1 else 0)
  {
    var q, r := x / p, x % p;
    assert x == q * p + r;
    if r + 1 == p {
      DivModUnique(x + 1, p, q + 1, 0);
    } else {
      DivModUnique(x + 1, p, q, r + 1);
    }
  }

  /** After k calls from counter i the counter is (i + k) % period and
      (i + k) / period estimates have been emitted, whatever the input. */
  lemma {:induction false} RunCounts(i: nat, period: nat, k: nat)
    requires i < period
    ensures Run(i, period, k) == ((i + k) % period, (i + k) / period)
  {
    if k == 0 {
      DivModUnique(i, period, 0, i);
    } else {
      RunCounts(i, period, k - 1);
      CounterStepDivMod(i + k - 1, period);
    }
  }

  /** Any `period` consecutive calls emit exactly one estimate and bring the
      counter back to where it started. */
  lemma EmitsOncePerPeriod(i: nat, period: nat)
    requires i < period
    ensures Run(i, period, period) == (i, 1)
  {
    RunCounts(i, period, period);
    DivModUnique(i + period, period, 1, i);
  }

  /** The synchroniser's state: class `freq_sync` of lib/pl_freq_sync.h. */
  class FreqSync {
    /** Frames per coarse estimate. */
    const period: nat
    /** Length of the coarse estimator's known "preamble" and the number of
        phase differentials it uses. */
    const n: nat
    const l: nat
    /** The signal processing the estimates come from. */
    const dsp: Numerics
    /** Phases of one frame: slot 0 is the PLHEADER (or SOF) phase, slot
        iBlk + 1 the phase of pilot block iBlk. */
    const anglePilot: array<real>

    /** Coarse estimation state. */
    var coarseFoffset: real
    var iFrame: nat
    /** Autocorrelation sums of the current cycle, one per lag 1 .. l. */
    var acc: seq<Complex>
    var coarseCorrected: bool

    /** Fine estimation state. */
    var fineFoffset: real
    var fineEstReady: bool

    /** Calls of EstimateCoarse and EstimateFinePilotMode so far, and coarse
        estimates emitted so far. */
    ghost var coarseCalls: nat
    ghost var coarseEstimates: nat
    ghost var fineCalls: nat

    ghost predicate Valid()
      reads this, anglePilot
    {
      0 < period && iFrame < period &&
      n == PlheaderLen && l == n - 1 && |acc| == l &&
      anglePilot.Length == MaxPilotBlocks + 1 &&
      dsp.PhasesInRange() &&
      (forall k :: 0 <= k < anglePilot.Length ==> -Pi <= anglePilot[k] <= Pi) &&
      iFrame == coarseCalls % period &&
      coarseEstimates == coarseCalls / period &&
      (coarseEstimates == 0 ==> !coarseCorrected) &&
      (coarseEstimates > 0 ==> (coarseCorrected <==> Abs(coarseFoffset) < FineFoffsetCorrRange)) &&
      (fineEstReady <==> fineCalls > 0)
    }

    constructor (period: nat, dsp: Numerics)
      requires 0 < period
      requires dsp.PhasesInRange()
      ensures Valid() && fresh(anglePilot)
      ensures this.period == period && this.dsp == dsp
      ensures n == 90 && l == 89
      ensures iFrame == 0 && acc == ZeroLags(89) && coarseFoffset == 0.0 && !coarseCorrected
      ensures fineFoffset == 0.0 && !fineEstReady
      ensures anglePilot[..] == seq(MaxPilotBlocks + 1, _ => 0.0)
      ensures coarseCalls == 0 && coarseEstimates == 0 && fineCalls == 0
    {
      this.period := period;
      this.dsp := dsp;
      n := PlheaderLen;
      l := PlheaderLen - 1;
      anglePilot := new real[MaxPilotBlocks + 1](_ => 0.0);
      coarseFoffset, iFrame, acc, coarseCorrected := 0.0, 0, ZeroLags(PlheaderLen - 1), false;
      fineFoffset, fineEstReady := 0.0, false;
      coarseCalls, coarseEstimates, fineCalls := 0, 0, 0;
    }

    /** Symbols a coarse estimate reads: the N-symbol PLHEADER, or the SOF. */
    function CoarseSpan(full: bool): nat
      reads this
    {
      if full then n else SofLen
    }

    /** Data-aided coarse estimation: adds this frame's autocorrelations to the
        per-lag sums and, on every period-th call, emits an estimate from them
        with the window of this call, restarts the sums and decides whether
        the frame counts as coarse-corrected. */
    method EstimateCoarse(input: seq<Complex>, full: bool, plsc: nat) returns (emitted: bool)
      requires Valid()
      requires full ==> plsc <= MaxPlsc
      requires (if full then n else SofLen) <= |input|
      modifies this
      ensures Valid()
      ensures (iFrame, emitted) == CounterStep(old(iFrame), period)
      ensures coarseCalls == old(coarseCalls) + 1
      ensures coarseEstimates == old(coarseEstimates) + (if emitted then 1 else 0)
      ensures var sum := dsp.Accumulate(old(acc), input[..CoarseSpan(full)], full, if full then plsc else 0);
        if emitted then
          coarseFoffset == dsp.offsetOf(sum, full) && acc == ZeroLags(l) &&
          (coarseCorrected <==> Abs(coarseFoffset) < FineFoffsetCorrRange)
        else
          coarseFoffset == old(coarseFoffset) && coarseCorrected == old(coarseCorrected) && acc == sum
      ensures fineFoffset == old(fineFoffset) && fineEstReady == old(fineEstReady) && fineCalls == old(fineCalls)
    {
      CounterStepDivMod(coarseCalls, period);
      var span := CoarseSpan(full);
      acc := dsp.Accumulate(acc, input[..span], full, if full then plsc else 0);
      iFrame := iFrame + 1;
      coarseCalls := coarseCalls + 1;
      if iFrame == period {
        coarseFoffset := dsp.offsetOf(acc, full);
        acc := ZeroLags(l);
        iFrame := 0;
        coarseCorrected := Abs(coarseFoffset) < FineFoffsetCorrRange;
        coarseEstimates := coarseEstimates + 1;
        emitted := true;
      } else {
        emitted := false;
      }
    }

    /** Phase of the SOF at the start of `input`. */
    method EstimateSofPhase(input: seq<Complex>) returns (phase: real)
      requires Valid()
      requires SofLen <= |input|
      ensures phase == dsp.segmentPhase(Sof, input[..SofLen])
      ensures -Pi <= phase <= Pi
    {
      phase := dsp.segmentPhase(Sof, input[..SofLen]);
    }

    /** Phase of the PLHEADER at the start of `input`, kept in slot 0 of the
        phase table. */
    method EstimatePlheaderPhase(input: seq<Complex>, plsc: nat) returns (phase: real)
      requires Valid()
      requires PlheaderLen <= |input| && plsc <= MaxPlsc
      modifies anglePilot
      ensures Valid()
      ensures phase == dsp.segmentPhase(Plheader(plsc), input[..PlheaderLen])
      ensures -Pi <= phase <= Pi
      ensures anglePilot[..] == old(anglePilot[..])[0 := phase]
    {
      phase := dsp.segmentPhase(Plheader(plsc), input[..PlheaderLen]);
      anglePilot[0] := phase;
    }

    /** Phase of pilot block `iBlk` of a buffer holding the PLHEADER and then
        the pilot blocks, kept in slot iBlk + 1 of the phase table; no other
        slot changes. */
    method EstimatePilotPhase(input: seq<Complex>, iBlk: nat)
      requires Valid()
      requires iBlk < MaxPilotBlocks && PilotBlockEnd(iBlk) <= |input|
      modifies anglePilot
      ensures Valid()
      ensures anglePilot[..] == old(anglePilot[..])[iBlk + 1 := dsp.segmentPhase(PilotBlock, input[PilotBlockStart(iBlk)..PilotBlockEnd(iBlk)])]
    {
      anglePilot[iBlk + 1] := dsp.segmentPhase(PilotBlock, input[PilotBlockStart(iBlk)..PilotBlockEnd(iBlk)]);
    }

    /** Pilot-aided fine estimation from the phase table of a frame with
        `nPilotBlks` pilot blocks; the coarse state is left alone. */
    method EstimateFinePilotMode(nPilotBlks: nat)
      requires Valid()
      requires 0 < nPilotBlks <= MaxPilotBlocks
      modifies this
      ensures Valid()
      ensures fineFoffset == dsp.fineOffsetOf(anglePilot[..nPilotBlks + 1])
      ensures fineEstReady && fineCalls == old(fineCalls) + 1
      ensures coarseFoffset == old(coarseFoffset) && coarseCorrected == old(coarseCorrected)
      ensures iFrame == old(iFrame) && acc == old(acc)
      ensures coarseCalls == old(coarseCalls) && coarseEstimates == old(coarseEstimates)
    {
      fineFoffset := dsp.fineOffsetOf(anglePilot[..nPilotBlks + 1]);
      fineEstReady := true;
      fineCalls := fineCalls + 1;
    }

    /** The PLHEADER phase kept in slot 0. */
    method GetPlheaderPhase() returns (phase: real)
      requires Valid()
      ensures phase == anglePilot[0]
      ensures -Pi <= phase <= Pi
    {
      phase := anglePilot[0];
    }

    /** The phase of pilot block `iBlk` kept in slot iBlk + 1. */
    method GetPilotPhase(iBlk: nat) returns (phase: real)
      requires Valid()
      requires iBlk < MaxPilotBlocks
      ensures phase == anglePilot[iBlk + 1]
      ensures -Pi <= phase <= Pi
    {
      phase := anglePilot[iBlk + 1];
    }

    /** The most recent coarse estimate. */
    method GetCoarseFoffset() returns (f: real)
      requires Valid()
      ensures f == coarseFoffset
      ensures coarseCorrected ==> Abs(f) < FineFoffsetCorrRange
    {
      f := coarseFoffset;
    }

    /** The most recent fine estimate. */
    method GetFineFoffset() returns (f: real)
      requires Valid()
      ensures f == fineFoffset
    {
      f := fineFoffset;
    }

    /** Whether the last coarse estimate fell within the fine estimator's
        range; false until a first coarse estimate exists. */
    method IsCoarseCorrected() returns (b: bool)
      requires Valid()
      ensures b == coarseCorrected
      ensures b <==> coarseEstimates > 0 && Abs(coarseFoffset) < FineFoffsetCorrRange
    {
      b := coarseCorrected;
    }

    /** Whether a fine estimate exists: some fine estimation has been run. */
    method HasFineFoffsetEst() returns (b: bool)
      requires Valid()
      ensures b == fineEstReady
      ensures b <==> fineCalls > 0
    {
      b := fineEstReady;
    }
  }

  /** A coarse cycle of four frames on a fresh synchroniser with period 4:
      only the fourth call emits, and the flag then reflects that estimate. */
  method CoarseCycleOfFour(dsp: Numerics, frame: seq<Complex>)
    returns (emitted: seq<bool>, offset: real, corrected: bool)
    requires dsp.PhasesInRange()
    requires PlheaderLen <= |frame|
    ensures emitted == [false, false, false, true]
    ensures corrected <==> Abs(offset) < FineFoffsetCorrRange
    ensures var x := frame[..PlheaderLen];
            var sums := dsp.Accumulate(dsp.Accumulate(dsp.Accumulate(dsp.Accumulate(
                          ZeroLags(PlheaderLen - 1), x, true, 0), x, true, 0), x, true, 0), x, true, 0);
            offset == dsp.offsetOf(sums, true)
  {
    var s := new FreqSync(4, dsp);
    var e1 := s.EstimateCoarse(frame, true, 0);
    var e2 := s.EstimateCoarse(frame, true, 0);
    var e3 := s.EstimateCoarse(frame, true, 0);
    var e4 := s.EstimateCoarse(frame, true, 0);
    emitted := [e1, e2, e3, e4];
    offset := s.GetCoarseFoffset();
    corrected := s.IsCoarseCorrected();
  }
}
