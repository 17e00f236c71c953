/** Geometry of a DVB-S2 PLFRAME (ETSI EN 302 307-1, sections 5.5.2 and 5.5.3)
    and the arithmetic behind the range of the pilot-aided fine frequency
    offset estimator. */
module PlFrame {

  /** Start-of-frame field of the PLHEADER, in symbols (section 5.5.2). */
  const SofLen: nat := 26
  /** PLS code carrying the 7-bit PLSC, in symbols (section 5.5.2). */
  const PlsCodeLen: nat := 64
  /** The whole PLHEADER: SOF followed by the PLS code. */
  const PlheaderLen: nat := SofLen + PlsCodeLen
  /** Largest PLSC dataword value (7 bits). */
  const MaxPlsc: nat := 127
  /** Length of one pilot block, in symbols (section 5.5.3). */
  const PilotBlockLen: nat := 36
  /** Data symbols (16 slots of 90) between two pilot blocks (section 5.5.3). */
  const PilotPeriod: nat := 1440
  /** Most pilot blocks a PLFRAME carries; valid block indexes are 0 .. 21. */
  const MaxPilotBlocks: nat := 22
  /** Length of the buffer holding a PLHEADER followed by every pilot block. */
  const PilotBufferLen: nat := PlheaderLen + PilotBlockLen * MaxPilotBlocks

  /** Normalised offset below which the frame counts as coarse-corrected
      (3.268e-4, lib/pl_freq_sync.h:15). */
  const FineFoffsetCorrRange: real := 0.0003268

  function Abs(x: real): (r: real)
    ensures r >= 0.0 && (r == x || r == -x)
  {
    if x < 0.0 then -x else x
  }

  /** First symbol of pilot block `iBlk` in a buffer that holds the PLHEADER
      and then the pilot blocks back to back. */
  function PilotBlockStart(iBlk: nat): (start: nat)
    requires iBlk < MaxPilotBlocks
    ensures PlheaderLen <= start
    ensures start + PilotBlockLen <= PilotBufferLen
    ensures (start - PlheaderLen) % PilotBlockLen == 0
    ensures (start - PlheaderLen) / PilotBlockLen == iBlk
  {
    PlheaderLen + PilotBlockLen * iBlk
  }

  /** One past the last symbol of pilot block `iBlk` in that buffer. */
  function PilotBlockEnd(iBlk: nat): (end: nat)
    requires iBlk < MaxPilotBlocks
    ensures end == PilotBlockStart(iBlk) + PilotBlockLen
    ensures iBlk + 1 < MaxPilotBlocks ==> end == PilotBlockStart(iBlk + 1)
    ensures end <= PilotBufferLen
  {
    PlheaderLen + PilotBlockLen * (iBlk + 1)
  }

  /** Distinct pilot blocks occupy disjoint symbol ranges of the buffer, and
      the PLHEADER occupies none of them. */
  lemma PilotBlocksDisjoint(i: nat, j: nat)
    requires i < j < MaxPilotBlocks
    ensures PlheaderLen <= PilotBlockStart(i)
    ensures PilotBlockEnd(i) <= PilotBlockStart(j)
  {
  }

  /** Position of pilot block `iBlk` in the transmitted PLFRAME: the PLHEADER,
      then 1440 data symbols before every pilot block. */
  function FramePilotStart(iBlk: nat): (start: nat)
    ensures start >= PlheaderLen + PilotPeriod
  {
    PlheaderLen + PilotPeriod * (iBlk + 1) + PilotBlockLen * iBlk
  }

  /** The phase-difference intervals seen by the fine estimator: from the
      PLHEADER to pilot block 0 spans 1440 + 90 symbols, and from one pilot
      block to the next 1440 + 36 symbols; the first interval is the longest. */
  lemma PhaseIntervals(iBlk: nat)
    ensures FramePilotStart(0) == PilotPeriod + PlheaderLen
    ensures FramePilotStart(iBlk + 1) - FramePilotStart(iBlk) == PilotPeriod + PilotBlockLen
    ensures PilotPeriod + PilotBlockLen < PilotPeriod + PlheaderLen
  {
  }

  /** The largest offset whose phase advances by at most half a cycle over an
      interval of `interval` symbols: 1/(2 * interval). */
  function MaxObservableOffset(interval: nat): (f: real)
    requires interval > 0
    ensures f > 0.0
    ensures f * (interval as real) == 0.5
  {
    1.0 / (2.0 * interval as real)
  }

  /** Scaling by a positive factor preserves the order of reals. */
  lemma ScaleMonotone(a: real, b: real, d: real)
    requires d > 0.0
    ensures a <= b <==> a * d <= b * d
  {
    assert b * d - a * d == (b - a) * d;
    if a <= b {
      assert (b - a) * d >= 0.0;
    } else {
      assert (a - b) * d > 0.0;
    }
  }

  /** Scaling by a positive factor commutes with the absolute value. */
  lemma AbsScale(f: real, d: real)
    requires d > 0.0
    ensures Abs(f * d) == Abs(f) * d
  {
    if f < 0.0 {
      assert f * d == -((-f) * d);
      assert (-f) * d > 0.0;
    } else {
      assert f * d >= 0.0;
    }
  }

  /** Over `interval` symbols an offset `f` turns the phase by `f * interval`
      cycles; that stays within half a cycle (+-pi) exactly when
      |f| <= 1/(2 * interval). */
  lemma HalfCycleBound(f: real, interval: nat)
    requires interval > 0
    ensures Abs(f * interval as real) <= 0.5 <==> Abs(f) <= MaxObservableOffset(interval)
  {
    var d := interval as real;
    AbsScale(f, d);
    ScaledBound(Abs(f), d, MaxObservableOffset(interval));
  }

  /** If m * d is half a cycle, a * d stays within it exactly when a <= m. */
  lemma ScaledBound(a: real, d: real, m: real)
    requires d > 0.0 && m * d == 0.5
    ensures a * d <= 0.5 <==> a <= m
  {
    ScaleMonotone(a, m, d);
  }

  /** An offset within the bound of the longest interval also keeps every
      shorter interval within half a cycle. */
  lemma ShorterIntervalsObservable(f: real, interval: nat, longest: nat)
    requires 0 < interval <= longest
    requires Abs(f) <= MaxObservableOffset(longest)
    ensures Abs(f * interval as real) <= 0.5
  {
    var d := interval as real;
    AbsScale(f, d);
    ShorterScaledBound(Abs(f), d, longest as real, MaxObservableOffset(longest));
  }

  /** If m * dm is half a cycle, a <= m and d <= dm, then a * d is within it. */
  lemma ShorterScaledBound(a: real, d: real, dm: real, m: real)
    requires 0.0 < d <= dm && m * dm == 0.5 && a <= m
    ensures a * d <= 0.5
  {
    ScaleMonotone(a, m, d);
    ScaleMonotone(d, dm, m);
  }

  /** The constant 3.268e-4 is 1/(2*(1440 + 90)) rounded to four significant
      digits, and lies below 1/(2*(1440 + 36)) (about 3.3875e-4), the bound
      when only pilot blocks are compared. */
  lemma CorrRangeArithmetic()
    ensures var header := MaxObservableOffset(PilotPeriod + PlheaderLen);
            Abs(FineFoffsetCorrRange - header) < 0.00000005
    ensures var pilots := MaxObservableOffset(PilotPeriod + PilotBlockLen);
            Abs(pilots - 0.00033875) < 0.000000005
    ensures MaxObservableOffset(PilotPeriod + PlheaderLen) < MaxObservableOffset(PilotPeriod + PilotBlockLen)
    ensures FineFoffsetCorrRange < MaxObservableOffset(PilotPeriod + PilotBlockLen)
  {
    assert MaxObservableOffset(PilotPeriod + PlheaderLen) == 1.0 / 3060.0;
    assert MaxObservableOffset(PilotPeriod + PilotBlockLen) == 1.0 / 2952.0;
  }

  /** The rounding goes upwards: offsets just below 3.268e-4 already turn the
      phase by more than half a cycle over the PLHEADER-to-first-pilot
      interval, although they count as coarse-corrected. */
  lemma CorrRangeRoundsUp()
    ensures MaxObservableOffset(PilotPeriod + PlheaderLen) < FineFoffsetCorrRange
    ensures var f := 0.0003267999;
            Abs(f) < FineFoffsetCorrRange && Abs(f * (PilotPeriod + PlheaderLen) as real) > 0.5
  {
    assert MaxObservableOffset(PilotPeriod + PlheaderLen) == 1.0 / 3060.0;
  }
}
