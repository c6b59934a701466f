/** `freq_to_band`: the IARU band plan as one chain of tests on a frequency in kHz. Python's
    floats are read as exact reals. */
module Frequency {
  import opened Text

  /** The mode constants of `LookupConventions`. */
  datatype Mode = CW | USB | LSB | DIGITAL

  /** The dict `{"band": band, "mode": mode}`; `mode` is `None` where the plan names none. */
  datatype BandMode = BandMode(band: real, mode: Option<Mode>)

  /** `freq_to_band(freq)` (frequency.py:37-206). */
  function FreqToBand(freq: real): (r: Result<BandMode>)
    ensures r.Err? ==> r.error == KeyError
  {
    if freq >= 135.0 && freq <= 138.0 then Ok(BandMode(2190.0, Some(CW)))
    else if freq >= 1800.0 && freq <= 2000.0 then
      Ok(BandMode(160.0,
        if freq >= 1800.0 && freq < 1838.0 then Some(CW)
        else if freq >= 1838.0 && freq < 1840.0 then Some(DIGITAL)
        else if freq == 1840.0 then Some(DIGITAL)
        else if freq > 1840.0 && freq < 2000.0 then Some(LSB)
        else None))
    else if freq >= 3500.0 && freq <= 4000.0 then
      Ok(BandMode(80.0,
        if freq >= 3500.0 && freq < 3573.0 then Some(CW)
        else if freq == 3573.0 then Some(DIGITAL)
        else if freq > 3573.0 && freq < 3580.0 then Some(CW)
        else if freq >= 3580.0 && freq < 3600.0 then Some(DIGITAL)
        else if freq >= 3600.0 && freq < 4000.0 then Some(LSB)
        else None))
    else if freq >= 5000.0 && freq <= 5500.0 then Ok(BandMode(60.0, None))
    else if freq >= 7000.0 && freq <= 7300.0 then
      Ok(BandMode(40.0,
        if freq >= 7000.0 && freq < 7040.0 then Some(CW)
        else if freq >= 7040.0 && freq < 7050.0 then Some(DIGITAL)
        else if freq >= 7050.0 && freq < 7074.0 then Some(LSB)
        else if freq == 7074.0 then Some(DIGITAL)
        else if freq > 7074.0 && freq < 7300.0 then Some(LSB)
        else None))
    else if freq >= 10100.0 && freq <= 10150.0 then
      Ok(BandMode(30.0,
        if freq >= 10100.0 && freq < 10136.0 then Some(CW)
        else if freq == 10136.0 then Some(DIGITAL)
        else if freq > 10136.0 && freq < 10140.0 then Some(CW)
        else if freq >= 10140.0 && freq < 10150.0 then Some(DIGITAL)
        else None))
    else if freq >= 14000.0 && freq <= 14350.0 then
      Ok(BandMode(20.0,
        if freq >= 14000.0 && freq < 14070.0 then Some(CW)
        else if freq >= 14070.0 && freq < 14074.0 then Some(DIGITAL)
        else if freq == 14074.0 then Some(DIGITAL)
        else if freq > 14074.0 && freq < 14099.0 then Some(DIGITAL)
        else if freq >= 14100.0 && freq < 14350.0 then Some(USB)
        else None))
    else if freq >= 18068.0 && freq <= 18268.0 then
      Ok(BandMode(17.0,
        if freq >= 18068.0 && freq < 18095.0 then Some(CW)
        else if freq >= 18095.0 && freq < 18100.0 then Some(DIGITAL)
        else if freq == 18100.0 then Some(DIGITAL)
        else if freq > 18100.0 && freq < 18110.0 then Some(DIGITAL)
        else if freq >= 18110.0 && freq < 18268.0 then Some(USB)
        else None))
    else if freq >= 21000.0 && freq <= 21450.0 then
      Ok(BandMode(15.0,
        if freq >= 21000.0 && freq < 21070.0 then Some(CW)
        else if freq >= 21070.0 && freq < 21074.0 then Some(DIGITAL)
        else if freq == 21074.0 then Some(DIGITAL)
        else if freq > 21074.0 && freq < 21150.0 then Some(DIGITAL)
        else if freq >= 21150.0 && freq < 21450.0 then Some(USB)
        else None))
    else if freq >= 24890.0 && freq <= 24990.0 then
      Ok(BandMode(12.0,
        if freq >= 24890.0 && freq < 24915.0 then Some(CW)
        else if freq == 24915.0 then Some(DIGITAL)
        else if freq > 24915.0 && freq < 24930.0 then Some(DIGITAL)
        else if freq >= 24930.0 && freq < 24990.0 then Some(USB)
        else None))
    else if freq >= 28000.0 && freq <= 29700.0 then
      Ok(BandMode(10.0,
        if freq >= 28000.0 && freq < 28070.0 then Some(CW)
        else if freq >= 28070.0 && freq < 28074.0 then Some(DIGITAL)
        else if freq == 28074.0 then Some(DIGITAL)
        else if freq > 28074.0 && freq < 28190.0 then Some(DIGITAL)
        else if freq >= 28300.0 && freq < 29700.0 then Some(USB)
        else None))
    else if freq >= 50000.0 && freq <= 54000.0 then
      Ok(BandMode(6.0,
        if freq >= 50000.0 && freq < 50100.0 then Some(CW)
        else if freq >= 50100.0 && freq < 50313.0 then Some(USB)
        else if freq == 50313.0 then Some(DIGITAL)
        else if freq > 50313.0 && freq < 50500.0 then Some(USB)
        else if freq >= 50500.0 && freq < 51000.0 then Some(DIGITAL)
        else None))
    else if freq >= 70000.0 && freq <= 71000.0 then Ok(BandMode(4.0, None))
    else if freq >= 144000.0 && freq <= 148000.0 then
      Ok(BandMode(2.0,
        if freq >= 144000.0 && freq < 144150.0 then Some(CW)
        else if freq >= 144150.0 && freq < 144174.0 then Some(USB)
        else if freq >= 144174.0 && freq < 144175.0 then Some(DIGITAL)
        else if freq > 144175.0 && freq < 144400.0 then Some(USB)
        else None))
    else if freq >= 220000.0 && freq <= 226000.0 then Ok(BandMode(1.25, None))
    else if freq >= 420000.0 && freq <= 470000.0 then Ok(BandMode(0.7, None))
    else if freq >= 902000.0 && freq <= 928000.0 then Ok(BandMode(0.33, None))
    else if freq >= 1200000.0 && freq <= 1300000.0 then Ok(BandMode(0.23, None))
    else if freq >= 2390000.0 && freq <= 2450000.0 then Ok(BandMode(0.13, None))
    else if freq >= 3300000.0 && freq <= 3500000.0 then Ok(BandMode(0.09, None))
    else if freq >= 5650000.0 && freq <= 5850000.0 then Ok(BandMode(0.053, None))
    else if freq >= 10000000.0 && freq <= 10500000.0 then Ok(BandMode(0.03, None))
    else if freq >= 24000000.0 && freq <= 24050000.0 then Ok(BandMode(0.0125, None))
    else if freq >= 47000000.0 && freq <= 47200000.0 then Ok(BandMode(0.0063, None))
    else Err(KeyError)
  }

  // ---------------------------------------------------------------------------------------
  // The band plan as a table of closed ranges.

  datatype BandRange = BandRange(lo: real, hi: real, band: real)

  predicate Covers(r: BandRange, freq: real)
  {
    r.lo <= freq <= r.hi
  }

  /** The bands of the plan from the lowest to the highest frequency. */
  const BAND_PLAN: seq<BandRange> := [
    BandRange(135.0, 138.0, 2190.0),
    BandRange(1800.0, 2000.0, 160.0),
    BandRange(3500.0, 4000.0, 80.0),
    BandRange(5000.0, 5500.0, 60.0),
    BandRange(7000.0, 7300.0, 40.0),
    BandRange(10100.0, 10150.0, 30.0),
    BandRange(14000.0, 14350.0, 20.0),
    BandRange(18068.0, 18268.0, 17.0),
    BandRange(21000.0, 21450.0, 15.0),
    BandRange(24890.0, 24990.0, 12.0),
    BandRange(28000.0, 29700.0, 10.0),
    BandRange(50000.0, 54000.0, 6.0),
    BandRange(70000.0, 71000.0, 4.0),
    BandRange(144000.0, 148000.0, 2.0),
    BandRange(220000.0, 226000.0, 1.25),
    BandRange(420000.0, 470000.0, 0.7),
    BandRange(902000.0, 928000.0, 0.33),
    BandRange(1200000.0, 1300000.0, 0.23),
    BandRange(2390000.0, 2450000.0, 0.13),
    BandRange(3300000.0, 3500000.0, 0.09),
    BandRange(5650000.0, 5850000.0, 0.053),
    BandRange(10000000.0, 10500000.0, 0.03),
    BandRange(24000000.0, 24050000.0, 0.0125),
    BandRange(47000000.0, 47200000.0, 0.0063)
  ]

  /** The range of the plan below whose top the frequency first lies. */
  function RangeIndex(freq: real): (i: nat)
    ensures i < |BAND_PLAN| && (freq <= BAND_PLAN[i].hi || i == |BAND_PLAN| - 1)
    ensures i > 0 ==> BAND_PLAN[i - 1].hi < freq
  {
    if freq <= 138.0 then 0
    else if freq <= 2000.0 then 1
    else if freq <= 4000.0 then 2
    else if freq <= 5500.0 then 3
    else if freq <= 7300.0 then 4
    else if freq <= 10150.0 then 5
    else if freq <= 14350.0 then 6
    else if freq <= 18268.0 then 7
    else if freq <= 21450.0 then 8
    else if freq <= 24990.0 then 9
    else if freq <= 29700.0 then 10
    else if freq <= 54000.0 then 11
    else if freq <= 71000.0 then 12
    else if freq <= 148000.0 then 13
    else if freq <= 226000.0 then 14
    else if freq <= 470000.0 then 15
    else if freq <= 928000.0 then 16
    else if freq <= 1300000.0 then 17
    else if freq <= 2450000.0 then 18
    else if freq <= 3500000.0 then 19
    else if freq <= 5850000.0 then 20
    else if freq <= 10500000.0 then 21
    else if freq <= 24050000.0 then 22
    else 23
  }

  /** The ranges are ordered and do not overlap, so at most one covers a frequency. */
  lemma BandPlanOrdered()
    ensures forall i :: 0 <= i < |BAND_PLAN| ==> BAND_PLAN[i].lo < BAND_PLAN[i].hi
    ensures forall i, j :: 0 <= i < j < |BAND_PLAN| ==> BAND_PLAN[i].hi < BAND_PLAN[j].lo
  {
  }

  /** `freq_to_band` succeeds exactly when the range at `RangeIndex` covers the frequency,
      and gives that range's band. */
  lemma BandAtRangeIndex(freq: real)
    ensures var r := FreqToBand(freq);
      var k := BAND_PLAN[RangeIndex(freq)];
      (r.Ok? <==> Covers(k, freq)) && (r.Ok? ==> r.value.band == k.band)
  {
    if freq <= 14350.0 {
      BandAtRangeIndexBelow(freq);
    } else if freq <= 148000.0 {
      BandAtRangeIndexMiddle(freq);
    } else {
      BandAtRangeIndexAbove(freq);
    }
  }

  lemma BandAtRangeIndexBelow(freq: real)
    requires freq <= 14350.0
    ensures var r := FreqToBand(freq);
      var k := BAND_PLAN[RangeIndex(freq)];
      (r.Ok? <==> Covers(k, freq)) && (r.Ok? ==> r.value.band == k.band)
  {
  }

  lemma BandAtRangeIndexMiddle(freq: real)
    requires 14350.0 < freq <= 148000.0
    ensures var r := FreqToBand(freq);
      var k := BAND_PLAN[RangeIndex(freq)];
      (r.Ok? <==> Covers(k, freq)) && (r.Ok? ==> r.value.band == k.band)
  {
  }

  lemma BandAtRangeIndexAbove(freq: real)
    requires 148000.0 < freq
    ensures var r := FreqToBand(freq);
      var k := BAND_PLAN[RangeIndex(freq)];
      (r.Ok? <==> Covers(k, freq)) && (r.Ok? ==> r.value.band == k.band)
  {
  }

  /** A range that covers the frequency is the one at `RangeIndex`. */
  lemma OnlyRange(freq: real, i: int)
    requires 0 <= i < |BAND_PLAN| && Covers(BAND_PLAN[i], freq)
    ensures i == RangeIndex(freq)
  {
    BandPlanOrdered();
  }

  /** A frequency has a band exactly when some range of the plan covers it, and then the band
      is that range's. */
  lemma BandByRange(freq: real, i: int)
    requires 0 <= i < |BAND_PLAN|
    ensures Covers(BAND_PLAN[i], freq) ==> FreqToBand(freq).Ok? && FreqToBand(freq).value.band == BAND_PLAN[i].band
    ensures FreqToBand(freq).Ok? ==> Covers(BAND_PLAN[RangeIndex(freq)], freq)
  {
    BandAtRangeIndex(freq);
    if Covers(BAND_PLAN[i], freq) {
      OnlyRange(freq, i);
    }
  }

  /** Outside every range of the plan the answer is `KeyError`. */
  lemma OutOfBand(freq: real)
    requires forall i :: 0 <= i < |BAND_PLAN| ==> !Covers(BAND_PLAN[i], freq)
    ensures FreqToBand(freq) == Err(KeyError)
  {
    BandAtRangeIndex(freq);
  }

  // ---------------------------------------------------------------------------------------
  // Modes.

  /** The FT8 calling frequencies named in the plan. */
  const FT8: seq<real> := [1840.0, 3573.0, 7074.0, 10136.0, 14074.0, 18100.0, 21074.0, 24915.0,
    28074.0, 50313.0]

  /** Every FT8 calling frequency is `DIGITAL`, and so is the 2 m FT8 segment. */
  lemma Ft8Digital(freq: real)
    ensures freq in FT8 || 144174.0 <= freq < 144175.0
      ==> FreqToBand(freq).Ok? && FreqToBand(freq).value.mode == Some(DIGITAL)
  {
  }

  /** The bands for which the plan names no mode: 60 m, 4 m, and everything from the upper
      part of 2 m on. */
  predicate NoModeBand(freq: real)
  {
    (5000.0 <= freq <= 5500.0) || (70000.0 <= freq <= 71000.0) || freq >= 144400.0
  }

  /** The holes inside the bands that do have modes: each band's top edge, which every
      sub-band test excludes, and the stretches no sub-band covers. */
  predicate ModeGap(freq: real)
  {
    freq == 2000.0 || freq == 4000.0 || freq == 7300.0 || freq == 10150.0
    || (14099.0 <= freq < 14100.0) || freq == 14350.0 || freq == 18268.0 || freq == 21450.0
    || freq == 24990.0 || (28190.0 <= freq < 28300.0) || freq == 29700.0
    || (51000.0 <= freq <= 54000.0) || freq == 144175.0
  }

  /** Inside a band the mode is `None` exactly in the gaps and in the bands without modes. */
  lemma ModeNoneExactly(freq: real)
    requires FreqToBand(freq).Ok?
    ensures FreqToBand(freq).value.mode == None <==> ModeGap(freq) || NoModeBand(freq)
  {
  }

  /** A sub-band of the plan with one mode: `lo <= freq < hi`, or up to `hi` inclusive when
      `closed`. */
  datatype ModeSegment = ModeSegment(lo: real, hi: real, closed: bool, mode: Mode)

  predicate InSegment(g: ModeSegment, freq: real)
  {
    g.lo <= freq && (freq < g.hi || (g.closed && freq == g.hi))
  }

  /** The sub-bands, band by band; each FT8 calling frequency inside one is `DIGITAL`
      whatever the sub-band says. */
  const MODE_PLAN: seq<ModeSegment> := [
    ModeSegment(135.0, 138.0, true, CW),
    ModeSegment(1800.0, 1838.0, false, CW), ModeSegment(1838.0, 1840.0, false, DIGITAL),
    ModeSegment(1840.0, 2000.0, false, LSB),
    ModeSegment(3500.0, 3580.0, false, CW), ModeSegment(3580.0, 3600.0, false, DIGITAL),
    ModeSegment(3600.0, 4000.0, false, LSB),
    ModeSegment(7000.0, 7040.0, false, CW), ModeSegment(7040.0, 7050.0, false, DIGITAL),
    ModeSegment(7050.0, 7300.0, false, LSB),
    ModeSegment(10100.0, 10140.0, false, CW), ModeSegment(10140.0, 10150.0, false, DIGITAL),
    ModeSegment(14000.0, 14070.0, false, CW), ModeSegment(14070.0, 14099.0, false, DIGITAL),
    ModeSegment(14100.0, 14350.0, false, USB),
    ModeSegment(18068.0, 18095.0, false, CW), ModeSegment(18095.0, 18110.0, false, DIGITAL),
    ModeSegment(18110.0, 18268.0, false, USB),
    ModeSegment(21000.0, 21070.0, false, CW), ModeSegment(21070.0, 21150.0, false, DIGITAL),
    ModeSegment(21150.0, 21450.0, false, USB),
    ModeSegment(24890.0, 24915.0, false, CW), ModeSegment(24915.0, 24930.0, false, DIGITAL),
    ModeSegment(24930.0, 24990.0, false, USB),
    ModeSegment(28000.0, 28070.0, false, CW), ModeSegment(28070.0, 28190.0, false, DIGITAL),
    ModeSegment(28300.0, 29700.0, false, USB),
    ModeSegment(50000.0, 50100.0, false, CW), ModeSegment(50100.0, 50500.0, false, USB),
    ModeSegment(50500.0, 51000.0, false, DIGITAL),
    ModeSegment(144000.0, 144150.0, false, CW), ModeSegment(144150.0, 144174.0, false, USB),
    ModeSegment(144174.0, 144175.0, false, DIGITAL), ModeSegment(144175.0, 144400.0, false, USB)
  ]

  /** Inside a sub-band, away from the FT8 calling frequencies and the gaps, the mode is the
      sub-band's. */
  lemma ModeBySegment(freq: real, i: int)
    requires 0 <= i < |MODE_PLAN| && InSegment(MODE_PLAN[i], freq)
    requires freq !in FT8 && !ModeGap(freq)
    ensures FreqToBand(freq).Ok? && FreqToBand(freq).value.mode == Some(MODE_PLAN[i].mode)
  {
    if i < 15 {
      ModeBySegmentBelow(freq, i);
    } else {
      ModeBySegmentAbove(freq, i);
    }
  }

  lemma ModeBySegmentBelow(freq: real, i: int)
    requires 0 <= i < 15 && InSegment(MODE_PLAN[i], freq)
    requires freq !in FT8 && !ModeGap(freq)
    ensures FreqToBand(freq).Ok? && FreqToBand(freq).value.mode == Some(MODE_PLAN[i].mode)
  {
  }

  lemma ModeBySegmentAbove(freq: real, i: int)
    requires 15 <= i < |MODE_PLAN| && InSegment(MODE_PLAN[i], freq)
    requires freq !in FT8 && !ModeGap(freq)
    ensures FreqToBand(freq).Ok? && FreqToBand(freq).value.mode == Some(MODE_PLAN[i].mode)
  {
  }

  /** The sub-bands leave no hole besides the gaps: every frequency in a band with modes lies
      in a gap or in some sub-band. */
  lemma SegmentsCover(freq: real)
    requires FreqToBand(freq).Ok? && !NoModeBand(freq) && !ModeGap(freq)
    ensures exists i :: 0 <= i < |MODE_PLAN| && InSegment(MODE_PLAN[i], freq)
  {
    if freq < 5000.0 {
      SegmentsCoverLow(freq);
    } else if freq < 15000.0 {
      SegmentsCoverMiddle(freq);
    } else {
      SegmentsCoverAbove(freq);
    }
  }

  lemma SegmentsCoverLow(freq: real)
    requires FreqToBand(freq).Ok? && !NoModeBand(freq) && !ModeGap(freq) && freq < 5000.0
    ensures exists i :: 0 <= i < |MODE_PLAN| && InSegment(MODE_PLAN[i], freq)
  {
    var plan := MODE_PLAN;
    assert InSegment(plan[0], freq) || InSegment(plan[1], freq) || InSegment(plan[2], freq)
      || InSegment(plan[3], freq) || InSegment(plan[4], freq) || InSegment(plan[5], freq)
      || InSegment(plan[6], freq);
  }

  lemma SegmentsCoverMiddle(freq: real)
    requires FreqToBand(freq).Ok? && !NoModeBand(freq) && !ModeGap(freq)
    requires 5000.0 <= freq < 15000.0
    ensures exists i :: 0 <= i < |MODE_PLAN| && InSegment(MODE_PLAN[i], freq)
  {
    var plan := MODE_PLAN;
    assert InSegment(plan[7], freq) || InSegment(plan[8], freq)
      || InSegment(plan[9], freq) || InSegment(plan[10], freq) || InSegment(plan[11], freq)
      || InSegment(plan[12], freq) || InSegment(plan[13], freq) || InSegment(plan[14], freq);
  }

  lemma SegmentsCoverAbove(freq: real)
    requires FreqToBand(freq).Ok? && !NoModeBand(freq) && !ModeGap(freq) && freq >= 15000.0
    ensures exists i :: 0 <= i < |MODE_PLAN| && InSegment(MODE_PLAN[i], freq)
  {
    var plan := MODE_PLAN;
    assert InSegment(plan[15], freq) || InSegment(plan[16], freq) || InSegment(plan[17], freq)
      || InSegment(plan[18], freq) || InSegment(plan[19], freq) || InSegment(plan[20], freq)
      || InSegment(plan[21], freq) || InSegment(plan[22], freq) || InSegment(plan[23], freq)
      || InSegment(plan[24], freq) || InSegment(plan[25], freq) || InSegment(plan[26], freq)
      || InSegment(plan[27], freq) || InSegment(plan[28], freq) || InSegment(plan[29], freq)
      || InSegment(plan[30], freq) || InSegment(plan[31], freq) || InSegment(plan[32], freq)
      || InSegment(plan[33], freq);
  }

  /** Values from the band plan's own examples. */
  lemma FreqToBandExamples()
    ensures FreqToBand(14005.3) == Ok(BandMode(20.0, Some(CW)))
    ensures FreqToBand(1838.0) == Ok(BandMode(160.0, Some(DIGITAL)))
    ensures FreqToBand(14099.5) == Ok(BandMode(20.0, None))
    ensures FreqToBand(144174.5) == Ok(BandMode(2.0, Some(DIGITAL)))
    ensures FreqToBand(220000.0) == Ok(BandMode(1.25, None))
    ensures FreqToBand(16304.0) == Err(KeyError)
  {
  }
}
