/**
 * The fine-time model: how a digitizer's constant-fraction (CFD) word turns
 * a 48-bit clock-tick timestamp into a corrected event time, per digitizer
 * frequency (100, 250 or 500 MHz).
 */
module FineTime {
  import opened Bits
  import opened Layout

  /** Sub-tick fraction (in 1/32768 of a tick) and whether the digitizer forced it. */
  datatype CFD = CFD(fraction: int, force: int)

  /** Corrected time and the force flag it was computed with. */
  datatype EventTime = EventTime(time: nat, cfdForce: int)

  function ProcessCFD(data: bv32, frequency: int): (r: CFD)
    ensures r.force == 0 || r.force == 1
  {
    if frequency == 100 then
      var time := Apply(mCFDTime100, data);
      var force := Apply(mCFDForce100, data);
      CFD(time as int, force as int)
    else if frequency == 250 then
      var time := Apply(mCFDTime250, data);
      var trigSource := Apply(mCFDTrigSource250, data);
      var force := Apply(mCFDForce250, data);
      if force == 0 then CFD(time as int - 16384 * trigSource as int, force as int)
      else CFD(16384, force as int)
    else if frequency == 500 then
      var time := Apply(mCFDTime500, data);
      var trigSource := Apply(mCFDTrigSource500, data);
      if trigSource == 7 then CFD(40960 * 4 / 5, 1)
      else CFD(TruncDiv((time as int + 8192 * (trigSource as int - 1)) * 4, 5), 0)
    else
      // The source only prints a warning here.
      CFD(0, 0)
  }

  // Each CFD mask selects the bit-field its name says.

  lemma Time100IsField(data: bv32)
    ensures Apply(mCFDTime100, data) as int == Field(data, 16, 15)
  {
    assert Apply(mCFDTime100, data) == (data >> 16) & ((1 << 15) - 1);
  }

  lemma Time100Bound(data: bv32)
    ensures Apply(mCFDTime100, data) as int < 32768
  {
    assert Apply(mCFDTime100, data) <= 0x7FFF;
  }

  lemma Time250IsField(data: bv32)
    ensures Apply(mCFDTime250, data) as int == Field(data, 16, 14)
  {
    assert Apply(mCFDTime250, data) == (data >> 16) & ((1 << 14) - 1);
  }

  lemma Time250Bound(data: bv32)
    ensures Apply(mCFDTime250, data) as int < 16384
  {
    assert Apply(mCFDTime250, data) <= 0x3FFF;
  }

  lemma Time500IsField(data: bv32)
    ensures Apply(mCFDTime500, data) as int == Field(data, 16, 13)
  {
    assert Apply(mCFDTime500, data) == (data >> 16) & ((1 << 13) - 1);
  }

  lemma Time500Bound(data: bv32)
    ensures Apply(mCFDTime500, data) as int < 8192
  {
    assert Apply(mCFDTime500, data) <= 0x1FFF;
  }

  lemma ForceIsBit31(data: bv32)
    ensures Apply(mCFDForce100, data) as int == Apply(mCFDForce250, data) as int == Bit(data, 31)
  {
    assert Apply(mCFDForce100, data) == (data >> 31) & 1;
  }

  lemma TrigSource250IsBit30(data: bv32)
    ensures Apply(mCFDTrigSource250, data) as int == Bit(data, 30)
  {
    assert Apply(mCFDTrigSource250, data) == (data >> 30) & 1;
  }

  lemma TrigSource500IsField(data: bv32)
    ensures Apply(mCFDTrigSource500, data) as int == Field(data, 29, 3)
  {
    assert Apply(mCFDTrigSource500, data) == (data >> 29) & ((1 << 3) - 1);
  }

  lemma TrigSource500Bound(data: bv32)
    ensures Apply(mCFDTrigSource500, data) as int < 8
  {
    assert Apply(mCFDTrigSource500, data) <= 7;
  }

  /** At 100 MHz: the fraction is bits 16-30 (0..32767) and the force flag is bit 31. */
  lemma CFDAt100(data: bv32)
    ensures ProcessCFD(data, 100) == CFD(Field(data, 16, 15), Bit(data, 31))
    ensures 0 <= ProcessCFD(data, 100).fraction < 32768
  {
    Time100IsField(data);
    Time100Bound(data);
    ForceIsBit31(data);
  }

  /**
   * At 250 MHz: the force flag is bit 31; a forced fraction is the sentinel
   * 16384, otherwise bits 16-29 less 16384 when the trigger-source bit 30 is set.
   */
  lemma CFDAt250(data: bv32)
    ensures ProcessCFD(data, 250).force == Bit(data, 31)
    ensures Bit(data, 31) == 1 ==> ProcessCFD(data, 250).fraction == 16384
    ensures Bit(data, 31) == 0 ==> ProcessCFD(data, 250).fraction == Field(data, 16, 14) - 16384 * Bit(data, 30)
    ensures -16384 <= ProcessCFD(data, 250).fraction <= 16384
  {
    Time250IsField(data);
    Time250Bound(data);
    ForceIsBit31(data);
    TrigSource250IsBit30(data);
  }

  /**
   * At 500 MHz: trigger source 7 (bits 29-31) forces the sentinel 32768
   * whatever bits 16-28 hold; any other source gives an unforced fraction
   * (fine + 8192 * (source - 1)) * 4 / 5, divided as C++ divides.
   */
  lemma CFDAt500(data: bv32)
    ensures Field(data, 29, 3) == 7 ==> ProcessCFD(data, 500) == CFD(32768, 1)
    ensures Field(data, 29, 3) != 7 ==>
      ProcessCFD(data, 500) == CFD(TruncDiv((Field(data, 16, 13) + 8192 * (Field(data, 29, 3) - 1)) * 4, 5), 0)
    ensures -6553 <= ProcessCFD(data, 500).fraction <= 39320
  {
    Fraction500(data);
    Range500(data);
  }

  lemma Fraction500(data: bv32)
    ensures Field(data, 29, 3) == 7 ==> ProcessCFD(data, 500) == CFD(32768, 1)
    ensures Field(data, 29, 3) != 7 ==>
      ProcessCFD(data, 500) == CFD(TruncDiv((Field(data, 16, 13) + 8192 * (Field(data, 29, 3) - 1)) * 4, 5), 0)
  {
    Time500IsField(data);
    TrigSource500IsField(data);
  }

  lemma Range500(data: bv32)
    ensures -6553 <= ProcessCFD(data, 500).fraction <= 39320
  {
    Time500IsField(data);
    Time500Bound(data);
    TrigSource500IsField(data);
    TrigSource500Bound(data);
  }

  /** Any other frequency leaves the time uncorrected and unforced. */
  lemma CFDAtOtherFrequency(data: bv32, frequency: int)
    requires frequency != 100 && frequency != 250 && frequency != 500
    ensures ProcessCFD(data, frequency) == CFD(0, 0)
  {
  }

  /** The raw 48-bit timestamp: bits 0-15 of the high word above the whole low word. */
  function Timestamp(low: bv32, high: bv32): nat
  {
    Apply(mTimeHigh, high) as int * TwoTo32 + Apply(mTimeLow, low) as int
  }

  /** The timestamp has 48 bits. */
  lemma TimestampBound(low: bv32, high: bv32)
    ensures Timestamp(low, high) < 0x1_0000_0000_0000
  {
    TimeWordBounds(low, high);
  }

  lemma TimeWordBounds(low: bv32, high: bv32)
    ensures Apply(mTimeHigh, high) as int < 0x1_0000
    ensures Apply(mTimeLow, low) as int < TwoTo32
  {
    assert Apply(mTimeHigh, high) <= 0xFFFF;
  }

  lemma TimeHighIsField(high: bv32)
    ensures Apply(mTimeHigh, high) as int == Field(high, 0, 16)
  {
    assert Apply(mTimeHigh, high) == (high >> 0) & ((1 << 16) - 1);
  }

  lemma TimeLowIsWord(low: bv32)
    ensures Apply(mTimeLow, low) as int == low as int
  {
    assert Apply(mTimeLow, low) == low;
  }

  /** The timestamp splits back into the low word and bits 0-15 of the high word. */
  lemma TimestampSplits(low: bv32, high: bv32)
    ensures Timestamp(low, high) / TwoTo32 == Field(high, 0, 16)
    ensures Timestamp(low, high) % TwoTo32 == low as int
  {
    TimeHighIsField(high);
    TimeLowIsWord(low);
    var h, l := Apply(mTimeHigh, high) as int, Apply(mTimeLow, low) as int;
    assert 0 <= l < TwoTo32;
    DivModUnique(Timestamp(low, high), TwoTo32, h, l);
  }

  /** Quotient and remainder are the only pair that rebuilds the dividend. */
  lemma DivModUnique(x: int, d: int, q: int, r: int)
    requires d > 0 && 0 <= r < d && x == q * d + r
    ensures x / d == q && x % d == r
  {
    var k := q - x / d;
    assert k * d == x % d - r;
    MulSign(k, d);
  }

  lemma MulSign(k: int, d: int)
    requires d > 0
    ensures k >= 1 ==> k * d >= d
    ensures k <= -1 ==> k * d <= -d
  {
  }

  function ProcessTime(timestamp: nat, cfddat: bv32, frequency: int): (r: EventTime)
    requires timestamp < TwoTo64
    ensures r.time < TwoTo64
    ensures r.cfdForce == ProcessCFD(cfddat, frequency).force
  {
    var time := Wrap64(timestamp * 32768);        // timestamp << 15
    var cfd := ProcessCFD(cfddat, frequency);
    var time := Wrap64(time + cfd.fraction);       // the int fraction is added modulo 2^64
    var time := if frequency == 250 then Wrap64(time * 8) / 10 else time;
    EventTime(time, cfd.force)
  }

  /** Adding to a value already reduced modulo 2^64 gives the reduction of the plain sum. */
  lemma WrapAdd(a: int, b: int)
    ensures Wrap64(Wrap64(a) + b) == Wrap64(a + b)
  {
    var k := a / TwoTo64;
    assert a == k * TwoTo64 + Wrap64(a);
    DivModUnique(Wrap64(a) + b, TwoTo64, (Wrap64(a) + b) / TwoTo64, Wrap64(Wrap64(a) + b));
    DivModUnique(a + b, TwoTo64, k + (Wrap64(a) + b) / TwoTo64, Wrap64(Wrap64(a) + b));
  }

  /**
   * The corrected time is the timestamp shifted left by 15 plus the fraction,
   * modulo 2^64; at 250 MHz that sum is then multiplied by 8 (modulo 2^64)
   * and divided by 10.
   */
  lemma CorrectedTime(timestamp: nat, cfddat: bv32, frequency: int)
    requires timestamp < TwoTo64
    ensures var sum := Wrap64(timestamp * 32768 + ProcessCFD(cfddat, frequency).fraction);
      ProcessTime(timestamp, cfddat, frequency).time
        == if frequency == 250 then Wrap64(sum * 8) / 10 else sum
  {
    WrapAdd(timestamp * 32768, ProcessCFD(cfddat, frequency).fraction);
  }

  /**
   * At 100 MHz nothing wraps for a 48-bit timestamp, and the corrected time
   * keeps the timestamp above its low 15 bits and the fraction in them.
   */
  lemma Time100KeepsTimestamp(timestamp: nat, cfddat: bv32)
    requires timestamp < 0x1_0000_0000_0000
    ensures ProcessTime(timestamp, cfddat, 100).time / 32768 == timestamp
    ensures ProcessTime(timestamp, cfddat, 100).time % 32768 == ProcessCFD(cfddat, 100).fraction
  {
    CFDAt100(cfddat);
    var f := ProcessCFD(cfddat, 100).fraction;
    assert 0 <= timestamp * 32768 + f < TwoTo64;
    CorrectedTime(timestamp, cfddat, 100);
    DivModUnique(timestamp * 32768 + f, 32768, timestamp, f);
  }

  /**
   * At 250 MHz the scaled time is the floor of 4/5 of the shifted, corrected
   * time as long as multiplying by 8 stays below 2^64 (timestamps from 1 to
   * below 2^45).
   */
  lemma Time250ScalesByFourFifths(timestamp: nat, cfddat: bv32)
    requires 1 <= timestamp < 0x2000_0000_0000
    ensures ProcessTime(timestamp, cfddat, 250).time
         == (timestamp * 32768 + ProcessCFD(cfddat, 250).fraction) * 4 / 5
  {
    CFDAt250(cfddat);
    var x := timestamp * 32768 + ProcessCFD(cfddat, 250).fraction;
    assert 0 < x < 0x2000_0000_0000_0000;
    CorrectedTime(timestamp, cfddat, 250);
    assert Wrap64(x) == x && Wrap64(x * 8) == x * 8;
    var q, r := x * 4 / 5, x * 4 % 5;
    assert x * 8 == 10 * q + 2 * r;
    DivModUnique(x * 8, 10, q, 2 * r);
  }

  /**
   * Past 2^46 the 250 MHz multiplication by 8 wraps before the division:
   * a timestamp of 2^47 with an unforced zero fraction comes out as time 0.
   */
  lemma Time250WrapsForLateTimestamps()
    ensures ProcessTime(0x8000_0000_0000, 0, 250).time == 0
  {
    CFDAt250(0);
    assert ProcessCFD(0, 250).fraction == 0 by {
      assert Bit(0, 31) == 0 && Bit(0, 30) == 0 && Field(0, 16, 14) == 0;
    }
    CorrectedTime(0x8000_0000_0000, 0, 250);
  }

  /**
   * At 500 MHz trigger source 0 gives a negative fraction, which wraps a
   * zero timestamp to just below 2^64.
   */
  lemma NegativeFractionWraps()
    ensures ProcessCFD(0, 500).fraction == -6553
    ensures ProcessTime(0, 0, 500).time == TwoTo64 - 6553
  {
    CFDAt500(0);
    assert Field(0, 29, 3) == 0 && Field(0, 16, 13) == 0;
    CorrectedTime(0, 0, 500);
  }
}
