/**
 * The `float` formulas that turn engineering set-points into the integer
 * codes carried by the command frames, evaluated over `real`. The source's
 * casts truncate toward zero. C# leaves a float-to-`uint` cast of a value
 * outside the `uint` range unspecified; the model takes the saturating
 * conversion of .NET 9 and later and of Arm64 (`SaturateU32`) for every such
 * cast. The wrap-around of x64 runtimes before .NET 9 (`WrapU32`) appears
 * only in the as-written half of the 40 MHz finding.
 */
module Setpoints {
  import opened Hex

  /** The C# `(int)` / `(uint)` / `(short)` cast of a real: truncation toward zero. */
  function Trunc(x: real): (t: int)
    ensures x >= 0.0 ==> t >= 0 && t as real <= x < t as real + 1.0
    ensures x < 0.0 ==> t <= 0 && t as real - 1.0 < x <= t as real
  {
    if x >= 0.0 then x.Floor else -((-x).Floor)
  }

  lemma TruncMonotonic(x: real, y: real)
    requires x <= y
    ensures Trunc(x) <= Trunc(y)
  {
  }

  /** The x64 `(uint)` cast before .NET 9 of a truncated value: its low 32 bits. */
  function WrapU32(t: int): (u: UInt32)
    ensures 0 <= t < 0x1_0000_0000 ==> u == t
    ensures t == 0x1_0000_0000 ==> u == 0
  {
    t % 0x1_0000_0000
  }

  /**
   * The saturating `(uint)` cast of a truncated value (.NET 9 and later,
   * Arm64): in-range values are kept, anything below clamps to 0 and anything
   * above to the largest `uint`, so the cast never reverses an order.
   */
  function SaturateU32(t: int): (u: UInt32)
    ensures 0 <= t < 0x1_0000_0000 ==> u == t
    ensures t < 0 ==> u == 0
    ensures t >= 0x1_0000_0000 ==> u == 0xFFFF_FFFF
  {
    if t < 0 then 0 else if t > 0xFFFF_FFFF then 0xFFFF_FFFF else t
  }

  lemma SaturateMonotonic(t1: int, t2: int)
    requires t1 <= t2
    ensures SaturateU32(t1) <= SaturateU32(t2)
  {
  }

  /** `2^-9`, the weight of one calibration step in the supply and wave-generator formulas. */
  const CalStep: real := 0.001953125

  // ---- Oscilloscope sampling (Protocol/OscilloscopeCommand.cs:42, 51) ----

  /** `TickTime`, the period of the instrument's 40 MHz sampling clock. */
  const TickTime: real := 0.000000025

  lemma ReciprocalBounds(f: real)
    requires 1.0 <= f
    ensures 0.0 < 1.0 / f <= 1.0
    ensures (1.0 / f) * f == 1.0
  {
    var q := 1.0 / f;
    assert q * f == 1.0;
  }

  /**
   * `(int)(1 / f / TickTime)`: the number of clock ticks per sample. Only
   * frequencies in [1 Hz, 40 MHz] reach it (RainDrop.cs:121), and for those the
   * tick count lies in [1, 40 000 000].
   */
  function SamplingTicks(f: real): (ticks: Int32)
    requires 1.0 <= f <= 40000000.0
    ensures 1 <= ticks <= 40000000
    ensures f == 40000000.0 ==> ticks == 1
    ensures f == 1.0 ==> ticks == 40000000
  {
    ReciprocalBounds(f);
    var q := 1.0 / f;
    assert q * 40000000.0 >= 1.0 by {
      assert q * f == 1.0;
      assert q * f <= q * 40000000.0;
    }
    assert 1.0 / f / TickTime == q * 40000000.0;
    Trunc(1.0 / f / TickTime)
  }

  // ---- Trigger level (Protocol/OscilloscopeCommand.cs:183-192) ----

  function TriggerRange(is25V: bool): real {
    if is25V then 25.0 else 5.0
  }

  predicate TriggerLevelInRange(level: real, is25V: bool) {
    -TriggerRange(is25V) <= level <= TriggerRange(is25V)
  }

  /**
   * `2048 + (int)(level / range * 2048)`: mid-scale for 0 V, and within
   * [0, 4096] for any level inside the channel's range, so the `ushort` cast
   * never wraps and the code fits in 16 bits.
   */
  function TriggerLevelCode(level: real, is25V: bool): (code: UInt16)
    requires TriggerLevelInRange(level, is25V)
    ensures 0 <= code <= 4096
    ensures level == 0.0 ==> code == 2048
    ensures level == TriggerRange(is25V) ==> code == 4096
    ensures level == -TriggerRange(is25V) ==> code == 0
  {
    2048 + Trunc(level / TriggerRange(is25V) * 2048.0)
  }

  // ---- Supply voltage (Protocol/SupplyCommand.cs:13-28) ----

  predicate SupplyVoltageInRange(negative: bool, voltage: real) {
    if negative then -5.0 <= voltage <= 0.0 else 0.0 <= voltage <= 5.0
  }

  /** The real-valued set-point before the `(short)` cast. */
  function SupplyLevel(negative: bool, voltage: real, calibrationOffset: Byte): real {
    if !negative then (5.4 - calibrationOffset as real * CalStep - voltage) * 4096.0 / 12.175
    else (5.26 + calibrationOffset as real * CalStep + voltage) * 4096.0 / 12.175
  }

  /**
   * The supply code: for every voltage inside the channel's range and every
   * calibration byte it lies in [-33, 1937], so it fits a signed 16-bit field.
   * Near 5 V with a large calibration offset the positive channel's code is
   * negative, which the frame carries in two's complement.
   */
  function SupplyCode(negative: bool, voltage: real, calibrationOffset: Byte): (code: Int16)
    requires SupplyVoltageInRange(negative, voltage)
    ensures -33 <= code <= 1937
  {
    Trunc(SupplyLevel(negative, voltage, calibrationOffset))
  }

  /**
   * The positive channel's code falls as the requested voltage rises, the
   * negative channel's rises with it.
   */
  lemma SupplyCodeMonotonic(negative: bool, v1: real, v2: real, cal: Byte)
    requires SupplyVoltageInRange(negative, v1) && SupplyVoltageInRange(negative, v2)
    requires v1 <= v2
    ensures !negative ==> SupplyCode(negative, v1, cal) >= SupplyCode(negative, v2, cal)
    ensures negative ==> SupplyCode(negative, v1, cal) <= SupplyCode(negative, v2, cal)
  {
    if negative {
      TruncMonotonic(SupplyLevel(negative, v1, cal), SupplyLevel(negative, v2, cal));
    } else {
      TruncMonotonic(SupplyLevel(negative, v2, cal), SupplyLevel(negative, v1, cal));
    }
  }

  // ---- Wave generator (Protocol/WaveGeneratorCommand.cs) ----

  predicate WaveFrequencyInRange(frequency: real) {
    0.0 <= frequency <= 40000000.0
  }

  /** `frequency * 2^32 / 40e6` before the `(uint)` cast. */
  function WaveFrequencyLevel(frequency: real): real {
    frequency * 4294967296.0 / 40000000.0
  }

  /** `(uint)(frequency * 4294967296 / 40e6)` exactly as written: the cast wraps modulo 2^32. */
  function WaveFrequencyCodeAsWritten(frequency: real): (code: UInt32)
    requires WaveFrequencyInRange(frequency)
    ensures frequency < 40000000.0 ==> code == Trunc(WaveFrequencyLevel(frequency))
  {
    WrapU32(Trunc(WaveFrequencyLevel(frequency)))
  }

  /** 40 MHz passes the range check, yet its code 2^32 wraps to the code of 0 Hz. */
  lemma FortyMegahertzWrapsToZero()
    ensures WaveFrequencyInRange(40000000.0)
    ensures Trunc(WaveFrequencyLevel(40000000.0)) == 0x1_0000_0000
    ensures WaveFrequencyCodeAsWritten(40000000.0) == WaveFrequencyCodeAsWritten(0.0) == 0
  {
    assert WaveFrequencyLevel(40000000.0) == 4294967296.0;
  }

  /**
   * The frequency code under the saturating cast, which holds the top of the
   * range at the largest 32-bit value: equal to the as-written code below
   * 40 MHz, and monotonic over the whole accepted range.
   */
  function WaveFrequencyCode(frequency: real): (code: UInt32)
    requires WaveFrequencyInRange(frequency)
    ensures frequency < 40000000.0 ==> code == WaveFrequencyCodeAsWritten(frequency)
    ensures frequency == 40000000.0 ==> code == 0xFFFF_FFFF
  {
    SaturateU32(Trunc(WaveFrequencyLevel(frequency)))
  }

  lemma WaveFrequencyCodeMonotonic(f1: real, f2: real)
    requires WaveFrequencyInRange(f1) && WaveFrequencyInRange(f2) && f1 <= f2
    ensures WaveFrequencyCode(f1) <= WaveFrequencyCode(f2)
  {
    TruncMonotonic(WaveFrequencyLevel(f1), WaveFrequencyLevel(f2));
    SaturateMonotonic(Trunc(WaveFrequencyLevel(f1)), Trunc(WaveFrequencyLevel(f2)));
  }

  /** `amplitude / (cal * 2^-9 + 5) * 16383` before the `(uint)` cast. */
  function AmplitudeLevel(amplitude: real, calibration: Byte): real {
    amplitude / (calibration as real * CalStep + 5.0) * 16383.0
  }

  /**
   * `(uint)(amplitude / (cal * 2^-9 + 5) * 16383)`: wherever the level fits
   * in 32 bits, the code is that level truncated toward zero; a negative
   * amplitude gives 0.
   */
  function AmplitudeCode(amplitude: real, calibration: Byte): (code: UInt32)
    ensures 0.0 <= AmplitudeLevel(amplitude, calibration) < 4294967296.0 ==>
      code as real <= AmplitudeLevel(amplitude, calibration) < code as real + 1.0
    ensures amplitude <= 0.0 ==> code == 0
  {
    var d := calibration as real * CalStep + 5.0;
    assert amplitude / d * d == amplitude;
    assert amplitude <= 0.0 ==> AmplitudeLevel(amplitude, calibration) <= 0.0;
    SaturateU32(Trunc(AmplitudeLevel(amplitude, calibration)))
  }

  /** Any amplitude from 0 to 5 V gives a code within the 14-bit full scale 0..16383. */
  lemma AmplitudeCodeFullScale(amplitude: real, calibration: Byte)
    requires 0.0 <= amplitude <= 5.0
    ensures 0 <= AmplitudeCode(amplitude, calibration) <= 16383
    ensures amplitude == 0.0 ==> AmplitudeCode(amplitude, calibration) == 0
  {
    var d := calibration as real * CalStep + 5.0;
    var q := amplitude / d;
    assert q * d == amplitude;
    assert 0.0 <= q <= 1.0;
  }

  /** The offset set-point before the `(uint)` cast (Protocol/WaveGeneratorCommand.cs:81-84). */
  function OffsetLevel(offset: real, amplitude: real, calibrationOffset: Byte, calibrationAmplitude: Byte): real {
    (amplitude / (1.0 + calibrationAmplitude as real * CalStep / 5.0) + offset + 0.4312
      + calibrationOffset as real * CalStep) * 4096.0 / 22.80208
  }

  /**
   * The offset code: wherever the level fits in 32 bits, the level truncated
   * toward zero; a negative level gives 0.
   */
  function OffsetCode(offset: real, amplitude: real, calibrationOffset: Byte, calibrationAmplitude: Byte): (code: UInt32)
    ensures 0.0 <= OffsetLevel(offset, amplitude, calibrationOffset, calibrationAmplitude) < 4294967296.0 ==>
      code as real <= OffsetLevel(offset, amplitude, calibrationOffset, calibrationAmplitude) < code as real + 1.0
    ensures OffsetLevel(offset, amplitude, calibrationOffset, calibrationAmplitude) < 0.0 ==> code == 0
  {
    SaturateU32(Trunc(OffsetLevel(offset, amplitude, calibrationOffset, calibrationAmplitude)))
  }

  /** A higher offset never lowers the offset code, whatever the other inputs. */
  lemma OffsetCodeMonotonic(o1: real, o2: real, amplitude: real, calOff: Byte, calAmp: Byte)
    requires o1 <= o2
    ensures OffsetCode(o1, amplitude, calOff, calAmp) <= OffsetCode(o2, amplitude, calOff, calAmp)
  {
    TruncMonotonic(OffsetLevel(o1, amplitude, calOff, calAmp), OffsetLevel(o2, amplitude, calOff, calAmp));
    SaturateMonotonic(Trunc(OffsetLevel(o1, amplitude, calOff, calAmp)), Trunc(OffsetLevel(o2, amplitude, calOff, calAmp)));
  }

  predicate SymmetryInRange(symmetry: real) {
    0.0 <= symmetry <= 1.0
  }

  /** `(byte)(symmetry * 255)`: the scaled symmetry truncated, and 255 exactly for a symmetry of 1. */
  function SymmetryCode(symmetry: real): (code: Byte)
    requires SymmetryInRange(symmetry)
    ensures code as real <= symmetry * 255.0 < code as real + 1.0
    ensures code == 255 <==> symmetry == 1.0
    ensures symmetry == 0.0 ==> code == 0
  {
    Trunc(symmetry * 255.0)
  }
}
