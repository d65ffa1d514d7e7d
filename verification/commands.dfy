/**
 * The command constructors of the Protocol directory with their argument checks, the
 * byte form every command is sent as, and what the frames carry: the
 * `AA FF` prefix, the subsystem byte, the fields read back from their bytes,
 * and the response length each command declares.
 */
module Commands {
  import opened Wrappers
  import opened Faults
  import opened Hex
  import opened Setpoints
  import opened Protocol

  // ---- The byte form ----

  /**
   * The implicit `byte[]` conversion of `BaseCommand`: the command string
   * parsed by `ToByteArray`, which is the command's frame, or the failure of
   * the one command that has no string.
   */
  method CommandBytes(cmd: Command) returns (r: Result<seq<Byte>, Fault>)
    ensures HasFrame(cmd) ==> r == Success(Frame(cmd))
    ensures !HasFrame(cmd) ==> r == Failure(NotImplemented)
  {
    ToBytesIsFrame(cmd);
    var text := Text(cmd);
    if text.Failure? {
      return Failure(text.error);
    }
    r := ToByteArray(text.value);
  }

  /**
   * The implicit `byte[]` conversion yields exactly the frame, whose length is
   * half the command string's; for the trigger-type command it throws
   * before any byte exists.
   */
  lemma ToBytesIsFrame(cmd: Command)
    ensures HasFrame(cmd) ==> ToBytes(cmd) == Success(Frame(cmd))
    ensures HasFrame(cmd) ==> |Text(cmd).value| == 2 * |Frame(cmd)|
    ensures !HasFrame(cmd) ==> ToBytes(cmd) == Failure(NotImplemented)
  {
    if HasFrame(cmd) {
      TextIsFrame(cmd);
      ParseHexOfHex(Frame(cmd));
    }
  }

  /** Every frame starts `AA FF`, then its subsystem, then its function code. */
  lemma FramePrefix(cmd: Command)
    requires HasFrame(cmd)
    ensures |Frame(cmd)| >= 4
    ensures Frame(cmd)[0] == 0xAA && Frame(cmd)[1] == 0xFF
    ensures Frame(cmd)[2] == Subsystem(cmd)
    ensures cmd.GetCalibrationCommand? <==> Frame(cmd)[2] == 0x06
  {
  }

  /**
   * Every wave-generator frame is `AA FF 02 sub ch`: the channel byte follows
   * the sub-function and precedes the payload.
   */
  lemma WaveGeneratorHeader(cmd: Command)
    requires HasFrame(cmd) && Subsystem(cmd) == 0x02
    ensures |Frame(cmd)| >= 5
    ensures Frame(cmd)[4] == Bit(cmd.isChannel2)
  {
  }

  /**
   * Only the get-calibration, get-status and read-data commands expect a
   * reply; all wave-generator, supply and trigger commands are
   * fire-and-forget.
   */
  lemma ResponseLengths(cmd: Command)
    ensures BytesToReceive(cmd) > 0 ==>
      cmd.GetCalibrationCommand? || cmd.GetOscilloscopeStatusCommand? || cmd.ReadOscilloscopeChannelDataCommand?
    ensures Subsystem(cmd) == 0x02 || Subsystem(cmd) == 0x03 || Subsystem(cmd) == 0x04 ==> BytesToReceive(cmd) == 0
    ensures cmd.GetCalibrationCommand? ==> BytesToReceive(cmd) == 17 && Frame(cmd) == [0xAA, 0xFF, 0x06, 0x01]
    ensures cmd.ReadOscilloscopeChannelDataCommand? && 0 <= cmd.samples < 0x8000_0000 ==>
      BytesToReceive(cmd) == 2 * cmd.samples
  {
  }

  // ---- Reading fields back from a frame ----

  /** The signed value of two bytes read as a 16-bit two's complement number. */
  function Signed16(bs: seq<Byte>): (v: int)
    requires |bs| == 2
    ensures -0x8000 <= v < 0x8000
    ensures v < 0 <==> bs[0] >= 0x80
    ensures (v + 0x1_0000) % 0x1_0000 == 0x100 * (bs[0] as int) + bs[1]
  {
    assert bs[..1] == [bs[0]] && [bs[0]][..0] == [];
    assert ValueOf([bs[0]]) == bs[0];
    assert ValueOf(bs) == 0x100 * (bs[0] as int) + bs[1];
    var v := ValueOf(bs);
    if v >= 0x8000 then v - 0x1_0000 else v
  }

  /** A signed 16-bit code rendered in two's complement reads back as itself. */
  lemma TwosComplementRoundTrip(x: Int16)
    ensures Signed16(BigEndian(x % 0x1_0000, 2)) == x
  {
    assert Pow256(2) == 0x1_0000;
    BigEndianRoundTrip(x % 0x1_0000, 2);
  }

  // ---- The constructors that check their arguments ----

  /** `new SetOscilloscopeBufferSizeCommand(size)`: throws unless `size` is one of the seven powers of two. */
  function NewBufferSize(size: int): (r: Result<Command, Fault>)
    ensures r.Success? <==> IsBufferSize(size)
    ensures r.Success? ==> HasFrame(r.value)
    ensures r.Success? ==> |Frame(r.value)| == 5 && Frame(r.value)[..4] == [0xAA, 0xFF, 0x01, 0x06]
    ensures r.Success? ==> Frame(r.value)[4] <= 6 && Pow2(Frame(r.value)[4] + 5) == size
  {
    if IsBufferSize(size) then Success(SetOscilloscopeBufferSizeCommand(size))
    else Failure(OutOfRange("size"))
  }

  /**
   * `new SetOscilloscopeSamplingFrequencyCommand(f)` as RainDrop uses it,
   * after checking `f` against [1 Hz, 40 MHz]: the frame carries the tick
   * count big-endian in four bytes.
   */
  function NewSamplingFrequency(f: real): (cmd: Command)
    requires 1.0 <= f <= 40000000.0
    ensures HasFrame(cmd)
    ensures |Frame(cmd)| == 8 && Frame(cmd)[..4] == [0xAA, 0xFF, 0x01, 0x05]
    ensures ValueOf(Frame(cmd)[4..]) == SamplingTicks(f)
    ensures 1 <= ValueOf(Frame(cmd)[4..]) <= 40000000
  {
    var ticks := SamplingTicks(f);
    SamplingFrameCarries(ticks);
    SetOscilloscopeSamplingFrequencyCommand(ticks)
  }

  lemma SamplingFrameCarries(ticks: Int32)
    requires ticks >= 0
    ensures var f := Frame(SetOscilloscopeSamplingFrequencyCommand(ticks));
      |f| == 8 && f[..4] == [0xAA, 0xFF, 0x01, 0x05] && ValueOf(f[4..]) == ticks
  {
    var f := Frame(SetOscilloscopeSamplingFrequencyCommand(ticks));
    assert ticks % 0x1_0000_0000 == ticks;
    assert f == Head(0x01, 0x05) + BigEndian(ticks, 4);
    assert f[4..] == BigEndian(ticks, 4);
    assert Pow256(4) == 0x1_0000_0000;
    BigEndianRoundTrip(ticks, 4);
  }

  /** `new SetOscilloscopeTriggerLevelCommand(level, is25V)`: throws outside [-range, range]. */
  function NewTriggerLevel(level: real, is25V: bool): (r: Result<Command, Fault>)
    ensures r.Success? <==> TriggerLevelInRange(level, is25V)
    ensures r.Success? ==> HasFrame(r.value)
    ensures r.Success? ==> |Frame(r.value)| == 6 && Frame(r.value)[..4] == [0xAA, 0xFF, 0x04, 0x03]
    ensures r.Success? ==> ValueOf(Frame(r.value)[4..]) == TriggerLevelCode(level, is25V) <= 4096
  {
    if !TriggerLevelInRange(level, is25V) then Failure(OutOfRange("level"))
    else
      var code := TriggerLevelCode(level, is25V);
      assert Pow256(2) == 0x1_0000;
      BigEndianRoundTrip(code, 2);
      assert Frame(SetOscilloscopeTriggerLevelCommand(code))[4..] == BigEndian(code, 2);
      Success(SetOscilloscopeTriggerLevelCommand(code))
  }

  /**
   * `new SetSupplyVoltageCommand(negative, voltage, cal)`: throws when the
   * voltage is outside the channel's range; otherwise an 8-byte frame
   * `AA FF 03 p 00 00 hi lo` whose last two bytes are the code in two's
   * complement.
   */
  function NewSupplyVoltage(negative: bool, voltage: real, calibrationOffset: Byte): (r: Result<Command, Fault>)
    ensures r.Success? <==> SupplyVoltageInRange(negative, voltage)
    ensures r.Success? ==> HasFrame(r.value)
    ensures r.Success? ==> |Frame(r.value)| == 8 && Frame(r.value)[..6] == [0xAA, 0xFF, 0x03, if negative then 0x02 else 0x01, 0x00, 0x00]
    ensures r.Success? ==> Signed16(Frame(r.value)[6..]) == SupplyCode(negative, voltage, calibrationOffset)
  {
    if !SupplyVoltageInRange(negative, voltage) then Failure(OutOfRange("voltage"))
    else
      var code := SupplyCode(negative, voltage, calibrationOffset);
      TwosComplementRoundTrip(code);
      assert Frame(SetSupplyVoltageCommand(negative, code))[6..] == BigEndian(code % 0x1_0000, 2);
      Success(SetSupplyVoltageCommand(negative, code))
  }

  /**
   * `new SetSupplyEnabledCommand(negative, enable)`: the last byte carries
   * polarity in bit 1 and the enable flag in bit 0.
   */
  lemma SupplyEnabledLayout(negative: bool, enable: bool)
    ensures var f := Frame(SetSupplyEnabledCommand(negative, enable));
      |f| == 5 && f[..4] == [0xAA, 0xFF, 0x03, 0x00] && f[4] <= 3
      && (f[4] / 2 == 1 <==> negative) && (f[4] % 2 == 1 <==> enable)
  {
  }

  /**
   * `new SetWaveGeneratorFrequencyCommand(ch, f)`: throws outside
   * [0, 40 MHz]; otherwise the code sits big-endian between the header and
   * the `FF` terminator. Below 40 MHz the code is the one the source
   * computes; at exactly 40 MHz, where the source's cast overflows, the
   * frame carries the saturated code `FFFFFFFF` (see `WaveFrequencyCode`).
   */
  function NewWaveFrequency(isChannel2: bool, frequency: real): (r: Result<Command, Fault>)
    ensures r.Success? <==> WaveFrequencyInRange(frequency)
    ensures r.Success? ==> HasFrame(r.value)
    ensures r.Success? ==> |Frame(r.value)| == 10 && Frame(r.value)[..5] == WaveHeader(0x01, isChannel2)
    ensures r.Success? ==> ValueOf(Frame(r.value)[5..9]) == WaveFrequencyCode(frequency) && Frame(r.value)[9] == 0xFF
    ensures r.Success? && frequency < 40000000.0 ==>
      ValueOf(Frame(r.value)[5..9]) == WaveFrequencyCodeAsWritten(frequency)
    ensures r.Success? && frequency == 40000000.0 ==> ValueOf(Frame(r.value)[5..9]) == 0xFFFF_FFFF
  {
    if !WaveFrequencyInRange(frequency) then Failure(OutOfRange("frequency"))
    else
      var code := WaveFrequencyCode(frequency);
      WordFieldRoundTrip(0x01, isChannel2, code);
      Success(SetWaveGeneratorFrequencyCommand(isChannel2, code))
  }

  lemma WordFieldRoundTrip(sub: Byte, isChannel2: bool, code: UInt32)
    ensures var f := WaveHeader(sub, isChannel2) + BigEndian(code, 4) + [0xFF];
      |f| == 10 && f[..5] == WaveHeader(sub, isChannel2) && ValueOf(f[5..9]) == code && f[9] == 0xFF
  {
    var f := WaveHeader(sub, isChannel2) + BigEndian(code, 4) + [0xFF];
    assert f[5..9] == BigEndian(code, 4);
    assert Pow256(4) == 0x1_0000_0000;
    BigEndianRoundTrip(code, 4);
  }

  /** `new SetWaveGeneratorAmplitudeCommand(ch, amplitude, cal)`: no check; the code sits before `FF`. */
  function NewWaveAmplitude(isChannel2: bool, amplitude: real, calibration: Byte): (cmd: Command)
    ensures HasFrame(cmd)
    ensures |Frame(cmd)| == 10 && Frame(cmd)[..5] == WaveHeader(0x02, isChannel2)
    ensures ValueOf(Frame(cmd)[5..9]) == AmplitudeCode(amplitude, calibration) && Frame(cmd)[9] == 0xFF
  {
    var code := AmplitudeCode(amplitude, calibration);
    WordFieldRoundTrip(0x02, isChannel2, code);
    SetWaveGeneratorAmplitudeCommand(isChannel2, code)
  }

  /** `new SetWaveGeneratorOffsetCommand(...)`: no check; the code ends the frame, with no `FF`. */
  function NewWaveOffset(isChannel2: bool, offset: real, amplitude: real, calibrationOffset: Byte,
    calibrationAmplitude: Byte): (cmd: Command)
    ensures HasFrame(cmd)
    ensures |Frame(cmd)| == 9 && Frame(cmd)[..5] == WaveHeader(0x03, isChannel2)
    ensures ValueOf(Frame(cmd)[5..]) == OffsetCode(offset, amplitude, calibrationOffset, calibrationAmplitude)
  {
    var code := OffsetCode(offset, amplitude, calibrationOffset, calibrationAmplitude);
    assert Frame(SetWaveGeneratorOffsetCommand(isChannel2, code))[5..] == BigEndian(code, 4);
    assert Pow256(4) == 0x1_0000_0000;
    BigEndianRoundTrip(code, 4);
    SetWaveGeneratorOffsetCommand(isChannel2, code)
  }

  /** `new SetWaveGeneratorSymmetryCommand(ch, symmetry)`: throws outside [0, 1]; one payload byte, `SymmetryCode`. */
  function NewWaveSymmetry(isChannel2: bool, symmetry: real): (r: Result<Command, Fault>)
    ensures r.Success? <==> SymmetryInRange(symmetry)
    ensures r.Success? ==> HasFrame(r.value)
    ensures r.Success? ==> |Frame(r.value)| == 6 && Frame(r.value)[..5] == WaveHeader(0x04, isChannel2)
    ensures r.Success? ==> (Frame(r.value)[5] == 0xFF <==> symmetry == 1.0)
    ensures r.Success? ==> Frame(r.value)[5] == SymmetryCode(symmetry)
  {
    if !SymmetryInRange(symmetry) then Failure(OutOfRange("symmetry"))
    else Success(SetWaveGeneratorSymmetryCommand(isChannel2, SymmetryCode(symmetry)))
  }

  /** The phase frame's payload is four zero bytes whatever phase is asked for. */
  lemma PhaseIgnored(isChannel2: bool, p: real, q: real)
    ensures Frame(SetWaveGeneratorPhaseCommand(isChannel2, p)) == Frame(SetWaveGeneratorPhaseCommand(isChannel2, q))
    ensures Frame(SetWaveGeneratorPhaseCommand(isChannel2, p)) == WaveHeader(0x05, isChannel2) + [0, 0, 0, 0]
  {
    assert BigEndian(0, 4) == [0, 0, 0, 0];
  }

  /** The function byte is the enum value; `Play` is `1F`. */
  lemma WaveFunctionLayout(isChannel2: bool, waveFunction: WaveFunction)
    ensures Frame(SetWaveGeneratorFunctionCommand(isChannel2, waveFunction))
         == WaveHeader(0x00, isChannel2) + [waveFunction.Value(), 0xFF]
    ensures waveFunction == Play ==> waveFunction.Value() == 0x1F
    ensures waveFunction != Play ==> waveFunction.Value() <= 10
  {
  }
}
