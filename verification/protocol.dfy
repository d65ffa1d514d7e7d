/**
 * The command classes of the Protocol directory: one constructor per class, the hex
 * string each one builds (`Command`), the bytes it converts to, and the
 * number of response bytes it declares (`BytesToReceive`).
 */
module Protocol {
  import opened Wrappers
  import opened Faults
  import opened Hex
  import opened Setpoints

  /** `OscilloscopeTriggerSource` (Protocol/OscilloscopeCommand.cs:140-153); `SourceNone` is `None`. */
  datatype TriggerSource =
    | SourceNone | DetectorAnalogInCh1 | DetectorAnalogInCh2 | AnalogOut1 | AnalogOut2
    | DetectorDigitalIn | DigitalOut | Manual | External1 | External2 | DigitalIn
  {
    function Value(): Byte {
      match this
      case SourceNone => 0
      case DetectorAnalogInCh1 => 1
      case DetectorAnalogInCh2 => 2
      case AnalogOut1 => 3
      case AnalogOut2 => 4
      case DetectorDigitalIn => 5
      case DigitalOut => 6
      case Manual => 7
      case External1 => 8
      case External2 => 9
      case DigitalIn => 10
    }
  }

  /** `OscilloscopeTriggerType` (Protocol/OscilloscopeCommand.cs:170-175). */
  datatype TriggerType = EdgeType | PulseType | TransitionType

  /** `OscilloscopeTriggerCondition` (Protocol/OscilloscopeCommand.cs:208-213). */
  datatype TriggerCondition = Rise | Fall | Edge
  {
    function Value(): Byte {
      match this
      case Rise => 0
      case Fall => 1
      case Edge => 2
    }
  }

  /** `WaveGeneratorFunction` (Protocol/WaveGeneratorCommand.cs:19-33). */
  datatype WaveFunction =
    | Direct | Sine | Square | Triangle | RampUp | RampDown | Noise | Pulse
    | Trapezium | SinePower | Custom | Play
  {
    function Value(): Byte {
      match this
      case Direct => 0
      case Sine => 1
      case Square => 2
      case Triangle => 3
      case RampUp => 4
      case RampDown => 5
      case Noise => 6
      case Pulse => 7
      case Trapezium => 8
      case SinePower => 9
      case Custom => 10
      case Play => 31
    }
  }

  /** The sample counts the buffer-size field can encode. */
  predicate IsBufferSize(n: int) {
    n == 32 || n == 64 || n == 128 || n == 256 || n == 512 || n == 1024 || n == 2048
  }

  type BufferSize = n: int | IsBufferSize(n) witness 32

  /**
   * The value the buffer-size command sends, `(int)Math.Log2(size) - 5`:
   * 0 for 32 samples up to 6 for 2048.
   */
  function BufferSizeCode(size: BufferSize): (code: Byte)
    ensures code <= 6 && Pow2(code + 5) == size
  {
    PowersOfTwo();
    assert IsBufferSize(size);
    if size == 32 then 0
    else if size == 64 then 1
    else if size == 128 then 2
    else if size == 256 then 3
    else if size == 512 then 4
    else if size == 1024 then 5
    else 6
  }

  lemma PowersOfTwo()
    ensures Pow2(5) == 32 && Pow2(6) == 64 && Pow2(7) == 128 && Pow2(8) == 256
    ensures Pow2(9) == 512 && Pow2(10) == 1024 && Pow2(11) == 2048
  {
  }

  function Pow2(e: nat): (p: nat)
    ensures p > 0
  {
    if e == 0 then 1 else 2 * Pow2(e - 1)
  }

  /**
   * One constructor per command class. Fields hold what the class keeps in
   * its readonly fields; the codes computed from `float`s are held as the
   * integers the C# casts produce (see the smart constructors below).
   */
  datatype Command =
      // Protocol/CalibrationCommand.cs
    | GetCalibrationCommand
      // Protocol/OscilloscopeCommand.cs, subsystem 01
    | SetOscilloscopeChannelStateCommand(channel: bool, enable: bool)
    | SetOscilloscopeChannelRangeCommand(channel: bool, is25V: bool)
    | SetOscilloscopeSamplingFrequencyCommand(ticks: Int32)
    | SetOscilloscopeBufferSizeCommand(size: BufferSize)
    | SetOscilloscopeRunningCommand(enabled: bool)
    | GetOscilloscopeStatusCommand
    | StopGettingOscilloscopeStatusCommand
    | ReadOscilloscopeChannelDataCommand(channel: bool, samples: Int32)
      // Protocol/OscilloscopeCommand.cs, trigger subsystem 04
    | SetOscilloscopeTriggerTimeoutCommand(forever: bool)
    | SetOscilloscopeTriggerSourceCommand(source: TriggerSource)
    | SetOscilloscopeTriggerTypeCommand(triggerType: TriggerType)
    | SetOscilloscopeTriggerLevelCommand(level: UInt16)
    | SetOscilloscopeTriggerConditionCommand(condition: TriggerCondition)
      // Protocol/SupplyCommand.cs, subsystem 03
    | SetSupplyVoltageCommand(isNegativeChannel: bool, voltage: Int16)
    | SetSupplyEnabledCommand(isNegativeChannel: bool, enable: bool)
      // Protocol/WaveGeneratorCommand.cs, subsystem 02
    | SetWaveGeneratorFunctionCommand(isChannel2: bool, waveFunction: WaveFunction)
    | SetWaveGeneratorFrequencyCommand(isChannel2: bool, frequency: UInt32)
    | SetWaveGeneratorAmplitudeCommand(isChannel2: bool, amplitude: UInt32)
    | SetWaveGeneratorOffsetCommand(isChannel2: bool, offset: UInt32)
    | SetWaveGeneratorSymmetryCommand(isChannel2: bool, symmetry: Byte)
    | SetWaveGeneratorPhaseCommand(isChannel2: bool, phase: real)
    | SetWaveGeneratorEnabledCommand(isChannel2: bool, enabled: bool)

  // ---- The command strings, as the class hierarchy concatenates them ----

  /** `BaseCommand.Command`. */
  const BaseText: string := "aaff"

  function Flag(b: bool): string {
    if b then "01" else "00"
  }

  /** `WaveGeneratorCommand.Command`: subsystem, sub-function, then the channel. */
  function WaveHeaderText(subFunction: string, isChannel2: bool): string {
    BaseText + "02" + subFunction + Flag(isChannel2)
  }

  /**
   * The `Command` property: reading it throws for the trigger-type command
   * and for no other.
   */
  function Text(cmd: Command): (r: Result<string, Fault>)
    ensures r.Success? <==> HasFrame(cmd)
    ensures r.Failure? ==> r.error == NotImplemented
  {
    match cmd
    case GetCalibrationCommand => Success(BaseText + "06" + "01")
    case SetOscilloscopeChannelStateCommand(channel, enable) =>
      Success(BaseText + "01" + "07" + Flag(channel) + Flag(enable))
    case SetOscilloscopeChannelRangeCommand(channel, is25V) =>
      Success(BaseText + "01" + "04" + Flag(channel) + Flag(is25V))
    case SetOscilloscopeSamplingFrequencyCommand(ticks) =>
      Success(BaseText + "01" + "05" + HexDigits(ticks % 0x1_0000_0000, 8))
    case SetOscilloscopeBufferSizeCommand(size) =>
      Success(BaseText + "01" + "06" + Hex2(BufferSizeCode(size)))
    case SetOscilloscopeRunningCommand(enabled) => Success(BaseText + "01" + "08" + Flag(enabled))
    case GetOscilloscopeStatusCommand => Success(BaseText + "01" + "09")
    case StopGettingOscilloscopeStatusCommand => Success(BaseText + "01" + "0a")
    case ReadOscilloscopeChannelDataCommand(channel, _) =>
      Success(BaseText + "01" + (if channel then "02" else "01"))
    case SetOscilloscopeTriggerTimeoutCommand(forever) =>
      Success(BaseText + "04" + "04" + (if forever then "00" else "01"))
    case SetOscilloscopeTriggerSourceCommand(source) =>
      Success(BaseText + "04" + "00" + Hex2(source.Value()))
    case SetOscilloscopeTriggerTypeCommand(_) => Failure(NotImplemented)
    case SetOscilloscopeTriggerLevelCommand(level) => Success(BaseText + "04" + "03" + HexDigits(level, 4))
    case SetOscilloscopeTriggerConditionCommand(condition) =>
      Success(BaseText + "04" + "02" + Hex2(condition.Value()))
    case SetSupplyVoltageCommand(negative, voltage) =>
      Success(BaseText + "03" + (if negative then "02" else "01") + "0000" + HexDigits(voltage % 0x1_0000, 4))
    case SetSupplyEnabledCommand(negative, enable) =>
      Success(BaseText + "03" + "00" + Hex2((if negative then 2 else 0) + (if enable then 1 else 0)))
    case SetWaveGeneratorFunctionCommand(isChannel2, waveFunction) =>
      Success(WaveHeaderText("00", isChannel2) + Hex2(waveFunction.Value()) + "ff")
    case SetWaveGeneratorFrequencyCommand(isChannel2, frequency) =>
      Success(WaveHeaderText("01", isChannel2) + HexDigits(frequency, 8) + "ff")
    case SetWaveGeneratorAmplitudeCommand(isChannel2, amplitude) =>
      Success(WaveHeaderText("02", isChannel2) + HexDigits(amplitude, 8) + "ff")
    case SetWaveGeneratorOffsetCommand(isChannel2, offset) =>
      Success(WaveHeaderText("03", isChannel2) + HexDigits(offset, 8))
    case SetWaveGeneratorSymmetryCommand(isChannel2, symmetry) =>
      Success(WaveHeaderText("04", isChannel2) + Hex2(symmetry))
    case SetWaveGeneratorPhaseCommand(isChannel2, _) => Success(WaveHeaderText("05", isChannel2) + "00000000")
    case SetWaveGeneratorEnabledCommand(isChannel2, enabled) =>
      Success(WaveHeaderText("0b", isChannel2) + (if enabled then "01" else "00"))
  }

  /**
   * The implicit `byte[]` conversion: the command string through
   * Helper.ToByteArray. Every command string is well formed, so the
   * conversion fails only where reading the string throws.
   */
  function ToBytes(cmd: Command): (r: Result<seq<Byte>, Fault>)
    ensures r.Success? <==> HasFrame(cmd)
    ensures r.Failure? ==> r.error == NotImplemented
  {
    match Text(cmd)
    case Success(s) =>
      TextIsFrame(cmd);
      ParseHexOfHex(Frame(cmd));
      ParseHex(s)
    case Failure(e) => Failure(e)
  }

  /**
   * `BytesToReceive`: 0 unless a class overrides it; the read length is
   * `(uint)(2 * size)`. Only commands of the oscilloscope and calibration
   * subsystems expect a reply, and the length always fits a `uint`.
   */
  function BytesToReceive(cmd: Command): (n: nat)
    ensures n < 0x1_0000_0000
    ensures n > 0 ==> HasFrame(cmd) && (Subsystem(cmd) == 0x01 || Subsystem(cmd) == 0x06)
  {
    match cmd
    case GetCalibrationCommand => 17
    case GetOscilloscopeStatusCommand => 4
    case ReadOscilloscopeChannelDataCommand(_, samples) => (2 * samples) % 0x1_0000_0000
    case _ => 0
  }

  // ---- The wire layout, byte by byte ----

  predicate HasFrame(cmd: Command) {
    !cmd.SetOscilloscopeTriggerTypeCommand?
  }

  function Bit(b: bool): Byte {
    if b then 1 else 0
  }

  /** The subsystem opcode that follows `AA FF`. */
  function Subsystem(cmd: Command): Byte {
    match cmd
    case GetCalibrationCommand => 0x06
    case SetSupplyVoltageCommand(_, _) => 0x03
    case SetSupplyEnabledCommand(_, _) => 0x03
    case SetOscilloscopeTriggerTimeoutCommand(_) => 0x04
    case SetOscilloscopeTriggerSourceCommand(_) => 0x04
    case SetOscilloscopeTriggerTypeCommand(_) => 0x04
    case SetOscilloscopeTriggerLevelCommand(_) => 0x04
    case SetOscilloscopeTriggerConditionCommand(_) => 0x04
    case SetWaveGeneratorFunctionCommand(_, _) => 0x02
    case SetWaveGeneratorFrequencyCommand(_, _) => 0x02
    case SetWaveGeneratorAmplitudeCommand(_, _) => 0x02
    case SetWaveGeneratorOffsetCommand(_, _) => 0x02
    case SetWaveGeneratorSymmetryCommand(_, _) => 0x02
    case SetWaveGeneratorPhaseCommand(_, _) => 0x02
    case SetWaveGeneratorEnabledCommand(_, _) => 0x02
    case _ => 0x01
  }

  /** `AA FF`, the subsystem, then the function code. */
  function Head(subsystem: Byte, code: Byte): seq<Byte> {
    [0xAA, 0xFF, subsystem, code]
  }

  /** The wave generator header: `AA FF 02`, the sub-function, then the channel. */
  function WaveHeader(subFunction: Byte, isChannel2: bool): seq<Byte> {
    Head(0x02, subFunction) + [Bit(isChannel2)]
  }

  /** The frame each command puts on the wire. */
  function Frame(cmd: Command): seq<Byte>
    requires HasFrame(cmd)
  {
    match cmd
    case GetCalibrationCommand => Head(0x06, 0x01)
    case SetOscilloscopeChannelStateCommand(channel, enable) => Head(0x01, 0x07) + [Bit(channel)] + [Bit(enable)]
    case SetOscilloscopeChannelRangeCommand(channel, is25V) => Head(0x01, 0x04) + [Bit(channel)] + [Bit(is25V)]
    case SetOscilloscopeSamplingFrequencyCommand(ticks) => Head(0x01, 0x05) + BigEndian(ticks % 0x1_0000_0000, 4)
    case SetOscilloscopeBufferSizeCommand(size) => Head(0x01, 0x06) + [BufferSizeCode(size)]
    case SetOscilloscopeRunningCommand(enabled) => Head(0x01, 0x08) + [Bit(enabled)]
    case GetOscilloscopeStatusCommand => Head(0x01, 0x09)
    case StopGettingOscilloscopeStatusCommand => Head(0x01, 0x0A)
    case ReadOscilloscopeChannelDataCommand(channel, _) => Head(0x01, Bit(channel) + 1)
    case SetOscilloscopeTriggerTimeoutCommand(forever) => Head(0x04, 0x04) + [1 - Bit(forever)]
    case SetOscilloscopeTriggerSourceCommand(source) => Head(0x04, 0x00) + [source.Value()]
    case SetOscilloscopeTriggerLevelCommand(level) => Head(0x04, 0x03) + BigEndian(level, 2)
    case SetOscilloscopeTriggerConditionCommand(condition) => Head(0x04, 0x02) + [condition.Value()]
    case SetSupplyVoltageCommand(negative, voltage) =>
      Head(0x03, Bit(negative) + 1) + [0x00] + [0x00] + BigEndian(voltage % 0x1_0000, 2)
    case SetSupplyEnabledCommand(negative, enable) => Head(0x03, 0x00) + [2 * Bit(negative) + Bit(enable)]
    case SetWaveGeneratorFunctionCommand(isChannel2, waveFunction) =>
      WaveHeader(0x00, isChannel2) + [waveFunction.Value()] + [0xFF]
    case SetWaveGeneratorFrequencyCommand(isChannel2, frequency) =>
      WaveHeader(0x01, isChannel2) + BigEndian(frequency, 4) + [0xFF]
    case SetWaveGeneratorAmplitudeCommand(isChannel2, amplitude) =>
      WaveHeader(0x02, isChannel2) + BigEndian(amplitude, 4) + [0xFF]
    case SetWaveGeneratorOffsetCommand(isChannel2, offset) => WaveHeader(0x03, isChannel2) + BigEndian(offset, 4)
    case SetWaveGeneratorSymmetryCommand(isChannel2, symmetry) => WaveHeader(0x04, isChannel2) + [symmetry]
    case SetWaveGeneratorPhaseCommand(isChannel2, _) => WaveHeader(0x05, isChannel2) + BigEndian(0, 4)
    case SetWaveGeneratorEnabledCommand(isChannel2, enabled) => WaveHeader(0x0B, isChannel2) + [Bit(enabled)]
  }

  // ---- The command string is the hex rendering of the frame ----

  lemma HexOfSnoc(bs: seq<Byte>, b: Byte)
    ensures HexOf(bs + [b]) == HexOf(bs) + Hex2(b)
  {
    assert (bs + [b])[..|bs|] == bs;
  }

  lemma HexOfHead(subsystem: Byte, code: Byte)
    ensures HexOf(Head(subsystem, code)) == BaseText + Hex2(subsystem) + Hex2(code)
  {
    var base: seq<Byte> := [0xAA, 0xFF];
    assert Head(subsystem, code) == base + [subsystem] + [code];
    HexOfSnoc(base + [subsystem], code);
    HexOfSnoc(base, subsystem);
    HexOfSnoc([0xAA], 0xFF);
    assert [0xAA] == [] + [0xAA];
    HexOfSnoc([], 0xAA);
    assert Hex2(0xAA) + Hex2(0xFF) == BaseText;
  }

  lemma HexOfWaveHeader(subFunction: Byte, isChannel2: bool)
    ensures HexOf(WaveHeader(subFunction, isChannel2)) == WaveHeaderText(Hex2(subFunction), isChannel2)
  {
    HexOfSnoc(Head(0x02, subFunction), Bit(isChannel2));
    HexOfHead(0x02, subFunction);
    FlagIsBit(isChannel2);
    assert Hex2(0x02) == "02";
  }

  lemma FlagIsBit(b: bool)
    ensures Hex2(Bit(b)) == Flag(b)
  {
  }

  predicate RendersFrame(cmd: Command) {
    HasFrame(cmd) && Text(cmd) == Success(HexOf(Frame(cmd)))
  }

  /**
   * The command string of every command that has one is the lowercase hex
   * rendering of its frame, two digits per byte.
   */
  lemma TextIsFrame(cmd: Command)
    requires HasFrame(cmd)
    ensures Text(cmd) == Success(HexOf(Frame(cmd)))
  {
    match cmd
    case GetCalibrationCommand => CalibrationRendersFrame();
    case SetOscilloscopeChannelStateCommand(channel, enable) => ChannelStateRendersFrame(channel, enable);
    case SetOscilloscopeChannelRangeCommand(channel, is25V) => ChannelRangeRendersFrame(channel, is25V);
    case SetOscilloscopeSamplingFrequencyCommand(ticks) => SamplingRendersFrame(ticks);
    case SetOscilloscopeBufferSizeCommand(size) => BufferSizeRendersFrame(size);
    case SetOscilloscopeRunningCommand(enabled) => RunningRendersFrame(enabled);
    case GetOscilloscopeStatusCommand => StatusRendersFrame();
    case StopGettingOscilloscopeStatusCommand => StopStatusRendersFrame();
    case ReadOscilloscopeChannelDataCommand(channel, samples) => ReadDataRendersFrame(channel, samples);
    case SetOscilloscopeTriggerTimeoutCommand(forever) => TriggerTimeoutRendersFrame(forever);
    case SetOscilloscopeTriggerSourceCommand(source) => TriggerSourceRendersFrame(source);
    case SetOscilloscopeTriggerLevelCommand(level) => TriggerLevelRendersFrame(level);
    case SetOscilloscopeTriggerConditionCommand(condition) => TriggerConditionRendersFrame(condition);
    case SetSupplyVoltageCommand(negative, voltage) => SupplyVoltageRendersFrame(negative, voltage);
    case SetSupplyEnabledCommand(negative, enable) => SupplyEnabledRendersFrame(negative, enable);
    case SetWaveGeneratorFunctionCommand(isChannel2, waveFunction) => WaveFunctionRendersFrame(isChannel2, waveFunction);
    case SetWaveGeneratorFrequencyCommand(isChannel2, frequency) => WaveFrequencyRendersFrame(isChannel2, frequency);
    case SetWaveGeneratorAmplitudeCommand(isChannel2, amplitude) => WaveAmplitudeRendersFrame(isChannel2, amplitude);
    case SetWaveGeneratorOffsetCommand(isChannel2, offset) => WaveOffsetRendersFrame(isChannel2, offset);
    case SetWaveGeneratorSymmetryCommand(isChannel2, symmetry) => WaveSymmetryRendersFrame(isChannel2, symmetry);
    case SetWaveGeneratorPhaseCommand(isChannel2, phase) => WavePhaseRendersFrame(isChannel2, phase);
    case SetWaveGeneratorEnabledCommand(isChannel2, enabled) => WaveEnabledRendersFrame(isChannel2, enabled);
  }

  // Each shape below takes its constant bytes as parameters, so that the
  // solver never evaluates HexOf on a literal frame.

  lemma ConcatAssociates(a: string, b: string, c: string)
    ensures a + b + c == a + (b + c)
  {
  }

  lemma HexOfHeadByte(sub: Byte, code: Byte, x: Byte)
    ensures HexOf(Head(sub, code) + [x]) == BaseText + Hex2(sub) + Hex2(code) + Hex2(x)
  {
    HexOfSnoc(Head(sub, code), x);
    HexOfHead(sub, code);
  }

  lemma HexOfHeadTwoBytes(sub: Byte, code: Byte, x: Byte, y: Byte)
    ensures HexOf(Head(sub, code) + [x] + [y])
         == BaseText + Hex2(sub) + Hex2(code) + Hex2(x) + Hex2(y)
  {
    HexOfSnoc(Head(sub, code) + [x], y);
    HexOfHeadByte(sub, code, x);
  }

  lemma HexOfHeadWord(sub: Byte, code: Byte, x: nat, n: nat)
    ensures HexOf(Head(sub, code) + BigEndian(x, n)) == BaseText + Hex2(sub) + Hex2(code) + HexDigits(x, 2 * n)
  {
    HexOfConcat(Head(sub, code), BigEndian(x, n));
    HexOfHead(sub, code);
    HexDigitsAreBytes(x, n);
  }

  lemma HexOfHeadTwoBytesWord(sub: Byte, code: Byte, x: Byte, y: Byte, w: nat, n: nat)
    ensures HexOf(Head(sub, code) + [x] + [y] + BigEndian(w, n))
         == BaseText + Hex2(sub) + Hex2(code) + (Hex2(x) + Hex2(y)) + HexDigits(w, 2 * n)
  {
    HexOfConcat(Head(sub, code) + [x] + [y], BigEndian(w, n));
    HexOfHeadTwoBytes(sub, code, x, y);
    HexDigitsAreBytes(w, n);
    ConcatAssociates(BaseText + Hex2(sub) + Hex2(code), Hex2(x), Hex2(y));
  }

  lemma HexOfWaveByte(sub: Byte, isChannel2: bool, x: Byte)
    ensures HexOf(WaveHeader(sub, isChannel2) + [x]) == WaveHeaderText(Hex2(sub), isChannel2) + Hex2(x)
  {
    HexOfSnoc(WaveHeader(sub, isChannel2), x);
    HexOfWaveHeader(sub, isChannel2);
  }

  lemma HexOfWaveTwoBytes(sub: Byte, isChannel2: bool, x: Byte, y: Byte)
    ensures HexOf(WaveHeader(sub, isChannel2) + [x] + [y])
         == WaveHeaderText(Hex2(sub), isChannel2) + Hex2(x) + Hex2(y)
  {
    HexOfSnoc(WaveHeader(sub, isChannel2) + [x], y);
    HexOfWaveByte(sub, isChannel2, x);
  }

  lemma HexOfWaveWord(sub: Byte, isChannel2: bool, x: nat, n: nat)
    ensures HexOf(WaveHeader(sub, isChannel2) + BigEndian(x, n))
         == WaveHeaderText(Hex2(sub), isChannel2) + HexDigits(x, 2 * n)
  {
    HexOfConcat(WaveHeader(sub, isChannel2), BigEndian(x, n));
    HexOfWaveHeader(sub, isChannel2);
    HexDigitsAreBytes(x, n);
  }

  lemma HexOfWaveWordThenByte(sub: Byte, isChannel2: bool, x: nat, n: nat, y: Byte)
    ensures HexOf(WaveHeader(sub, isChannel2) + BigEndian(x, n) + [y])
         == WaveHeaderText(Hex2(sub), isChannel2) + HexDigits(x, 2 * n) + Hex2(y)
  {
    HexOfSnoc(WaveHeader(sub, isChannel2) + BigEndian(x, n), y);
    HexOfWaveWord(sub, isChannel2, x, n);
  }

  lemma CalibrationRendersFrame()
    ensures RendersFrame(GetCalibrationCommand)
  {
    assert Text(GetCalibrationCommand) == Success(BaseText + "06" + "01");
    assert Frame(GetCalibrationCommand) == Head(0x06, 0x01);
    HexOfHead(0x06, 0x01);
    assert Hex2(0x06) == "06" && Hex2(0x01) == "01";
  }

  lemma ChannelStateRendersFrame(channel: bool, enable: bool)
    ensures RendersFrame(SetOscilloscopeChannelStateCommand(channel, enable))
  {
    assert Text(SetOscilloscopeChannelStateCommand(channel, enable)) == Success(BaseText + "01" + "07" + Flag(channel) + Flag(enable));
    assert Frame(SetOscilloscopeChannelStateCommand(channel, enable)) == Head(0x01, 0x07) + [Bit(channel)] + [Bit(enable)];
    HexOfHeadTwoBytes(0x01, 0x07, Bit(channel), Bit(enable));
    FlagIsBit(channel);
    FlagIsBit(enable);
    assert Hex2(0x01) == "01" && Hex2(0x07) == "07";
  }

  lemma ChannelRangeRendersFrame(channel: bool, is25V: bool)
    ensures RendersFrame(SetOscilloscopeChannelRangeCommand(channel, is25V))
  {
    assert Text(SetOscilloscopeChannelRangeCommand(channel, is25V)) == Success(BaseText + "01" + "04" + Flag(channel) + Flag(is25V));
    assert Frame(SetOscilloscopeChannelRangeCommand(channel, is25V)) == Head(0x01, 0x04) + [Bit(channel)] + [Bit(is25V)];
    HexOfHeadTwoBytes(0x01, 0x04, Bit(channel), Bit(is25V));
    FlagIsBit(channel);
    FlagIsBit(is25V);
    assert Hex2(0x01) == "01" && Hex2(0x04) == "04";
  }

  lemma SamplingRendersFrame(ticks: Int32)
    ensures RendersFrame(SetOscilloscopeSamplingFrequencyCommand(ticks))
  {
    assert Text(SetOscilloscopeSamplingFrequencyCommand(ticks)) == Success(BaseText + "01" + "05" + HexDigits(ticks % 0x1_0000_0000, 8));
    assert Frame(SetOscilloscopeSamplingFrequencyCommand(ticks)) == Head(0x01, 0x05) + BigEndian(ticks % 0x1_0000_0000, 4);
    HexOfHeadWord(0x01, 0x05, ticks % 0x1_0000_0000, 4);
    assert Hex2(0x01) == "01" && Hex2(0x05) == "05";
  }

  lemma BufferSizeRendersFrame(size: BufferSize)
    ensures RendersFrame(SetOscilloscopeBufferSizeCommand(size))
  {
    assert Text(SetOscilloscopeBufferSizeCommand(size)) == Success(BaseText + "01" + "06" + Hex2(BufferSizeCode(size)));
    assert Frame(SetOscilloscopeBufferSizeCommand(size)) == Head(0x01, 0x06) + [BufferSizeCode(size)];
    HexOfHeadByte(0x01, 0x06, BufferSizeCode(size));
    assert Hex2(0x01) == "01" && Hex2(0x06) == "06";
  }

  lemma RunningRendersFrame(enabled: bool)
    ensures RendersFrame(SetOscilloscopeRunningCommand(enabled))
  {
    assert Text(SetOscilloscopeRunningCommand(enabled)) == Success(BaseText + "01" + "08" + Flag(enabled));
    assert Frame(SetOscilloscopeRunningCommand(enabled)) == Head(0x01, 0x08) + [Bit(enabled)];
    HexOfHeadByte(0x01, 0x08, Bit(enabled));
    FlagIsBit(enabled);
    assert Hex2(0x01) == "01" && Hex2(0x08) == "08";
  }

  lemma StatusRendersFrame()
    ensures RendersFrame(GetOscilloscopeStatusCommand)
  {
    assert Text(GetOscilloscopeStatusCommand) == Success(BaseText + "01" + "09");
    assert Frame(GetOscilloscopeStatusCommand) == Head(0x01, 0x09);
    HexOfHead(0x01, 0x09);
    assert Hex2(0x01) == "01" && Hex2(0x09) == "09";
  }

  lemma StopStatusRendersFrame()
    ensures RendersFrame(StopGettingOscilloscopeStatusCommand)
  {
    assert Text(StopGettingOscilloscopeStatusCommand) == Success(BaseText + "01" + "0a");
    assert Frame(StopGettingOscilloscopeStatusCommand) == Head(0x01, 0x0A);
    HexOfHead(0x01, 0x0A);
    assert Hex2(0x01) == "01" && Hex2(0x0A) == "0a";
  }

  lemma ReadDataRendersFrame(channel: bool, samples: Int32)
    ensures RendersFrame(ReadOscilloscopeChannelDataCommand(channel, samples))
  {
    assert Text(ReadOscilloscopeChannelDataCommand(channel, samples)) == Success(BaseText + "01" + (if channel then "02" else "01"));
    assert Frame(ReadOscilloscopeChannelDataCommand(channel, samples)) == Head(0x01, Bit(channel) + 1);
    HexOfHead(0x01, Bit(channel) + 1);
    assert Hex2(0x01) == "01" && Hex2(0x02) == "02";
  }

  lemma TriggerTimeoutRendersFrame(forever: bool)
    ensures RendersFrame(SetOscilloscopeTriggerTimeoutCommand(forever))
  {
    assert Text(SetOscilloscopeTriggerTimeoutCommand(forever)) == Success(BaseText + "04" + "04" + (if forever then "00" else "01"));
    assert Frame(SetOscilloscopeTriggerTimeoutCommand(forever)) == Head(0x04, 0x04) + [1 - Bit(forever)];
    HexOfHeadByte(0x04, 0x04, 1 - Bit(forever));
    assert Hex2(0x04) == "04";
    assert Hex2(0x00) == "00" && Hex2(0x01) == "01";
  }

  lemma TriggerSourceRendersFrame(source: TriggerSource)
    ensures RendersFrame(SetOscilloscopeTriggerSourceCommand(source))
  {
    assert Text(SetOscilloscopeTriggerSourceCommand(source)) == Success(BaseText + "04" + "00" + Hex2(source.Value()));
    assert Frame(SetOscilloscopeTriggerSourceCommand(source)) == Head(0x04, 0x00) + [source.Value()];
    HexOfHeadByte(0x04, 0x00, source.Value());
    assert Hex2(0x04) == "04" && Hex2(0x00) == "00";
  }

  lemma TriggerLevelRendersFrame(level: UInt16)
    ensures RendersFrame(SetOscilloscopeTriggerLevelCommand(level))
  {
    assert Text(SetOscilloscopeTriggerLevelCommand(level)) == Success(BaseText + "04" + "03" + HexDigits(level, 4));
    assert Frame(SetOscilloscopeTriggerLevelCommand(level)) == Head(0x04, 0x03) + BigEndian(level, 2);
    HexOfHeadWord(0x04, 0x03, level, 2);
    assert Hex2(0x04) == "04" && Hex2(0x03) == "03";
  }

  lemma TriggerConditionRendersFrame(condition: TriggerCondition)
    ensures RendersFrame(SetOscilloscopeTriggerConditionCommand(condition))
  {
    assert Text(SetOscilloscopeTriggerConditionCommand(condition)) == Success(BaseText + "04" + "02" + Hex2(condition.Value()));
    assert Frame(SetOscilloscopeTriggerConditionCommand(condition)) == Head(0x04, 0x02) + [condition.Value()];
    HexOfHeadByte(0x04, 0x02, condition.Value());
    assert Hex2(0x04) == "04" && Hex2(0x02) == "02";
  }

  lemma SupplyVoltageRendersFrame(negative: bool, voltage: Int16)
    ensures RendersFrame(SetSupplyVoltageCommand(negative, voltage))
  {
    var channel: Byte := if negative then 0x02 else 0x01;
    var word := voltage % 0x1_0000;
    var text := BaseText + "03" + (if negative then "02" else "01") + "0000" + HexDigits(word, 4);
    assert Text(SetSupplyVoltageCommand(negative, voltage)) == Success(text);
    assert Frame(SetSupplyVoltageCommand(negative, voltage)) == Head(0x03, channel) + [0x00] + [0x00] + BigEndian(word, 2);
    HexOfHeadTwoBytesWord(0x03, channel, 0x00, 0x00, word, 2);
    assert Hex2(0x00) + Hex2(0x00) == "0000";
    assert Hex2(0x03) == "03";
    assert Hex2(channel) == if negative then "02" else "01";
  }

  lemma SupplyEnabledRendersFrame(negative: bool, enable: bool)
    ensures RendersFrame(SetSupplyEnabledCommand(negative, enable))
  {
    assert Text(SetSupplyEnabledCommand(negative, enable)) == Success(BaseText + "03" + "00" + Hex2((if negative then 2 else 0) + (if enable then 1 else 0)));
    assert Frame(SetSupplyEnabledCommand(negative, enable)) == Head(0x03, 0x00) + [2 * Bit(negative) + Bit(enable)];
    HexOfHeadByte(0x03, 0x00, 2 * Bit(negative) + Bit(enable));
    assert Hex2(0x03) == "03" && Hex2(0x00) == "00";
  }

  lemma WaveFunctionRendersFrame(isChannel2: bool, waveFunction: WaveFunction)
    ensures RendersFrame(SetWaveGeneratorFunctionCommand(isChannel2, waveFunction))
  {
    assert Text(SetWaveGeneratorFunctionCommand(isChannel2, waveFunction)) == Success(WaveHeaderText("00", isChannel2) + Hex2(waveFunction.Value()) + "ff");
    assert Frame(SetWaveGeneratorFunctionCommand(isChannel2, waveFunction)) == WaveHeader(0x00, isChannel2) + [waveFunction.Value()] + [0xFF];
    HexOfWaveTwoBytes(0x00, isChannel2, waveFunction.Value(), 0xFF);
    assert Hex2(0x00) == "00" && Hex2(0xFF) == "ff";
  }

  lemma WaveFrequencyRendersFrame(isChannel2: bool, frequency: UInt32)
    ensures RendersFrame(SetWaveGeneratorFrequencyCommand(isChannel2, frequency))
  {
    var text := WaveHeaderText("01", isChannel2) + HexDigits(frequency, 8) + "ff";
    assert Text(SetWaveGeneratorFrequencyCommand(isChannel2, frequency)) == Success(text);
    assert Frame(SetWaveGeneratorFrequencyCommand(isChannel2, frequency))
        == WaveHeader(0x01, isChannel2) + BigEndian(frequency, 4) + [0xFF];
    HexOfWaveWordThenByte(0x01, isChannel2, frequency, 4, 0xFF);
    assert Hex2(0x01) == "01" && Hex2(0xFF) == "ff";
  }

  lemma WaveAmplitudeRendersFrame(isChannel2: bool, amplitude: UInt32)
    ensures RendersFrame(SetWaveGeneratorAmplitudeCommand(isChannel2, amplitude))
  {
    assert Text(SetWaveGeneratorAmplitudeCommand(isChannel2, amplitude)) == Success(WaveHeaderText("02", isChannel2) + HexDigits(amplitude, 8) + "ff");
    assert Frame(SetWaveGeneratorAmplitudeCommand(isChannel2, amplitude)) == WaveHeader(0x02, isChannel2) + BigEndian(amplitude, 4) + [0xFF];
    HexOfWaveWordThenByte(0x02, isChannel2, amplitude, 4, 0xFF);
    assert Hex2(0x02) == "02" && Hex2(0xFF) == "ff";
  }

  lemma WaveOffsetRendersFrame(isChannel2: bool, offset: UInt32)
    ensures RendersFrame(SetWaveGeneratorOffsetCommand(isChannel2, offset))
  {
    assert Text(SetWaveGeneratorOffsetCommand(isChannel2, offset)) == Success(WaveHeaderText("03", isChannel2) + HexDigits(offset, 8));
    assert Frame(SetWaveGeneratorOffsetCommand(isChannel2, offset)) == WaveHeader(0x03, isChannel2) + BigEndian(offset, 4);
    HexOfWaveWord(0x03, isChannel2, offset, 4);
    assert Hex2(0x03) == "03";
  }

  lemma WaveSymmetryRendersFrame(isChannel2: bool, symmetry: Byte)
    ensures RendersFrame(SetWaveGeneratorSymmetryCommand(isChannel2, symmetry))
  {
    assert Text(SetWaveGeneratorSymmetryCommand(isChannel2, symmetry)) == Success(WaveHeaderText("04", isChannel2) + Hex2(symmetry));
    assert Frame(SetWaveGeneratorSymmetryCommand(isChannel2, symmetry)) == WaveHeader(0x04, isChannel2) + [symmetry];
    HexOfWaveByte(0x04, isChannel2, symmetry);
    assert Hex2(0x04) == "04";
  }

  lemma WavePhaseRendersFrame(isChannel2: bool, phase: real)
    ensures RendersFrame(SetWaveGeneratorPhaseCommand(isChannel2, phase))
  {
    assert Text(SetWaveGeneratorPhaseCommand(isChannel2, phase)) == Success(WaveHeaderText("05", isChannel2) + "00000000");
    assert Frame(SetWaveGeneratorPhaseCommand(isChannel2, phase)) == WaveHeader(0x05, isChannel2) + BigEndian(0, 4);
    HexOfWaveWord(0x05, isChannel2, 0, 4);
    HexDigitsOfZero(8);
    assert HexDigits(0, 8) == "00000000";
    assert Hex2(0x05) == "05";
  }

  lemma WaveEnabledRendersFrame(isChannel2: bool, enabled: bool)
    ensures RendersFrame(SetWaveGeneratorEnabledCommand(isChannel2, enabled))
  {
    assert Text(SetWaveGeneratorEnabledCommand(isChannel2, enabled)) == Success(WaveHeaderText("0b", isChannel2) + (if enabled then "01" else "00"));
    assert Frame(SetWaveGeneratorEnabledCommand(isChannel2, enabled)) == WaveHeader(0x0B, isChannel2) + [Bit(enabled)];
    HexOfWaveByte(0x0B, isChannel2, Bit(enabled));
    FlagIsBit(enabled);
    assert Hex2(0x0B) == "0b";
  }
}
