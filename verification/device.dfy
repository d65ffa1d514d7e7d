/**
 * The instrument object, `RainDrop`: one FTDI wrapper, the shadows of the
 * device state the host keeps, and one method per public operation. Every
 * method is proved to take the object's state exactly as the corresponding
 * function of `DeviceModel` takes a `State`; the properties of the
 * operations are proved about those functions.
 */
module Device {
  import opened Wrappers
  import opened Faults
  import opened Hex
  import opened Protocol
  import opened Commands
  import opened Transport
  import opened DeviceModel

  /**
   * The calibration of one analog input as `ReadOscilloscopeData(channel)`
   * computes it: the offset byte less 123 and the full-scale amplitude, each
   * picked by range and channel.
   */
  method InputCalibration(cal: seq<Byte>, channel: bool, is25V: bool) returns (offset: int, gain: real)
    requires |cal| == 14
    ensures offset == InputOffset(cal, channel, is25V)
    ensures gain == InputGain(cal, channel, is25V)
  {
    if !is25V {
      offset := -123 + (if channel then cal[7] else cal[6]) as int;
      var amplitude := (if channel then cal[9] else cal[8]) as real;
      gain := 1.0 / (0.00048828125 * amplitude + 0.19);
    } else {
      offset := -123 + (if channel then cal[11] else cal[10]) as int;
      var amplitude := (if channel then cal[13] else cal[12]) as real;
      gain := (if channel then -1.0 else 1.0) / (0.0001220703125 * amplitude + 0.036);
    }
  }

  /**
   * The decoding loop of `ReadOscilloscopeData(channel)`: sample `i` is the
   * big-endian word at bytes `2i`, `2i + 1`, re-centred on 2048, shifted by
   * the calibration offset and scaled to the full-scale amplitude.
   */
  method DecodeSamples(data: seq<Byte>, n: nat, offset: int, gain: real) returns (samples: seq<real>)
    requires 2 * n <= |data|
    ensures samples == Decode(data, n, offset, gain)
  {
    var decoded := new real[n];
    var i := 0;
    while i < n
      invariant 0 <= i <= n
      invariant forall j :: 0 <= j < i ==> decoded[j] == Sample(data, j, offset, gain)
    {
      decoded[i] := gain * ((data[2 * i] as int * 0x100 + data[2 * i + 1] as int - 0x800 + offset) as real / 0x800 as real);
      i := i + 1;
    }
    samples := decoded[..];
  }

  /**
   * The driver calls that start `ConnectToDevice`: open by serial number, bit
   * mode, timeouts, baud rate; the status of the timeouts call is returned.
   */
  method OpenDriver(ftdi: Ftdi, serial: string) returns (error: FtStatus)
    modifies ftdi
    ensures (error, ftdi.State()) == Setup(old(ftdi.State()), serial)
  {
    var _ := ftdi.OpenBySerialNumber(serial);
    var _ := ftdi.SetBitMode(0x00, 0x40);
    error := ftdi.SetTimeouts(1500, 500);
    var _ := ftdi.SetBaudRate(1152000);
  }

  /**
   * The second half of `SendCommand`: write the frame, then, if a response is
   * expected, read exactly that many bytes, checking every status and count.
   */
  method Transmit(ftdi: Ftdi, bytes: seq<Byte>, expected: nat) returns (r: Result<Option<seq<Byte>>, Fault>)
    modifies ftdi
    ensures Reply(r, ftdi.State()) == Transfer(old(ftdi.State()), bytes, expected)
  {
    var status, written := ftdi.Write(bytes);
    if status != FtOk {
      return Failure(Driver(status));
    }
    if written != |bytes| {
      return Failure(UnexpectedWrittenLength);
    }
    if expected == 0 {
      return Success(None);
    }
    var received, data, count := ftdi.Read(expected);
    if received != FtOk {
      return Failure(Driver(received));
    }
    if count != expected {
      return Failure(UnexpectedReceivedLength);
    }
    r := Success(Some(data));
  }

  class RainDrop {
    const ftdi: Ftdi
    const oscEnabled: array<bool>
    const oscIs25V: array<bool>
    const supplyEnabled: array<bool>
    var adjusting: bool
    var calibration: Option<seq<Byte>>
    var dataPoints: int
    var currentDevice: string
    var running: bool

    /** The object's state as the model sees it. */
    ghost function Snap(): State
      reads this, ftdi, oscEnabled, oscIs25V, supplyEnabled
    {
      State(ftdi.State(), adjusting, oscEnabled[..], oscIs25V[..], supplyEnabled[..],
        calibration, dataPoints, currentDevice, running)
    }

    ghost predicate Valid()
      reads this, ftdi, oscEnabled, oscIs25V, supplyEnabled
    {
      oscEnabled != oscIs25V && oscEnabled != supplyEnabled && oscIs25V != supplyEnabled
      && Good(Snap())
    }

    /** A fresh instrument over a driver whose library will give `script`. */
    constructor (script: seq<Answer>)
      ensures Valid() && Snap() == Initial(script)
      ensures fresh(ftdi) && fresh(oscEnabled) && fresh(oscIs25V) && fresh(supplyEnabled)
    {
      ftdi := new Ftdi(script);
      oscEnabled := new bool[2](_ => false);
      oscIs25V := new bool[2](_ => false);
      supplyEnabled := new bool[2](_ => false);
      adjusting := false;
      calibration := None;
      dataPoints := 2048;
      currentDevice := "";
      running := false;
      new;
      assert oscEnabled[..] == [false, false];
      assert oscIs25V[..] == [false, false];
      assert supplyEnabled[..] == [false, false];
    }

    /**
     * `SendCommand`: refuse without a handle, purge both buffers, convert the
     * command through its hexadecimal text, write it, and read the response
     * if one is expected, checking every status and length.
     */
    method SendCommand(cmd: Command) returns (r: Result<Option<seq<Byte>>, Fault>)
      requires Valid()
      modifies ftdi
      ensures (r, Snap()) == Send(old(Snap()), cmd)
      ensures Valid()
    {
      if !ftdi.IsOpen() {
        return Failure(DeviceNotOpen);
      }
      ghost var s0 := Snap();
      var _ := ftdi.Purge(PurgeRxTx);
      ghost var w1 := ftdi.State();
      assert Snap() == s0.(wire := w1);
      var converted := CommandBytes(cmd);
      if converted.Failure? {
        return Failure(converted.error);
      }
      var bytes := converted.value;
      assert Exchange(s0.wire, cmd) == Transfer(w1, bytes, BytesToReceive(cmd));
      r := Transmit(ftdi, bytes, BytesToReceive(cmd));
      assert Snap() == s0.(wire := ftdi.State());
    }

    /** Builds a command, which may fail, and sends it, discarding any response. */
    method Submit(built: Result<Command, Fault>) returns (o: Outcome<Fault>)
      requires Valid()
      modifies ftdi
      ensures (o, Snap()) == SendBuilt(old(Snap()), built)
      ensures Valid()
    {
      if built.Failure? {
        return Fail(built.error);
      }
      var r := SendCommand(built.value);
      o := Void(r);
    }

    /**
     * Consecutive `SendCommand` calls: each command is built and sent only
     * after the previous one succeeded.
     */
    method SubmitAll(built: seq<Result<Command, Fault>>) returns (o: Outcome<Fault>)
      requires Valid()
      modifies ftdi
      ensures (o, Snap()) == SendAll(old(Snap()), built)
      ensures Valid()
      decreases |built|
    {
      if built == [] {
        return Pass;
      }
      o := Submit(built[0]);
      if o.Fail? {
        return;
      }
      o := SubmitAll(built[1..]);
    }

    /** `Task.Delay(ms).Wait()`: recorded in the log of calls, no state changes. */
    method Delay(ms: nat)
      requires Valid()
      modifies ftdi
      ensures Snap() == Pause(old(Snap()), ms)
      ensures Valid()
    {
      ftdi.events := ftdi.events + [Waited(ms)];
    }

    method ConnectToDevice(serial: string) returns (o: Outcome<Fault>)
      requires Valid()
      modifies this, ftdi, supplyEnabled
      ensures (o, Snap()) == Connect(old(Snap()), serial)
      ensures Valid()
    {
      if ftdi.IsOpen() {
        return Fail(DeviceAlreadyOpen);
      }
      o := TryConnect(serial);
      if o.Fail? {
        DisconnectFromDevice();
      }
    }

    /** The `try` block of `ConnectToDevice`. */
    method TryConnect(serial: string) returns (o: Outcome<Fault>)
      requires Valid()
      modifies this, ftdi, supplyEnabled
      ensures (o, Snap()) == ConnectSteps(old(Snap()), serial)
      ensures Valid()
    {
      var error := OpenDriver(ftdi, serial);
      if error != FtOk {
        return Fail(Driver(error));
      }
      currentDevice := serial;
      ghost var s4 := Snap();
      var r := SendCommand(GetCalibrationCommand);
      if r.Failure? {
        return Fail(r.error);
      }
      ExchangeReply(s4.wire, GetCalibrationCommand);
      calibration := Some(r.value.value[1..15]);
      o := InitializeDevice();
    }

    method InitializeDevice() returns (o: Outcome<Fault>)
      requires Valid()
      modifies ftdi, supplyEnabled
      ensures (o, Snap()) == Initialize(old(Snap()))
      ensures Valid()
    {
      o := SetSupplyEnabled(false, false);
      if o.Fail? {
        return;
      }
      o := SetSupplyEnabled(true, false);
    }

    method DisconnectFromDevice()
      requires Valid()
      modifies this, ftdi
      ensures Snap() == Disconnect(old(Snap()))
      ensures Valid()
    {
      if !ftdi.IsOpen() {
        return;
      }
      var _ := ftdi.Close();
      currentDevice := "";
    }

    method SetOscilloscopeChannelState(channel: bool, enable: bool) returns (o: Outcome<Fault>)
      requires Valid()
      modifies ftdi, oscEnabled
      ensures (o, Snap()) == EnableChannel(old(Snap()), channel, enable)
      ensures Valid()
    {
      var r := SendCommand(SetOscilloscopeChannelStateCommand(channel, enable));
      if r.Failure? {
        return Fail(r.error);
      }
      oscEnabled[Index(channel)] := enable;
      o := Pass;
    }

    method SetOscilloscopeChannelRange(channel: bool, range: int) returns (o: Outcome<Fault>)
      requires Valid()
      modifies ftdi, oscIs25V
      ensures (o, Snap()) == SelectRange(old(Snap()), channel, range)
      ensures Valid()
    {
      if range != 5 && range != 25 {
        return Fail(OutOfRange("range"));
      }
      oscIs25V[Index(channel)] := range == 25;
      var r := SendCommand(SetOscilloscopeChannelRangeCommand(channel, range == 25));
      o := Void(r);
    }

    method SetOscilloscopeSamplingFrequency(frequency: real) returns (o: Outcome<Fault>)
      requires Valid()
      modifies ftdi
      ensures (o, Snap()) == SetSampling(old(Snap()), frequency)
      ensures Valid()
    {
      if frequency < 1.0 || frequency > 40000000.0 {
        return Fail(OutOfRange("frequency"));
      }
      var r := SendCommand(NewSamplingFrequency(frequency));
      o := Void(r);
    }

    method SetOscilloscopeTrigger(autoTimeout: bool, source: TriggerSource, level: real, condition: TriggerCondition)
      returns (o: Outcome<Fault>)
      requires Valid()
      modifies ftdi
      ensures (o, Snap()) == ArmTrigger(old(Snap()), autoTimeout, source, level, condition)
      ensures Valid()
    {
      var is25V := match source
        case DetectorAnalogInCh1 => oscIs25V[0]
        case DetectorAnalogInCh2 => oscIs25V[1]
        case _ => false;
      o := SubmitAll([Success(SetOscilloscopeTriggerTimeoutCommand(!autoTimeout)),
        Success(SetOscilloscopeTriggerSourceCommand(source)),
        NewTriggerLevel(level, is25V),
        Success(SetOscilloscopeTriggerConditionCommand(condition))]);
    }

    method SetOscilloscopeDataPointsCount(count: int) returns (o: Outcome<Fault>)
      requires Valid()
      modifies this, ftdi
      ensures (o, Snap()) == ResizeBuffer(old(Snap()), count)
      ensures Valid()
    {
      if !IsBufferSize(count) {
        return Fail(OutOfRange("dataPoints"));
      }
      dataPoints := count;
      var r := SendCommand(SetOscilloscopeBufferSizeCommand(count));
      o := Void(r);
    }

    method SetOscilloscopeRunning(run: bool) returns (o: Outcome<Fault>)
      requires Valid()
      modifies this, ftdi
      ensures (o, Snap()) == SetRun(old(Snap()), run)
      ensures Valid()
    {
      var r := SendCommand(SetOscilloscopeRunningCommand(run));
      if r.Failure? {
        return Fail(r.error);
      }
      running := run;
      o := Pass;
    }

    /** `GetDeviceStatus`, returning the raw status byte. */
    method GetDeviceStatus() returns (r: Result<Byte, Fault>)
      requires Valid()
      modifies ftdi
      ensures (r, Snap()) == QueryStatus(old(Snap()))
      ensures Valid()
    {
      ghost var s0 := Snap();
      var status := SendCommand(GetOscilloscopeStatusCommand);
      if status.Failure? {
        return Failure(status.error);
      }
      ExchangeReply(s0.wire, GetOscilloscopeStatusCommand);
      var stop := SendCommand(StopGettingOscilloscopeStatusCommand);
      if stop.Failure? {
        return Failure(stop.error);
      }
      r := Success(status.value.value[3]);
    }

    method ReadOscilloscopeData() returns (r: Result<(Option<seq<real>>, Option<seq<real>>), Fault>)
      requires Valid()
      modifies ftdi
      ensures (r, Snap()) == ReadChannels(old(Snap()))
      ensures Valid()
    {
      if !(oscEnabled[0] || oscEnabled[1]) {
        return Failure(ChannelUnavailable);
      }
      var a: Option<seq<real>> := None;
      if oscEnabled[0] {
        var samples := ReadOscilloscopeChannel(false);
        if samples.Failure? {
          return Failure(samples.error);
        }
        a := Some(samples.value);
      }
      var b: Option<seq<real>> := None;
      if oscEnabled[1] {
        var samples := ReadOscilloscopeChannel(true);
        if samples.Failure? {
          return Failure(samples.error);
        }
        b := Some(samples.value);
      }
      r := Success((a, b));
    }

    /**
     * The private `ReadOscilloscopeData(channel)`: the calibration offset and
     * full-scale amplitude of the channel's range, one read of `dataPoints`
     * samples, and a loop that decodes each big-endian word.
     */
    method ReadOscilloscopeChannel(channel: bool) returns (r: Result<seq<real>, Fault>)
      requires Valid()
      modifies ftdi
      ensures (r, Snap()) == ReadChannel(old(Snap()), channel)
      ensures Valid()
    {
      var is25V := oscIs25V[Index(channel)];
      if calibration.None? {
        return Failure(NullCalibration);
      }
      var calibrationOffset, calibratedMaxAmplitude := InputCalibration(calibration.value, channel, is25V);
      ReadChannelSteps(Snap(), channel);
      var cmd := ReadOscilloscopeChannelDataCommand(channel, dataPoints);
      var response := SendCommand(cmd);
      if response.Failure? {
        return Failure(response.error);
      }
      var decoded := DecodeSamples(response.value.value, dataPoints, calibrationOffset, calibratedMaxAmplitude);
      r := Success(decoded);
    }

    method SetSupplyEnabled(isNegative: bool, enabled: bool) returns (o: Outcome<Fault>)
      requires Valid()
      modifies ftdi, supplyEnabled
      ensures (o, Snap()) == SwitchSupply(old(Snap()), isNegative, enabled)
      ensures Valid()
    {
      var r := SendCommand(SetSupplyEnabledCommand(isNegative, enabled));
      if r.Failure? {
        return Fail(r.error);
      }
      supplyEnabled[Index(isNegative)] := enabled;
      o := Pass;
    }

    method SetSupplyVoltage(isNegative: bool, value: real) returns (o: Outcome<Fault>)
      requires Valid()
      modifies this, ftdi, supplyEnabled
      ensures (o, Snap()) == AdjustSupply(old(Snap()), isNegative, value)
      ensures Valid()
    {
      if adjusting {
        return Fail(SupplyAdjusting);
      }
      adjusting := true;
      o := AdjustSupplyVoltage(isNegative, value);
      adjusting := false;
    }

    /** The `try` block of `SetSupplyVoltage`. */
    method AdjustSupplyVoltage(isNegative: bool, value: real) returns (o: Outcome<Fault>)
      requires Valid()
      modifies ftdi, supplyEnabled
      ensures (o, Snap()) == AdjustSupplySteps(old(Snap()), isNegative, value)
      ensures Valid()
    {
      var previouslyEnabled := supplyEnabled[Index(isNegative)];
      if previouslyEnabled {
        o := SetSupplyEnabled(isNegative, false);
        if o.Fail? {
          return;
        }
        Delay(SupplySettleMs);
      }
      var built := if calibration.None? then Failure(NullCalibration)
        else NewSupplyVoltage(isNegative, value, calibration.value[if isNegative then 5 else 4]);
      assert built == SupplyVoltageCommand(Snap(), isNegative, value);
      o := Submit(built);
      if o.Fail? || !previouslyEnabled {
        return;
      }
      Delay(SupplySettleMs);
      o := SetSupplyEnabled(isNegative, true);
    }

    method SetWaveGeneratorFunction(isChannel2: bool, waveFunction: WaveFunction) returns (o: Outcome<Fault>)
      requires Valid()
      modifies ftdi
      ensures (o, Snap()) == SelectWaveFunction(old(Snap()), isChannel2, waveFunction)
      ensures Valid()
    {
      var r := SendCommand(SetWaveGeneratorFunctionCommand(isChannel2, waveFunction));
      o := Void(r);
    }

    method SetWaveGeneratorFrequency(isChannel2: bool, frequency: real) returns (o: Outcome<Fault>)
      requires Valid()
      modifies ftdi
      ensures (o, Snap()) == TuneWaveFrequency(old(Snap()), isChannel2, frequency)
      ensures Valid()
    {
      o := Submit(NewWaveFrequency(isChannel2, frequency));
    }

    method SetWaveGeneratorOffsetAndAmplitude(isChannel2: bool, offset: real, amplitude: real) returns (o: Outcome<Fault>)
      requires Valid()
      modifies ftdi
      ensures (o, Snap()) == SetWaveLevels(old(Snap()), isChannel2, offset, amplitude)
      ensures Valid()
    {
      if calibration.None? {
        return Fail(NullCalibration);
      }
      var cal := calibration.value;
      o := SubmitAll([Success(NewWaveAmplitude(isChannel2, amplitude, cal[if isChannel2 then 3 else 1])),
        Success(NewWaveOffset(isChannel2, offset, amplitude, cal[if isChannel2 then 2 else 0], cal[if isChannel2 then 3 else 1]))]);
    }

    method SetWaveGeneratorSymmetry(isChannel2: bool, symmetry: real) returns (o: Outcome<Fault>)
      requires Valid()
      modifies ftdi
      ensures (o, Snap()) == ShapeWaveSymmetry(old(Snap()), isChannel2, symmetry)
      ensures Valid()
    {
      o := Submit(NewWaveSymmetry(isChannel2, symmetry));
    }

    method SetWaveGeneratorPhase(isChannel2: bool, phase: real) returns (o: Outcome<Fault>)
      requires Valid()
      modifies ftdi
      ensures (o, Snap()) == ShiftWavePhase(old(Snap()), isChannel2, phase)
      ensures Valid()
    {
      var r := SendCommand(SetWaveGeneratorPhaseCommand(isChannel2, phase));
      o := Void(r);
    }

    method SetWaveGeneratorEnabled(isChannel2: bool, enabled: bool) returns (o: Outcome<Fault>)
      requires Valid()
      modifies ftdi
      ensures (o, Snap()) == EnableWave(old(Snap()), isChannel2, enabled)
      ensures Valid()
    {
      var r := SendCommand(SetWaveGeneratorEnabledCommand(isChannel2, enabled));
      o := Void(r);
    }
  }
}
