/**
 * The RainDrop orchestrator as a state machine: its state is the driver
 * wrapper's state together with the fields of the `RainDrop` object, and each
 * operation maps a state to its outcome and the next state, in the order the
 * object performs its exchanges. The class in module Device is proved to
 * behave exactly as these functions say.
 */
module DeviceModel {
  import opened Wrappers
  import opened Faults
  import opened Hex
  import opened Setpoints
  import opened Protocol
  import opened Commands
  import opened Transport

  /** `FtPurge.FtPurgeRx | FtPurge.FtPurgeTx`. */
  const PurgeRxTx: nat := 3

  /** The pause, in milliseconds, around a supply voltage change on an enabled channel. */
  const SupplySettleMs: nat := 200

  /**
   * The fields of a `RainDrop`: the transport, the supply-adjusting flag, the
   * three two-element shadow arrays (indexed 0 for channel A or the positive
   * supply, 1 for channel B or the negative supply), the calibration bytes
   * (`None` until a device has been connected), the data-point count, the
   * current serial number and the running flag.
   */
  datatype State = State(
    wire: Wire,
    adjusting: bool,
    oscEnabled: seq<bool>,
    oscIs25V: seq<bool>,
    supplyEnabled: seq<bool>,
    calibration: Option<seq<Byte>>,
    dataPoints: int,
    currentDevice: string,
    running: bool)

  /** What every reachable state satisfies. */
  predicate Good(s: State) {
    && |s.oscEnabled| == 2 && |s.oscIs25V| == 2 && |s.supplyEnabled| == 2
    && (s.calibration.Some? ==> |s.calibration.value| == 14)
    && IsBufferSize(s.dataPoints)
  }

  /** The state of a freshly constructed `RainDrop` over a given library script. */
  function Initial(script: seq<Answer>): (s: State)
    ensures Good(s)
  {
    State(Wire(false, script, []), false, [false, false], [false, false], [false, false], None, 2048, "", false)
  }

  /** `channel ? 1 : 0`. */
  function Index(b: bool): nat {
    if b then 1 else 0
  }

  // ---- One exchange ----

  datatype Reply = Reply(result: Result<Option<seq<Byte>>, Fault>, wire: Wire)

  /**
   * `SendCommand`: refuse without an open handle; purge both directions;
   * convert the command to bytes, which yields its frame or throws for the
   * one command without a frame (`ToBytesIsFrame`); write them and insist on
   * a full write; if the command expects a response, read exactly that many
   * bytes.
   */
  function Exchange(w: Wire, cmd: Command): Reply {
    if !w.open then Reply(Failure(DeviceNotOpen), w)
    else
      var (_, w1) := Guarded(w, Purged(PurgeRxTx));
      if !HasFrame(cmd) then Reply(Failure(NotImplemented), w1)
      else Transfer(w1, Frame(cmd), BytesToReceive(cmd))
  }

  /** The write of a converted frame and, when `expected > 0`, the read of the reply. */
  function Transfer(w: Wire, bytes: seq<Byte>, expected: nat): Reply {
    var (status, written, w1) := WriteStep(w, bytes);
    if status != FtOk then Reply(Failure(Driver(status)), w1)
    else if written != |bytes| then Reply(Failure(UnexpectedWrittenLength), w1)
    else if expected == 0 then Reply(Success(None), w1)
    else
      var (status', data, received, w2) := ReadStep(w1, expected);
      if status' != FtOk then Reply(Failure(Driver(status')), w2)
      else if received != expected then Reply(Failure(UnexpectedReceivedLength), w2)
      else Reply(Success(Some(data)), w2)
  }

  function Send(s: State, cmd: Command): (r: (Result<Option<seq<Byte>>, Fault>, State))
    requires Good(s)
    ensures Good(r.1)
  {
    var r := Exchange(s.wire, cmd);
    (r.result, s.(wire := r.wire))
  }

  /** The outcome of a call whose value, if any, is discarded. */
  function Void<T>(r: Result<T, Fault>): Outcome<Fault> {
    if r.Failure? then Fail(r.error) else Pass
  }

  function SendOnly(s: State, cmd: Command): (r: (Outcome<Fault>, State))
    requires Good(s)
    ensures Good(r.1)
  {
    var (r, s1) := Send(s, cmd);
    (Void(r), s1)
  }

  /** Sends a command whose construction may have thrown; a failed construction sends nothing. */
  function SendBuilt(s: State, built: Result<Command, Fault>): (r: (Outcome<Fault>, State))
    requires Good(s)
    ensures Good(r.1)
  {
    match built
    case Failure(e) => (Fail(e), s)
    case Success(cmd) => SendOnly(s, cmd)
  }

  /** Builds and sends commands in order, stopping at the first failure. */
  function SendAll(s: State, built: seq<Result<Command, Fault>>): (r: (Outcome<Fault>, State))
    requires Good(s)
    ensures Good(r.1)
    decreases |built|
  {
    if built == [] then (Pass, s)
    else
      var (o, s1) := SendBuilt(s, built[0]);
      if o.Fail? then (o, s1) else SendAll(s1, built[1..])
  }

  /** `Task.Delay(ms).Wait()`. */
  function Pause(s: State, ms: nat): (s': State)
    requires Good(s)
    ensures Good(s')
  {
    s.(wire := s.wire.(events := s.wire.events + [Waited(ms)]))
  }

  // ---- Connection ----

  /** `DisconnectFromDevice`: nothing without an open handle; else close and forget the serial number. */
  function Disconnect(s: State): (s': State)
    requires Good(s)
    ensures Good(s')
  {
    if !s.wire.open then s
    else
      var (_, w) := CloseStep(s.wire);
      s.(wire := w, currentDevice := "")
  }

  /** `InitializeDevice`: switch off the positive, then the negative supply. */
  function Initialize(s: State): (r: (Outcome<Fault>, State))
    requires Good(s)
    ensures Good(r.1)
  {
    var (o, s1) := SwitchSupply(s, false, false);
    if o.Fail? then (o, s1) else SwitchSupply(s1, true, false)
  }

  /**
   * The driver calls that open a connection: open by serial number, bit mode
   * 0x40, timeouts 1500 ms and 500 ms, 1 152 000 baud. Only the status of
   * the timeouts call is kept.
   */
  function Setup(w: Wire, serial: string): (FtStatus, Wire) {
    var (_, w1) := OpenStep(w, serial);
    var (_, w2) := Guarded(w1, BitModeSet(0x00, 0x40));
    var (error, w3) := Guarded(w2, TimeoutsSet(1500, 500));
    var (_, w4) := Guarded(w3, BaudRateSet(1152000));
    (error, w4)
  }

  /** The body of the `try` block of `ConnectToDevice`. */
  function ConnectSteps(s: State, serial: string): (r: (Outcome<Fault>, State))
    requires Good(s)
    ensures Good(r.1)
  {
    var (error, w4) := Setup(s.wire, serial);
    var s4 := s.(wire := w4);
    if error != FtOk then (Fail(Driver(error)), s4)
    else
      var (r, s5) := Send(s4.(currentDevice := serial), GetCalibrationCommand);
      if r.Failure? then (Fail(r.error), s5)
      else
        ExchangeReply(s4.wire, GetCalibrationCommand);
        Initialize(s5.(calibration := Some(r.value.value[1..15])))
  }

  /** `ConnectToDevice`: refuse an open handle; on any failure disconnect and rethrow. */
  function Connect(s: State, serial: string): (r: (Outcome<Fault>, State))
    requires Good(s)
    ensures Good(r.1)
  {
    if s.wire.open then (Fail(DeviceAlreadyOpen), s)
    else
      var (o, s1) := ConnectSteps(s, serial);
      if o.Fail? then (o, Disconnect(s1)) else (o, s1)
  }

  // ---- Oscilloscope ----

  /** `SetOscilloscopeChannelState`: the shadow follows only a successful exchange. */
  function EnableChannel(s: State, channel: bool, enable: bool): (r: (Outcome<Fault>, State))
    requires Good(s)
    ensures Good(r.1)
  {
    var (o, s1) := SendOnly(s, SetOscilloscopeChannelStateCommand(channel, enable));
    if o.Fail? then (o, s1) else (o, s1.(oscEnabled := s1.oscEnabled[Index(channel) := enable]))
  }

  /** `SetOscilloscopeChannelRange`: only 5 and 25 are accepted; the shadow is written before the exchange. */
  function SelectRange(s: State, channel: bool, range: int): (r: (Outcome<Fault>, State))
    requires Good(s)
    ensures Good(r.1)
  {
    if range != 5 && range != 25 then (Fail(OutOfRange("range")), s)
    else SendOnly(s.(oscIs25V := s.oscIs25V[Index(channel) := range == 25]),
      SetOscilloscopeChannelRangeCommand(channel, range == 25))
  }

  /** `SetOscilloscopeSamplingFrequency`: [1 Hz, 40 MHz] only. */
  function SetSampling(s: State, frequency: real): (r: (Outcome<Fault>, State))
    requires Good(s)
    ensures Good(r.1)
  {
    if frequency < 1.0 || frequency > 40000000.0 then (Fail(OutOfRange("frequency")), s)
    else SendOnly(s, NewSamplingFrequency(frequency))
  }

  /** The range the trigger level is scaled to: the source channel's, or 5 V for any other source. */
  function TriggerIs25V(s: State, source: TriggerSource): bool
    requires Good(s)
  {
    match source
    case DetectorAnalogInCh1 => s.oscIs25V[0]
    case DetectorAnalogInCh2 => s.oscIs25V[1]
    case _ => false
  }

  /** The commands `SetOscilloscopeTrigger` builds: timeout, source, level, condition. */
  function TriggerCommands(s: State, autoTimeout: bool, source: TriggerSource, level: real,
    condition: TriggerCondition): seq<Result<Command, Fault>>
    requires Good(s)
  {
    [Success(SetOscilloscopeTriggerTimeoutCommand(!autoTimeout)),
     Success(SetOscilloscopeTriggerSourceCommand(source)),
     NewTriggerLevel(level, TriggerIs25V(s, source)),
     Success(SetOscilloscopeTriggerConditionCommand(condition))]
  }

  /** `SetOscilloscopeTrigger`: the four commands in order, each only after the previous succeeded. */
  function ArmTrigger(s: State, autoTimeout: bool, source: TriggerSource, level: real,
    condition: TriggerCondition): (r: (Outcome<Fault>, State))
    requires Good(s)
    ensures Good(r.1)
  {
    SendAll(s, TriggerCommands(s, autoTimeout, source, level, condition))
  }

  /** `SetOscilloscopeDataPointsCount`: the seven powers of two only; the count is stored before the exchange. */
  function ResizeBuffer(s: State, dataPoints: int): (r: (Outcome<Fault>, State))
    requires Good(s)
    ensures Good(r.1)
  {
    if !IsBufferSize(dataPoints) then (Fail(OutOfRange("dataPoints")), s)
    else SendOnly(s.(dataPoints := dataPoints), SetOscilloscopeBufferSizeCommand(dataPoints))
  }

  /** `SetOscilloscopeRunning`: the flag follows only a successful exchange. */
  function SetRun(s: State, running: bool): (r: (Outcome<Fault>, State))
    requires Good(s)
    ensures Good(r.1)
  {
    var (o, s1) := SendOnly(s, SetOscilloscopeRunningCommand(running));
    if o.Fail? then (o, s1) else (o, s1.(running := running))
  }

  /** `GetDeviceStatus`: the fourth status byte, once the stop-status frame has gone out too. */
  function QueryStatus(s: State): (r: (Result<Byte, Fault>, State))
    requires Good(s)
    ensures Good(r.1)
  {
    var (r1, s1) := Send(s, GetOscilloscopeStatusCommand);
    if r1.Failure? then (Failure(r1.error), s1)
    else
      var (r2, s2) := Send(s1, StopGettingOscilloscopeStatusCommand);
      if r2.Failure? then (Failure(r2.error), s2)
      else
        ExchangeReply(s.wire, GetOscilloscopeStatusCommand);
        (Success(r1.value.value[3]), s2)
  }

  /**
   * Where an analog-input calibration byte sits: offsets of the 5 V range at
   * 6 and 7, its amplitudes at 8 and 9, then the same for the 25 V range at
   * 10 to 13, channel A before channel B.
   */
  function InputCalIndex(channel: bool, is25V: bool, amplitude: bool): (i: nat)
    ensures 6 <= i <= 13
  {
    6 + (if is25V then 4 else 0) + (if amplitude then 2 else 0) + Index(channel)
  }

  /** The integer added to every raw sample: the calibration offset byte less 123. */
  function InputOffset(cal: seq<Byte>, channel: bool, is25V: bool): int
    requires |cal| == 14
  {
    cal[InputCalIndex(channel, is25V, false)] as int - 123
  }

  /** The full-scale amplitude a raw sample of 2048 stands for; channel B's 25 V path is inverted. */
  function InputGain(cal: seq<Byte>, channel: bool, is25V: bool): real
    requires |cal| == 14
  {
    var amplitude := cal[InputCalIndex(channel, is25V, true)] as real;
    if !is25V then 1.0 / (0.00048828125 * amplitude + 0.19)
    else (if channel then -1.0 else 1.0) / (0.0001220703125 * amplitude + 0.036)
  }

  /** Sample `i`: the big-endian word at bytes `2i`, `2i + 1`, re-centred, offset and scaled. */
  function Sample(data: seq<Byte>, i: nat, offset: int, gain: real): real
    requires 2 * i + 1 < |data|
  {
    gain * ((data[2 * i] * 0x100 + data[2 * i + 1] - 0x800 + offset) as real / 0x800 as real)
  }

  function Decode(data: seq<Byte>, n: nat, offset: int, gain: real): (samples: seq<real>)
    requires 2 * n <= |data|
    ensures |samples| == n
  {
    seq(n, i requires 0 <= i < n => Sample(data, i, offset, gain))
  }

  /** The private `ReadOscilloscopeData(channel)`: calibration first, then one read of `dataPoints` samples. */
  function ReadChannel(s: State, channel: bool): (r: (Result<seq<real>, Fault>, State))
    requires Good(s)
    ensures Good(r.1)
  {
    var is25V := s.oscIs25V[Index(channel)];
    if s.calibration.None? then (Failure(NullCalibration), s)
    else
      var cal := s.calibration.value;
      var cmd := ReadOscilloscopeChannelDataCommand(channel, s.dataPoints);
      var (r, s1) := Send(s, cmd);
      if r.Failure? then (Failure(r.error), s1)
      else
        ExchangeReply(s.wire, cmd);
        assert 32 <= s.dataPoints <= 2048;
        assert BytesToReceive(cmd) == 2 * s.dataPoints;
        (Success(Decode(r.value.value, s.dataPoints, InputOffset(cal, channel, is25V), InputGain(cal, channel, is25V))), s1)
  }

  /** `ReadChannel` step by step: the calibration check, the exchange, the decoding. */
  lemma ReadChannelSteps(s: State, channel: bool)
    requires Good(s)
    requires s.calibration.Some?
    ensures var r := Send(s, ReadOscilloscopeChannelDataCommand(channel, s.dataPoints)).0;
      r.Success? ==> r.value.Some? && |r.value.value| == 2 * s.dataPoints
    ensures var (r, s1) := Send(s, ReadOscilloscopeChannelDataCommand(channel, s.dataPoints));
      ReadChannel(s, channel) == if r.Failure? then (Failure(r.error), s1)
        else (Success(Decode(r.value.value, s.dataPoints, InputOffset(s.calibration.value, channel, s.oscIs25V[Index(channel)]),
          InputGain(s.calibration.value, channel, s.oscIs25V[Index(channel)]))), s1)
  {
    var cmd := ReadOscilloscopeChannelDataCommand(channel, s.dataPoints);
    ExchangeReply(s.wire, cmd);
    assert BytesToReceive(cmd) == 2 * s.dataPoints;
  }

  /** The public `ReadOscilloscopeData()`: channel A, then channel B, each only if enabled. */
  function ReadChannels(s: State): (r: (Result<(Option<seq<real>>, Option<seq<real>>), Fault>, State))
    requires Good(s)
    ensures Good(r.1)
  {
    if !(s.oscEnabled[0] || s.oscEnabled[1]) then (Failure(ChannelUnavailable), s)
    else
      var (a, s1) := if s.oscEnabled[0] then ReadChannel(s, false) else (Success([]), s);
      if a.Failure? then (Failure(a.error), s1)
      else
        var (b, s2) := if s1.oscEnabled[1] then ReadChannel(s1, true) else (Success([]), s1);
        if b.Failure? then (Failure(b.error), s2)
        else
          (Success((if s.oscEnabled[0] then Some(a.value) else None, if s.oscEnabled[1] then Some(b.value) else None)), s2)
  }

  // ---- Power supply ----

  /** `SetSupplyEnabled`: the shadow follows only a successful exchange. */
  function SwitchSupply(s: State, isNegative: bool, enabled: bool): (r: (Outcome<Fault>, State))
    requires Good(s)
    ensures Good(r.1)
  {
    var (o, s1) := SendOnly(s, SetSupplyEnabledCommand(isNegative, enabled));
    if o.Fail? then (o, s1) else (o, s1.(supplyEnabled := s1.supplyEnabled[Index(isNegative) := enabled]))
  }

  /** The voltage command, built with calibration byte 4 (positive) or 5 (negative). */
  function SupplyVoltageCommand(s: State, isNegative: bool, value: real): Result<Command, Fault>
    requires Good(s)
  {
    if s.calibration.None? then Failure(NullCalibration)
    else NewSupplyVoltage(isNegative, value, s.calibration.value[if isNegative then 5 else 4])
  }

  /** The rest of an adjustment of a supply that was on, once it is off and has settled. */
  function AdjustTail(s: State, isNegative: bool, built: Result<Command, Fault>): (r: (Outcome<Fault>, State))
    requires Good(s)
    ensures Good(r.1)
  {
    var (o3, s3) := SendBuilt(s, built);
    if o3.Fail? then (o3, s3) else SwitchSupply(Pause(s3, SupplySettleMs), isNegative, true)
  }

  /** The `try` block of `SetSupplyVoltage`. */
  function AdjustSupplySteps(s: State, isNegative: bool, value: real): (r: (Outcome<Fault>, State))
    requires Good(s)
    ensures Good(r.1)
  {
    if !s.supplyEnabled[Index(isNegative)] then SendBuilt(s, SupplyVoltageCommand(s, isNegative, value))
    else
      var (o1, s1) := SwitchSupply(s, isNegative, false);
      if o1.Fail? then (o1, s1)
      else
        var s2 := Pause(s1, SupplySettleMs);
        AdjustTail(s2, isNegative, SupplyVoltageCommand(s2, isNegative, value))
  }

  /** `SetSupplyVoltage`: one adjustment at a time; the flag is cleared on every way out. */
  function AdjustSupply(s: State, isNegative: bool, value: real): (r: (Outcome<Fault>, State))
    requires Good(s)
    ensures Good(r.1)
  {
    if s.adjusting then (Fail(SupplyAdjusting), s)
    else
      var (o, s1) := AdjustSupplySteps(s.(adjusting := true), isNegative, value);
      (o, s1.(adjusting := false))
  }

  // ---- Wave generator ----

  function SelectWaveFunction(s: State, isChannel2: bool, waveFunction: WaveFunction): (r: (Outcome<Fault>, State))
    requires Good(s)
    ensures Good(r.1)
  {
    SendOnly(s, SetWaveGeneratorFunctionCommand(isChannel2, waveFunction))
  }

  function TuneWaveFrequency(s: State, isChannel2: bool, frequency: real): (r: (Outcome<Fault>, State))
    requires Good(s)
    ensures Good(r.1)
  {
    SendBuilt(s, NewWaveFrequency(isChannel2, frequency))
  }

  /** Calibration byte of the wave generator: offsets at 0 and 2, amplitudes at 1 and 3. */
  function WaveCalIndex(isChannel2: bool, amplitude: bool): (i: nat)
    ensures i <= 3
  {
    (if isChannel2 then 2 else 0) + (if amplitude then 1 else 0)
  }

  /**
   * The two commands of `SetWaveGeneratorOffsetAndAmplitude`: the amplitude
   * scaled by the channel's amplitude byte, then the offset scaled by both.
   */
  function WaveLevelCommands(cal: seq<Byte>, isChannel2: bool, offset: real, amplitude: real): seq<Result<Command, Fault>>
    requires |cal| == 14
  {
    [Success(NewWaveAmplitude(isChannel2, amplitude, cal[WaveCalIndex(isChannel2, true)])),
     Success(NewWaveOffset(isChannel2, offset, amplitude,
       cal[WaveCalIndex(isChannel2, false)], cal[WaveCalIndex(isChannel2, true)]))]
  }

  /** `SetWaveGeneratorOffsetAndAmplitude`: the amplitude frame, then the offset frame. */
  function SetWaveLevels(s: State, isChannel2: bool, offset: real, amplitude: real): (r: (Outcome<Fault>, State))
    requires Good(s)
    ensures Good(r.1)
  {
    if s.calibration.None? then (Fail(NullCalibration), s)
    else SendAll(s, WaveLevelCommands(s.calibration.value, isChannel2, offset, amplitude))
  }

  function ShapeWaveSymmetry(s: State, isChannel2: bool, symmetry: real): (r: (Outcome<Fault>, State))
    requires Good(s)
    ensures Good(r.1)
  {
    SendBuilt(s, NewWaveSymmetry(isChannel2, symmetry))
  }

  function ShiftWavePhase(s: State, isChannel2: bool, phase: real): (r: (Outcome<Fault>, State))
    requires Good(s)
    ensures Good(r.1)
  {
    SendOnly(s, SetWaveGeneratorPhaseCommand(isChannel2, phase))
  }

  function EnableWave(s: State, isChannel2: bool, enabled: bool): (r: (Outcome<Fault>, State))
    requires Good(s)
    ensures Good(r.1)
  {
    SendOnly(s, SetWaveGeneratorEnabledCommand(isChannel2, enabled))
  }

  // ---- Facts about one exchange ----

  /** The faults an exchange can raise: no handle, no frame, a driver status, or a short transfer. */
  predicate IoFault(f: Fault) {
    f.DeviceNotOpen? || f.NotImplemented? || f.Driver? || f.UnexpectedWrittenLength? || f.UnexpectedReceivedLength?
  }

  /** The library's `k`-th answer from now. */
  function NthAnswer(w: Wire, k: nat): Answer {
    if k < |w.answers| then w.answers[k] else NoAnswer
  }

  /**
   * A successful exchange wrote a frame and returns no bytes exactly when the
   * command expects none, else exactly as many as it expects.
   */
  lemma ExchangeReply(w: Wire, cmd: Command)
    ensures Exchange(w, cmd).wire.open == w.open
    ensures Exchange(w, cmd).result.Failure? ==> IoFault(Exchange(w, cmd).result.error)
    ensures Exchange(w, cmd).result.Success? ==> w.open && HasFrame(cmd)
    ensures Exchange(w, cmd).result.Success? ==> (Exchange(w, cmd).result.value.Some? <==> BytesToReceive(cmd) > 0)
    ensures Exchange(w, cmd).result.Success? && Exchange(w, cmd).result.value.Some? ==>
      |Exchange(w, cmd).result.value.value| == BytesToReceive(cmd)
  {
    if w.open {
      var w1 := Guarded(w, Purged(PurgeRxTx)).1;
      assert w1.open;
      if HasFrame(cmd) {
        assert Exchange(w, cmd) == Transfer(w1, Frame(cmd), BytesToReceive(cmd));
        TransferReply(w1, Frame(cmd), BytesToReceive(cmd));
      }
    }
  }

  lemma TransferReply(w: Wire, bytes: seq<Byte>, expected: nat)
    ensures Transfer(w, bytes, expected).wire.open == w.open
    ensures Transfer(w, bytes, expected).result.Success? ==>
      (Transfer(w, bytes, expected).result.value.Some? <==> expected > 0)
    ensures Transfer(w, bytes, expected).result.Success? && expected > 0 ==>
      |Transfer(w, bytes, expected).result.value.value| == expected
  {
  }

  /** Whether the library accepted the whole frame: the answer after the purge's. */
  predicate WriteCompleted(w: Wire, cmd: Command)
    requires HasFrame(cmd)
  {
    NthAnswer(w, 1).status == FtOk && NthAnswer(w, 1).count == |Frame(cmd)|
  }

  /** Whether the library delivered the whole response: the answer after the write's. */
  predicate ReadCompleted(w: Wire, cmd: Command) {
    NthAnswer(w, 2).status == FtOk && NthAnswer(w, 2).count == BytesToReceive(cmd)
  }

  /** What follows the purge: the frame, and the read if the write was complete and a reply is expected. */
  function AfterPurge(w: Wire, cmd: Command): seq<Event> {
    if !HasFrame(cmd) then []
    else [Wrote(Frame(cmd))] + (if WriteCompleted(w, cmd) && BytesToReceive(cmd) > 0 then [Fetched(BytesToReceive(cmd))] else [])
  }

  /** Without an open handle an exchange fails before any call reaches the library. */
  lemma ExchangeNeedsOpenDevice(w: Wire, cmd: Command)
    requires !w.open
    ensures Exchange(w, cmd) == Reply(Failure(DeviceNotOpen), w)
  {
  }

  /**
   * With an open handle, an exchange purges, then writes the command's frame
   * (nothing for the command that has none), and reads only after a complete
   * write and only when a response is expected.
   */
  lemma ExchangeEvents(w: Wire, cmd: Command)
    requires w.open
    ensures Exchange(w, cmd).wire.events == w.events + [Purged(PurgeRxTx)] + AfterPurge(w, cmd)
  {
    var w1 := Guarded(w, Purged(PurgeRxTx)).1;
    assert w1.events == w.events + [Purged(PurgeRxTx)];
    if HasFrame(cmd) {
      assert Exchange(w, cmd) == Transfer(w1, Frame(cmd), BytesToReceive(cmd));
      AnswersAfterPurge(w);
      TransferEvents(w1, Frame(cmd), BytesToReceive(cmd));
    }
  }

  lemma TransferEvents(w: Wire, bytes: seq<Byte>, expected: nat)
    requires w.open
    ensures Transfer(w, bytes, expected).wire.events == w.events + [Wrote(bytes)] +
      (if NthAnswer(w, 0).status == FtOk && NthAnswer(w, 0).count == |bytes| && expected > 0 then [Fetched(expected)] else [])
  {
  }

  /**
   * An exchange succeeds exactly when the handle is open, the command has a
   * frame, the library took all of it and, if a response is expected,
   * delivered all of it; the response is then the bytes it delivered.
   */
  lemma ExchangeSucceeds(w: Wire, cmd: Command)
    ensures Exchange(w, cmd).result.Success? <==>
      w.open && HasFrame(cmd) && WriteCompleted(w, cmd) && (BytesToReceive(cmd) == 0 || ReadCompleted(w, cmd))
    ensures Exchange(w, cmd).result.Success? && BytesToReceive(cmd) > 0 ==>
      Exchange(w, cmd).result.value == Some(Fill(NthAnswer(w, 2).data, BytesToReceive(cmd)))
  {
    if w.open && HasFrame(cmd) {
      var w1 := Guarded(w, Purged(PurgeRxTx)).1;
      assert Exchange(w, cmd) == Transfer(w1, Frame(cmd), BytesToReceive(cmd));
      AnswersAfterPurge(w);
      TransferSucceeds(w1, Frame(cmd), BytesToReceive(cmd));
    }
  }

  /** The purge takes the first answer, if there is one. */
  lemma AnswersAfterPurge(w: Wire)
    requires w.open
    ensures var w1 := Guarded(w, Purged(PurgeRxTx)).1;
      w1.open && NthAnswer(w1, 0) == NthAnswer(w, 1) && NthAnswer(w1, 1) == NthAnswer(w, 2)
  {
  }

  lemma TransferSucceeds(w: Wire, bytes: seq<Byte>, expected: nat)
    requires w.open
    ensures Transfer(w, bytes, expected).result.Success? <==>
      NthAnswer(w, 0).status == FtOk && NthAnswer(w, 0).count == |bytes|
      && (expected == 0 || (NthAnswer(w, 1).status == FtOk && NthAnswer(w, 1).count == expected))
    ensures Transfer(w, bytes, expected).result.Success? && expected > 0 ==>
      Transfer(w, bytes, expected).result.value == Some(Fill(NthAnswer(w, 1).data, expected))
  {
  }

  /** The calls a bystander on the cable can tell apart: frames written and pauses, in order. */
  function Writes(events: seq<Event>): seq<Event> {
    if events == [] then []
    else
      var last := events[|events| - 1];
      Writes(events[..|events| - 1]) + (if last.Wrote? || last.Waited? then [last] else [])
  }

  lemma {:induction false} WritesConcat(a: seq<Event>, b: seq<Event>)
    ensures Writes(a + b) == Writes(a) + Writes(b)
  {
    if b == [] {
      assert a + b == a;
    } else {
      assert (a + b)[..|a + b| - 1] == a + b[..|b| - 1];
      WritesConcat(a, b[..|b| - 1]);
    }
  }

  lemma WritesAfterPurge(w: Wire, cmd: Command)
    ensures Writes([Purged(PurgeRxTx)] + AfterPurge(w, cmd)) == if HasFrame(cmd) then [Wrote(Frame(cmd))] else []
  {
    var tail := AfterPurge(w, cmd);
    WritesConcat([Purged(PurgeRxTx)], tail);
    assert Writes([Purged(PurgeRxTx)]) == [];
    if HasFrame(cmd) {
      var fetch := if WriteCompleted(w, cmd) && BytesToReceive(cmd) > 0 then [Fetched(BytesToReceive(cmd))] else [];
      WritesConcat([Wrote(Frame(cmd))], fetch);
      assert Writes([Wrote(Frame(cmd))]) == [Wrote(Frame(cmd))];
      assert Writes(fetch) == [] by {
        if fetch != [] {
          assert fetch[..0] == [];
        }
      }
    }
  }

  /** A successful exchange adds exactly its frame to what was written; a failed one at most that. */
  lemma ExchangeWrites(w: Wire, cmd: Command)
    ensures var e := Exchange(w, cmd).wire.events;
      Exchange(w, cmd).result.Success? ==> HasFrame(cmd) && Writes(e) == Writes(w.events) + [Wrote(Frame(cmd))]
    ensures var e := Exchange(w, cmd).wire.events;
      Writes(e) == Writes(w.events) || (HasFrame(cmd) && Writes(e) == Writes(w.events) + [Wrote(Frame(cmd))])
  {
    ExchangeReply(w, cmd);
    if w.open {
      ExchangeEvents(w, cmd);
      assert w.events + [Purged(PurgeRxTx)] + AfterPurge(w, cmd) == w.events + ([Purged(PurgeRxTx)] + AfterPurge(w, cmd));
      WritesConcat(w.events, [Purged(PurgeRxTx)] + AfterPurge(w, cmd));
      WritesAfterPurge(w, cmd);
    }
  }

  /** A pause adds itself to what a bystander sees. */
  lemma PauseWrites(s: State, ms: nat)
    requires Good(s)
    ensures Writes(Pause(s, ms).wire.events) == Writes(s.wire.events) + [Waited(ms)]
  {
    assert Pause(s, ms).wire.events[..|Pause(s, ms).wire.events| - 1] == s.wire.events;
  }

  // ---- Facts about the operations ----

  /** Setup calls, reads and purges are invisible on the cable. */
  lemma WritesSkip(events: seq<Event>, e: Event)
    requires !e.Wrote? && !e.Waited?
    ensures Writes(events + [e]) == Writes(events)
  {
    assert (events + [e])[..|events|] == events;
  }

  /** A successful single-exchange operation adds its frame to what was written and leaves the handle as it was. */
  lemma SendOnlyWrites(s: State, cmd: Command)
    requires Good(s)
    ensures SendOnly(s, cmd).1.wire.open == s.wire.open
    ensures SendOnly(s, cmd).0.Pass? ==>
      HasFrame(cmd) && Writes(SendOnly(s, cmd).1.wire.events) == Writes(s.wire.events) + [Wrote(Frame(cmd))]
  {
    ExchangeReply(s.wire, cmd);
    ExchangeWrites(s.wire, cmd);
  }

  /**
   * `SetOscilloscopeChannelState`: the channel's enable shadow takes the new
   * value only once the frame `AA FF 01 07 ch en` has gone out and been
   * accepted; otherwise no shadow changes.
   */
  lemma EnableChannelEffect(s: State, channel: bool, enable: bool)
    requires Good(s)
    ensures var (o, s') := EnableChannel(s, channel, enable);
      o.Pass? ==> (s'.oscEnabled[Index(channel)] == enable && s'.oscEnabled[1 - Index(channel)] == s.oscEnabled[1 - Index(channel)]
        && Writes(s'.wire.events) == Writes(s.wire.events) + [Wrote([0xAA, 0xFF, 0x01, 0x07, Bit(channel), Bit(enable)])])
    ensures var (o, s') := EnableChannel(s, channel, enable);
      o.Fail? ==> s'.oscEnabled == s.oscEnabled
    ensures !s.wire.open ==> EnableChannel(s, channel, enable) == (Fail(DeviceNotOpen), s)
  {
    SendOnlyWrites(s, SetOscilloscopeChannelStateCommand(channel, enable));
    assert Frame(SetOscilloscopeChannelStateCommand(channel, enable)) == [0xAA, 0xFF, 0x01, 0x07, Bit(channel), Bit(enable)];
  }

  /** `SetSupplyEnabled`: the same discipline for the supply shadow, with frame `AA FF 03 00 b`. */
  lemma SwitchSupplyEffect(s: State, isNegative: bool, enabled: bool)
    requires Good(s)
    ensures var (o, s') := SwitchSupply(s, isNegative, enabled);
      o.Pass? ==> (s'.supplyEnabled[Index(isNegative)] == enabled
        && s'.supplyEnabled[1 - Index(isNegative)] == s.supplyEnabled[1 - Index(isNegative)]
        && Writes(s'.wire.events) == Writes(s.wire.events) + [Wrote(Frame(SetSupplyEnabledCommand(isNegative, enabled)))])
    ensures var (o, s') := SwitchSupply(s, isNegative, enabled);
      o.Fail? ==> s'.supplyEnabled == s.supplyEnabled
    ensures SwitchSupply(s, isNegative, enabled).1.wire.open == s.wire.open
  {
    SendOnlyWrites(s, SetSupplyEnabledCommand(isNegative, enabled));
  }

  /** `SetOscilloscopeRunning`: the running flag follows only an accepted `AA FF 01 08 en`. */
  lemma SetRunEffect(s: State, running: bool)
    requires Good(s)
    ensures var (o, s') := SetRun(s, running);
      s'.running == (if o.Pass? then running else s.running)
    ensures var (o, s') := SetRun(s, running);
      o.Pass? ==> Writes(s'.wire.events) == Writes(s.wire.events) + [Wrote([0xAA, 0xFF, 0x01, 0x08, Bit(running)])]
  {
    SendOnlyWrites(s, SetOscilloscopeRunningCommand(running));
    assert Frame(SetOscilloscopeRunningCommand(running)) == [0xAA, 0xFF, 0x01, 0x08, Bit(running)];
  }

  /**
   * `SetOscilloscopeChannelRange`: any range but 5 and 25 is refused before
   * any I/O; an accepted range is recorded in the shadow whether or not the
   * exchange then succeeds.
   */
  lemma SelectRangeEffect(s: State, channel: bool, range: int)
    requires Good(s)
    ensures range != 5 && range != 25 ==> SelectRange(s, channel, range) == (Fail(OutOfRange("range")), s)
    ensures var (o, s') := SelectRange(s, channel, range);
      (range == 5 || range == 25) ==> (s'.oscIs25V[Index(channel)] == (range == 25)
        && s'.oscIs25V[1 - Index(channel)] == s.oscIs25V[1 - Index(channel)])
    ensures var (o, s') := SelectRange(s, channel, range);
      o.Pass? ==> Writes(s'.wire.events) == Writes(s.wire.events) + [Wrote([0xAA, 0xFF, 0x01, 0x04, Bit(channel), Bit(range == 25)])]
  {
    if range == 5 || range == 25 {
      SendOnlyWrites(s.(oscIs25V := s.oscIs25V[Index(channel) := range == 25]), SetOscilloscopeChannelRangeCommand(channel, range == 25));
      assert Frame(SetOscilloscopeChannelRangeCommand(channel, range == 25)) == [0xAA, 0xFF, 0x01, 0x04, Bit(channel), Bit(range == 25)];
    }
  }

  /**
   * `SetOscilloscopeDataPointsCount`: only the seven powers of two pass, and
   * the count is stored before the exchange, whose frame carries its
   * exponent less five.
   */
  lemma ResizeBufferEffect(s: State, dataPoints: int)
    requires Good(s)
    ensures !IsBufferSize(dataPoints) ==> ResizeBuffer(s, dataPoints) == (Fail(OutOfRange("dataPoints")), s)
    ensures IsBufferSize(dataPoints) ==> ResizeBuffer(s, dataPoints).1.dataPoints == dataPoints
    ensures var (o, s') := ResizeBuffer(s, dataPoints);
      o.Pass? ==> exists code: Byte :: (code <= 6 && Pow2(code + 5) == dataPoints
        && Writes(s'.wire.events) == Writes(s.wire.events) + [Wrote([0xAA, 0xFF, 0x01, 0x06, code])])
  {
    if IsBufferSize(dataPoints) {
      var cmd := SetOscilloscopeBufferSizeCommand(dataPoints);
      SendOnlyWrites(s.(dataPoints := dataPoints), cmd);
      var code := BufferSizeCode(dataPoints);
      assert Frame(cmd) == [0xAA, 0xFF, 0x01, 0x06, code];
    }
  }

  /**
   * `SetOscilloscopeSamplingFrequency`: a frequency outside [1 Hz, 40 MHz] is
   * refused before any I/O; an accepted one sends one frame whose 32-bit
   * field is the tick count, and only the wire changes.
   */
  lemma SetSamplingEffect(s: State, frequency: real)
    requires Good(s)
    ensures (frequency < 1.0 || frequency > 40000000.0) ==> SetSampling(s, frequency) == (Fail(OutOfRange("frequency")), s)
    ensures var (o, s') := SetSampling(s, frequency);
      s' == s.(wire := s'.wire)
    ensures var (o, s') := SetSampling(s, frequency);
      o.Pass? ==> (1.0 <= frequency <= 40000000.0
        && Writes(s'.wire.events) == Writes(s.wire.events) + [Wrote(Frame(NewSamplingFrequency(frequency)))]
        && ValueOf(Frame(NewSamplingFrequency(frequency))[4..]) == SamplingTicks(frequency))
  {
    if 1.0 <= frequency <= 40000000.0 {
      SendOnlyWrites(s, NewSamplingFrequency(frequency));
    }
  }

  /**
   * `SetWaveGeneratorFrequency`: a frequency outside [0, 40 MHz] is refused
   * before any I/O; an accepted one sends one frame carrying its code (the
   * source's own code below 40 MHz, the saturated `FFFFFFFF` at 40 MHz), and
   * only the wire changes.
   */
  lemma TuneWaveFrequencyEffect(s: State, isChannel2: bool, frequency: real)
    requires Good(s)
    ensures !WaveFrequencyInRange(frequency) ==>
      TuneWaveFrequency(s, isChannel2, frequency) == (Fail(OutOfRange("frequency")), s)
    ensures var (o, s') := TuneWaveFrequency(s, isChannel2, frequency);
      s' == s.(wire := s'.wire)
    ensures var (o, s') := TuneWaveFrequency(s, isChannel2, frequency);
      o.Pass? ==> (WaveFrequencyInRange(frequency)
        && Writes(s'.wire.events) == Writes(s.wire.events) + [Wrote(Frame(NewWaveFrequency(isChannel2, frequency).value))]
        && ValueOf(Frame(NewWaveFrequency(isChannel2, frequency).value)[5..9]) == WaveFrequencyCode(frequency)
        && (frequency < 40000000.0 ==>
          ValueOf(Frame(NewWaveFrequency(isChannel2, frequency).value)[5..9]) == WaveFrequencyCodeAsWritten(frequency)))
  {
    SendBuiltWrites(s, NewWaveFrequency(isChannel2, frequency));
  }

  /**
   * `SetWaveGeneratorSymmetry`: a symmetry outside [0, 1] is refused before
   * any I/O; an accepted one sends one frame, and only the wire changes.
   */
  lemma ShapeWaveSymmetryEffect(s: State, isChannel2: bool, symmetry: real)
    requires Good(s)
    ensures !SymmetryInRange(symmetry) ==>
      ShapeWaveSymmetry(s, isChannel2, symmetry) == (Fail(OutOfRange("symmetry")), s)
    ensures var (o, s') := ShapeWaveSymmetry(s, isChannel2, symmetry);
      s' == s.(wire := s'.wire)
    ensures var (o, s') := ShapeWaveSymmetry(s, isChannel2, symmetry);
      o.Pass? ==> (SymmetryInRange(symmetry)
        && Writes(s'.wire.events) == Writes(s.wire.events) + [Wrote(Frame(NewWaveSymmetry(isChannel2, symmetry).value))]
        && Frame(NewWaveSymmetry(isChannel2, symmetry).value)[5] == SymmetryCode(symmetry))
  {
    SendBuiltWrites(s, NewWaveSymmetry(isChannel2, symmetry));
  }

  predicate AllBuilt(built: seq<Result<Command, Fault>>) {
    forall i :: 0 <= i < |built| ==> built[i].Success? && HasFrame(built[i].value)
  }

  /** The frames of commands that were all built, as writes. */
  function Frames(built: seq<Result<Command, Fault>>): (frames: seq<Event>)
    requires AllBuilt(built)
    ensures |frames| == |built|
  {
    if built == [] then [] else [Wrote(Frame(built[0].value))] + Frames(built[1..])
  }

  lemma SendBuiltWrites(s: State, built: Result<Command, Fault>)
    requires Good(s)
    ensures SendBuilt(s, built).1.wire.open == s.wire.open
    ensures SendBuilt(s, built).0.Pass? ==>
      built.Success? && HasFrame(built.value)
      && Writes(SendBuilt(s, built).1.wire.events) == Writes(s.wire.events) + [Wrote(Frame(built.value))]
  {
    if built.Success? {
      SendOnlyWrites(s, built.value);
    }
  }

  /** A list whose head failed to send or build stops there; otherwise the rest is sent. */
  lemma SendAllFirst(s: State, built: seq<Result<Command, Fault>>)
    requires Good(s)
    requires built != []
    ensures SendBuilt(s, built[0]).0.Fail? ==> SendAll(s, built) == SendBuilt(s, built[0])
    ensures SendBuilt(s, built[0]).0.Pass? ==> SendAll(s, built) == SendAll(SendBuilt(s, built[0]).1, built[1..])
  {
  }

  /** `SendAll` on a list given as its head and its rest. */
  lemma SendAllCons(s: State, first: Result<Command, Fault>, rest: seq<Result<Command, Fault>>)
    requires Good(s)
    ensures SendBuilt(s, first).0.Fail? ==> SendAll(s, [first] + rest) == SendBuilt(s, first)
    ensures SendBuilt(s, first).0.Pass? ==> SendAll(s, [first] + rest) == SendAll(SendBuilt(s, first).1, rest)
  {
    assert ([first] + rest)[0] == first;
    assert ([first] + rest)[1..] == rest;
  }

  lemma FramesFirst(built: seq<Result<Command, Fault>>)
    requires built != []
    requires built[0].Success? && HasFrame(built[0].value)
    requires AllBuilt(built[1..])
    ensures AllBuilt(built)
    ensures Frames(built) == [Wrote(Frame(built[0].value))] + Frames(built[1..])
  {
    assert forall i :: 1 <= i < |built| ==> built[i] == built[1..][i - 1];
  }

  lemma AppendAfter(before: seq<Event>, e: Event, middle: seq<Event>, more: seq<Event>, after: seq<Event>)
    requires middle == before + [e]
    requires after == middle + more
    ensures after == before + ([e] + more)
  {
  }

  /** Sending a list succeeds only if every command was built, and then writes their frames in order. */
  lemma {:induction false} SendAllWrites(s: State, built: seq<Result<Command, Fault>>)
    requires Good(s)
    ensures SendAll(s, built).1.wire.open == s.wire.open
    ensures SendAll(s, built).0.Pass? ==> AllBuilt(built)
    ensures SendAll(s, built).0.Pass? ==> Writes(SendAll(s, built).1.wire.events) == Writes(s.wire.events) + Frames(built)
    decreases |built|
  {
    if built != [] {
      var first := SendBuilt(s, built[0]);
      SendBuiltWrites(s, built[0]);
      SendAllFirst(s, built);
      if first.0.Pass? {
        var rest := SendAll(first.1, built[1..]);
        SendAllWrites(first.1, built[1..]);
        if rest.0.Pass? {
          FramesFirst(built);
          AppendAfter(Writes(s.wire.events), Wrote(Frame(built[0].value)), Writes(first.1.wire.events),
            Frames(built[1..]), Writes(rest.1.wire.events));
        }
      }
    }
  }

  /**
   * `SetOscilloscopeTrigger`: when it succeeds, exactly four frames went out,
   * timeout, source, level and condition in that order, the level scaled to
   * the range of the source channel.
   */
  lemma ArmTriggerOrder(s: State, autoTimeout: bool, source: TriggerSource, level: real, condition: TriggerCondition)
    requires Good(s)
    requires ArmTrigger(s, autoTimeout, source, level, condition).0.Pass?
    ensures NewTriggerLevel(level, TriggerIs25V(s, source)).Success?
    ensures Writes(ArmTrigger(s, autoTimeout, source, level, condition).1.wire.events)
         == Writes(s.wire.events) + Frames(TriggerCommands(s, autoTimeout, source, level, condition))
  {
    var built := TriggerCommands(s, autoTimeout, source, level, condition);
    SendAllWrites(s, built);
    assert built[2] == NewTriggerLevel(level, TriggerIs25V(s, source));
  }

  /**
   * `SetOscilloscopeTrigger` with a level outside the range: the timeout and
   * source frames have already gone out when the level is rejected, and the
   * condition frame never does.
   */
  lemma ArmTriggerRejectedLevel(s: State, autoTimeout: bool, source: TriggerSource, level: real, condition: TriggerCondition)
    requires Good(s)
    requires NewTriggerLevel(level, TriggerIs25V(s, source)).Failure?
    ensures var first := TriggerCommands(s, autoTimeout, source, level, condition)[..2];
      var (o2, s2) := SendAll(s, first);
      o2.Pass? ==> (ArmTrigger(s, autoTimeout, source, level, condition)
          == (Fail(NewTriggerLevel(level, TriggerIs25V(s, source)).error), s2)
        && Writes(s2.wire.events) == Writes(s.wire.events) + Frames(first))
    ensures ArmTrigger(s, autoTimeout, source, level, condition).0.Fail?
  {
    var built := TriggerCommands(s, autoTimeout, source, level, condition);
    var first := built[..2];
    SendAllWrites(s, first);
    var (o0, s0) := SendBuilt(s, built[0]);
    SendAllFirst(s, built);
    SendAllFirst(s, first);
    assert built[1..][0] == built[1] == first[1..][0];
    if o0.Pass? {
      SendAllFirst(s0, built[1..]);
      SendAllFirst(s0, first[1..]);
      var (o1, s1) := SendBuilt(s0, built[1]);
      if o1.Pass? {
        assert first[1..][1..] == [];
        assert built[1..][1..][0] == built[2];
        SendAllFirst(s1, built[1..][1..]);
      }
    }
  }

  /**
   * `GetDeviceStatus`: the stop-status frame goes out only after the status
   * exchange succeeded; success means both frames went out, in that order,
   * and the result is the fourth byte of the four the library delivered.
   */
  lemma QueryStatusOrder(s: State)
    requires Good(s)
    ensures var (r, s') := QueryStatus(s);
      r.Success? ==> Writes(s'.wire.events) == Writes(s.wire.events) + [Wrote([0xAA, 0xFF, 0x01, 0x09]), Wrote([0xAA, 0xFF, 0x01, 0x0A])]
    ensures var (r1, s1) := Send(s, GetOscilloscopeStatusCommand);
      r1.Failure? ==> QueryStatus(s) == (Failure(r1.error), s1)
    ensures var (r, s') := QueryStatus(s);
      r.Success? ==> r.value == Fill(NthAnswer(s.wire, 2).data, 4)[3]
  {
    var (r1, s1) := Send(s, GetOscilloscopeStatusCommand);
    ExchangeSucceeds(s.wire, GetOscilloscopeStatusCommand);
    ExchangeWrites(s.wire, GetOscilloscopeStatusCommand);
    ExchangeWrites(s1.wire, StopGettingOscilloscopeStatusCommand);
  }

  lemma AroundPause(w0: seq<Event>, w1: seq<Event>, w2: seq<Event>, w3: seq<Event>, before: Event, after: Event)
    requires w1 == w0 + [before]
    requires w2 == w1 + [Waited(SupplySettleMs)]
    requires w3 == w2 + [after]
    ensures w3 == w0 + [before, Waited(SupplySettleMs), after]
  {
  }

  lemma OffPauseTail(w0: seq<Event>, w1: seq<Event>, w2: seq<Event>, w3: seq<Event>, off: Event, tail: seq<Event>)
    requires w1 == w0 + [off]
    requires w2 == w1 + [Waited(SupplySettleMs)]
    requires w3 == w2 + tail
    requires |tail| == 3
    ensures w3 == w0 + [off, Waited(SupplySettleMs), tail[0], tail[1], tail[2]]
  {
    assert tail == [tail[0], tail[1], tail[2]];
  }

  /** Two steps that each add to a log add their additions in order. */
  lemma Then(w0: seq<Event>, w1: seq<Event>, w2: seq<Event>, x: seq<Event>, y: seq<Event>)
    requires w1 == w0 + x
    requires w2 == w1 + y
    ensures w2 == w0 + (x + y)
  {
  }

  /**
   * `SetWaveGeneratorOffsetAndAmplitude`: without calibration nothing is
   * sent; success means the amplitude frame, then the offset frame, went
   * out, built with the channel's wave calibration bytes.
   */
  lemma SetWaveLevelsOrder(s: State, isChannel2: bool, offset: real, amplitude: real)
    requires Good(s)
    ensures s.calibration.None? ==> SetWaveLevels(s, isChannel2, offset, amplitude) == (Fail(NullCalibration), s)
    ensures var (o, s') := SetWaveLevels(s, isChannel2, offset, amplitude);
      o.Pass? ==> (s.calibration.Some? && Writes(s'.wire.events) == Writes(s.wire.events)
        + [Wrote(Frame(NewWaveAmplitude(isChannel2, amplitude, s.calibration.value[WaveCalIndex(isChannel2, true)]))),
           Wrote(Frame(NewWaveOffset(isChannel2, offset, amplitude,
             s.calibration.value[WaveCalIndex(isChannel2, false)], s.calibration.value[WaveCalIndex(isChannel2, true)])))])
  {
    if s.calibration.Some? {
      var built := WaveLevelCommands(s.calibration.value, isChannel2, offset, amplitude);
      SendAllWrites(s, built);
      if SendAll(s, built).0.Pass? {
        FramesFirst(built);
        FramesFirst(built[1..]);
        assert built[1..][1..] == [];
      }
    }
  }

  /**
   * The calibration record's layout: the four wave-generator bytes, the two
   * supply bytes and the eight analog-input bytes occupy distinct places,
   * and no two analog-input or wave settings share a byte.
   */
  lemma CalibrationLayout(c1: bool, r1: bool, a1: bool, c2: bool, r2: bool, a2: bool)
    ensures InputCalIndex(c1, r1, a1) == InputCalIndex(c2, r2, a2) <==> c1 == c2 && r1 == r2 && a1 == a2
    ensures WaveCalIndex(c1, a1) == WaveCalIndex(c2, a2) <==> c1 == c2 && a1 == a2
    ensures WaveCalIndex(c1, a1) < 4 <= (if c2 then 5 else 4) < 6 <= InputCalIndex(c1, r1, a1)
  {
  }

  /**
   * Only channel B's 25 V path is inverted: its full-scale amplitude is
   * negative, every other path's positive.
   */
  lemma InputGainSign(cal: seq<Byte>, channel: bool, is25V: bool)
    requires |cal| == 14
    ensures InputGain(cal, channel, is25V) < 0.0 <==> channel && is25V
    ensures InputGain(cal, channel, is25V) != 0.0
  {
    var amplitude := cal[InputCalIndex(channel, is25V, true)] as real;
    assert amplitude >= 0.0;
    if is25V {
      var d := 0.0001220703125 * amplitude + 0.036;
      assert d > 0.0;
    } else {
      var d := 0.00048828125 * amplitude + 0.19;
      assert d > 0.0;
    }
  }

  /** A sample is the big-endian word at bytes `2i`, `2i + 1`, less the mid-scale 2048, plus the offset, over 2048. */
  lemma SampleWord(data: seq<Byte>, i: nat, offset: int, gain: real)
    requires 2 * i + 1 < |data|
    ensures Sample(data, i, offset, gain) == gain * ((ValueOf(data[2 * i..2 * i + 2]) - 0x800 + offset) as real / 0x800 as real)
  {
    var w := data[2 * i..2 * i + 2];
    assert w[..1] == [data[2 * i]];
    assert w[..1][..0] == [];
    assert ValueOf(w[..1]) == data[2 * i];
    assert ValueOf(w) == data[2 * i] as int * 0x100 + data[2 * i + 1] as int;
  }

  /**
   * Reading one channel: without calibration it fails before any I/O;
   * otherwise it succeeds exactly when the read exchange does, and then
   * returns `dataPoints` samples decoded from the bytes the library
   * delivered. Only the wire changes.
   */
  lemma ReadChannelEffect(s: State, channel: bool)
    requires Good(s)
    ensures s.calibration.None? ==> ReadChannel(s, channel) == (Failure(NullCalibration), s)
    ensures var (r, s') := ReadChannel(s, channel);
      s' == s.(wire := s'.wire) && s'.wire.open == s.wire.open
    ensures var (r, s') := ReadChannel(s, channel);
      r.Failure? ==> r.error.NullCalibration? || IoFault(r.error)
    ensures var (r, s') := ReadChannel(s, channel);
      r.Success? ==> (s.calibration.Some? && |r.value| == s.dataPoints
        && r.value == Decode(Fill(NthAnswer(s.wire, 2).data, 2 * s.dataPoints), s.dataPoints,
          InputOffset(s.calibration.value, channel, s.oscIs25V[Index(channel)]),
          InputGain(s.calibration.value, channel, s.oscIs25V[Index(channel)])))
  {
    if s.calibration.Some? {
      var cmd := ReadOscilloscopeChannelDataCommand(channel, s.dataPoints);
      ExchangeReply(s.wire, cmd);
      ExchangeSucceeds(s.wire, cmd);
      assert BytesToReceive(cmd) == 2 * s.dataPoints;
    }
  }

  /**
   * `ReadOscilloscopeData()`: with both channels disabled it fails before any
   * I/O; otherwise each enabled channel, and only those, yields
   * `dataPoints` samples. Only the wire changes.
   */
  lemma ReadChannelsEffect(s: State)
    requires Good(s)
    ensures ReadChannels(s).0 == Failure(ChannelUnavailable) <==> !(s.oscEnabled[0] || s.oscEnabled[1])
    ensures !(s.oscEnabled[0] || s.oscEnabled[1]) ==> ReadChannels(s).1 == s
    ensures var (r, s') := ReadChannels(s);
      s' == s.(wire := s'.wire)
    ensures var (r, s') := ReadChannels(s);
      r.Success? ==> ((r.value.0.Some? <==> s.oscEnabled[0]) && (r.value.1.Some? <==> s.oscEnabled[1])
        && (r.value.0.Some? ==> |r.value.0.value| == s.dataPoints)
        && (r.value.1.Some? ==> |r.value.1.value| == s.dataPoints))
  {
    if s.oscEnabled[0] || s.oscEnabled[1] {
      ReadChannelEffect(s, false);
      var (a, s1) := if s.oscEnabled[0] then ReadChannel(s, false) else (Success([]), s);
      assert s1 == s.(wire := s1.wire);
      if a.Success? {
        ReadChannelEffect(s1, true);
      }
    }
  }

  /** `SetSupplyVoltage` builds its command with calibration byte 4 (positive) or 5 (negative). */
  lemma SupplyVoltageCommandLayout(s: State, isNegative: bool, value: real)
    requires Good(s)
    ensures SupplyVoltageCommand(s, isNegative, value).Success? <==>
      s.calibration.Some? && SupplyVoltageInRange(isNegative, value)
    ensures SupplyVoltageCommand(s, isNegative, value).Success? ==>
      var cmd := SupplyVoltageCommand(s, isNegative, value).value;
      HasFrame(cmd) && |Frame(cmd)| == 8
      && Signed16(Frame(cmd)[6..]) == SupplyCode(isNegative, value, s.calibration.value[if isNegative then 5 else 4])
  {
  }

  /** The voltage command depends on the state only through the calibration record. */
  lemma SupplyVoltageCommandReadsCalibration(s: State, t: State, isNegative: bool, value: real)
    requires Good(s) && Good(t)
    requires s.calibration == t.calibration
    ensures SupplyVoltageCommand(s, isNegative, value) == SupplyVoltageCommand(t, isNegative, value)
  {
  }

  /**
   * The `try` block of `SetSupplyVoltage`: a supply that was on is switched
   * off, given 200 ms, level, given 200 ms and switched on again; a supply that
   * was off is only set. On success its enable shadow is as before.
   */
  lemma AdjustSupplyStepsEffect(s: State, isNegative: bool, value: real)
    requires Good(s)
    ensures var (o, s') := AdjustSupplySteps(s, isNegative, value);
      s'.adjusting == s.adjusting && s'.calibration == s.calibration
    ensures var (o, s') := AdjustSupplySteps(s, isNegative, value);
      o.Pass? ==> (SupplyVoltageCommand(s, isNegative, value).Success? && s'.supplyEnabled == s.supplyEnabled
        && Writes(s'.wire.events) == Writes(s.wire.events) + SupplyAdjustWrites(s, isNegative, value))
  {
    if s.supplyEnabled[Index(isNegative)] {
      AdjustWhileOn(s, isNegative, value);
    } else {
      var built := SupplyVoltageCommand(s, isNegative, value);
      assert AdjustSupplySteps(s, isNegative, value) == SendBuilt(s, built);
      SendBuiltWrites(s, built);
    }
  }

  lemma AdjustWhileOn(s: State, isNegative: bool, value: real)
    requires Good(s)
    requires s.supplyEnabled[Index(isNegative)]
    ensures AdjustSupplySteps(s, isNegative, value).1.adjusting == s.adjusting
    ensures AdjustSupplySteps(s, isNegative, value).1.calibration == s.calibration
    ensures AdjustSupplySteps(s, isNegative, value).0.Pass? ==>
      var built := SupplyVoltageCommand(s, isNegative, value);
      built.Success? && AdjustSupplySteps(s, isNegative, value).1.supplyEnabled == s.supplyEnabled
      && Writes(AdjustSupplySteps(s, isNegative, value).1.wire.events) == Writes(s.wire.events)
        + [Wrote(Frame(SetSupplyEnabledCommand(isNegative, false))), Waited(SupplySettleMs), Wrote(Frame(built.value)),
           Waited(SupplySettleMs), Wrote(Frame(SetSupplyEnabledCommand(isNegative, true)))]
  {
    var built := SupplyVoltageCommand(s, isNegative, value);
    var r1 := SwitchSupply(s, isNegative, false);
    SwitchSupplyEffect(s, isNegative, false);
    if r1.0.Pass? {
      var s2 := Pause(r1.1, SupplySettleMs);
      var r := AdjustTail(s2, isNegative, built);
      assert s2.calibration == s.calibration;
      SupplyVoltageCommandReadsCalibration(s, s2, isNegative, value);
      assert AdjustSupplySteps(s, isNegative, value) == r;
      AdjustTailEffect(s2, isNegative, built);
      if r.0.Pass? {
        PauseWrites(r1.1, SupplySettleMs);
        var off := Wrote(Frame(SetSupplyEnabledCommand(isNegative, false)));
        var tail := [Wrote(Frame(built.value)), Waited(SupplySettleMs), Wrote(Frame(SetSupplyEnabledCommand(isNegative, true)))];
        OffPauseTail(Writes(s.wire.events), Writes(r1.1.wire.events), Writes(s2.wire.events), Writes(r.1.wire.events), off, tail);
      }
    }
  }

  lemma AdjustTailEffect(s: State, isNegative: bool, built: Result<Command, Fault>)
    requires Good(s)
    ensures var (o, s') := AdjustTail(s, isNegative, built);
      s'.adjusting == s.adjusting && s'.calibration == s.calibration
    ensures var (o, s') := AdjustTail(s, isNegative, built);
      o.Pass? ==> (built.Success? && s'.supplyEnabled == s.supplyEnabled[Index(isNegative) := true]
        && Writes(s'.wire.events) == Writes(s.wire.events)
          + [Wrote(Frame(built.value)), Waited(SupplySettleMs), Wrote(Frame(SetSupplyEnabledCommand(isNegative, true)))])
  {
    var (o3, s3) := SendBuilt(s, built);
    SendBuiltWrites(s, built);
    if o3.Pass? {
      var s4 := Pause(s3, SupplySettleMs);
      PauseWrites(s3, SupplySettleMs);
      SwitchSupplyEffect(s4, isNegative, true);
      var s5 := SwitchSupply(s4, isNegative, true).1;
      if SwitchSupply(s4, isNegative, true).0.Pass? {
        var on := Wrote(Frame(SetSupplyEnabledCommand(isNegative, true)));
        AroundPause(Writes(s.wire.events), Writes(s3.wire.events), Writes(s4.wire.events), Writes(s5.wire.events),
          Wrote(Frame(built.value)), on);
      }
    }
  }

  /** What a voltage adjustment that succeeds puts on the cable. */
  function SupplyAdjustWrites(s: State, isNegative: bool, value: real): seq<Event>
    requires Good(s)
    requires SupplyVoltageCommand(s, isNegative, value).Success?
  {
    SupplyVoltageCommandLayout(s, isNegative, value);
    var level := Wrote(Frame(SupplyVoltageCommand(s, isNegative, value).value));
    if s.supplyEnabled[Index(isNegative)] then
      [Wrote(Frame(SetSupplyEnabledCommand(isNegative, false))), Waited(SupplySettleMs), level,
       Waited(SupplySettleMs), Wrote(Frame(SetSupplyEnabledCommand(isNegative, true)))]
    else [level]
  }

  /**
   * `SetSupplyVoltage`: refused while another adjustment is in progress,
   * without any I/O; otherwise the in-progress flag is cleared however the
   * adjustment ends.
   */
  lemma AdjustSupplyEffect(s: State, isNegative: bool, value: real)
    requires Good(s)
    ensures s.adjusting ==> AdjustSupply(s, isNegative, value) == (Fail(SupplyAdjusting), s)
    ensures !s.adjusting ==> !AdjustSupply(s, isNegative, value).1.adjusting
    ensures var (o, s') := AdjustSupply(s, isNegative, value);
      o.Pass? ==> (SupplyVoltageCommand(s, isNegative, value).Success? && s'.supplyEnabled == s.supplyEnabled
        && Writes(s'.wire.events) == Writes(s.wire.events) + SupplyAdjustWrites(s, isNegative, value))
  {
    if !s.adjusting {
      var t := s.(adjusting := true);
      AdjustSupplyStepsEffect(t, isNegative, value);
      assert SupplyVoltageCommand(t, isNegative, value) == SupplyVoltageCommand(s, isNegative, value);
      if SupplyVoltageCommand(s, isNegative, value).Success? {
        assert SupplyAdjustWrites(t, isNegative, value) == SupplyAdjustWrites(s, isNegative, value);
      }
    }
  }

  /** A driver call that is neither a write nor a pause is invisible on the cable and keeps the handle. */
  lemma GuardedSilent(w: Wire, e: Event)
    requires !e.Wrote? && !e.Waited?
    ensures Writes(Guarded(w, e).1.events) == Writes(w.events)
    ensures Guarded(w, e).1.open == w.open
    ensures Guarded(w, e).0 == FtOk ==> w.open
  {
    if w.open {
      WritesSkip(w.events, e);
    }
  }

  /** The setup calls of a connection are invisible on the cable; a good timeouts status means the handle is open. */
  lemma SetupSilent(w: Wire, serial: string)
    ensures Writes(Setup(w, serial).1.events) == Writes(w.events)
    ensures Setup(w, serial).0 == FtOk ==> Setup(w, serial).1.open
  {
    var w1 := OpenStep(w, serial).1;
    var (a, wa) := Call(w, Opened(serial));
    WritesSkip(w.events, Opened(serial));
    if a.status == FtOk {
      WritesSkip(wa.events, BaudRateSet(9600));
    }
    assert Writes(w1.events) == Writes(w.events);
    var w2 := Guarded(w1, BitModeSet(0x00, 0x40)).1;
    GuardedSilent(w1, BitModeSet(0x00, 0x40));
    var w3 := Guarded(w2, TimeoutsSet(1500, 500)).1;
    GuardedSilent(w2, TimeoutsSet(1500, 500));
    GuardedSilent(w3, BaudRateSet(1152000));
  }

  /**
   * `InitializeDevice`: both supplies are switched off, positive first; on
   * success both shadows say off. Only the wire and the supply shadow change.
   */
  lemma InitializeEffect(s: State)
    requires Good(s)
    ensures Initialize(s).1 == s.(wire := Initialize(s).1.wire, supplyEnabled := Initialize(s).1.supplyEnabled)
    ensures Initialize(s).1.wire.open == s.wire.open
    ensures Initialize(s).0.Pass? ==> (Initialize(s).1.supplyEnabled == [false, false]
      && Writes(Initialize(s).1.wire.events) == Writes(s.wire.events)
        + [Wrote(Frame(SetSupplyEnabledCommand(false, false))), Wrote(Frame(SetSupplyEnabledCommand(true, false)))])
  {
    var r1 := SwitchSupply(s, false, false);
    SwitchSupplyEffect(s, false, false);
    if r1.0.Pass? {
      SwitchSupplyEffect(r1.1, true, false);
      var r2 := SwitchSupply(r1.1, true, false);
      if r2.0.Pass? {
        Then(Writes(s.wire.events), Writes(r1.1.wire.events), Writes(r2.1.wire.events),
          [Wrote(Frame(SetSupplyEnabledCommand(false, false)))], [Wrote(Frame(SetSupplyEnabledCommand(true, false)))]);
      }
    }
  }

  lemma OneThenTwo(w0: seq<Event>, w1: seq<Event>, w2: seq<Event>, a: Event, rest: seq<Event>)
    requires w1 == w0 + [a]
    requires w2 == w1 + rest
    requires |rest| == 2
    ensures w2 == w0 + [a, rest[0], rest[1]]
  {
    assert rest == [rest[0], rest[1]];
  }

  /**
   * The `try` block of `ConnectToDevice`: it fails on a bad timeouts status
   * before any frame; it records the serial number only with an open handle;
   * on success the calibration record is bytes 1 to 14 of the 17-byte reply
   * the library delivered, both supplies are off, and the cable saw the
   * calibration request, then the two supply-off frames.
   */
  lemma ConnectStepsEffect(s: State, serial: string)
    requires Good(s)
    ensures var (o, s') := ConnectSteps(s, serial);
      s'.currentDevice == s.currentDevice || (s'.currentDevice == serial && s'.wire.open)
    ensures Setup(s.wire, serial).0 != FtOk ==>
      ConnectSteps(s, serial) == (Fail(Driver(Setup(s.wire, serial).0)), s.(wire := Setup(s.wire, serial).1))
    ensures var (o, s') := ConnectSteps(s, serial);
      o.Pass? ==> (s'.wire.open && s'.currentDevice == serial && s'.calibration.Some? && s'.supplyEnabled == [false, false]
        && Writes(s'.wire.events) == Writes(s.wire.events)
          + [Wrote(Frame(GetCalibrationCommand)), Wrote(Frame(SetSupplyEnabledCommand(false, false))),
             Wrote(Frame(SetSupplyEnabledCommand(true, false)))])
    ensures var (o, s') := ConnectSteps(s, serial);
      o.Pass? ==> s'.calibration == Some(Fill(NthAnswer(Setup(s.wire, serial).1, 2).data, 17)[1..15])
  {
    var (error, w4) := Setup(s.wire, serial);
    SetupSilent(s.wire, serial);
    if error == FtOk {
      var s4 := s.(wire := w4, currentDevice := serial);
      var sent := Send(s4, GetCalibrationCommand);
      ExchangeReply(w4, GetCalibrationCommand);
      ExchangeSucceeds(w4, GetCalibrationCommand);
      ExchangeWrites(w4, GetCalibrationCommand);
      if sent.0.Success? {
        var s6 := sent.1.(calibration := Some(sent.0.value.value[1..15]));
        assert ConnectSteps(s, serial) == Initialize(s6);
        InitializeEffect(s6);
        if Initialize(s6).0.Pass? {
          OneThenTwo(Writes(s.wire.events), Writes(s6.wire.events), Writes(Initialize(s6).1.wire.events),
            Wrote(Frame(GetCalibrationCommand)),
            [Wrote(Frame(SetSupplyEnabledCommand(false, false))), Wrote(Frame(SetSupplyEnabledCommand(true, false)))]);
        }
      }
    }
  }

  /**
   * `DisconnectFromDevice`: nothing happens without a handle; with one, the
   * driver is asked to close it, the handle is cleared only if it reports
   * success, and the serial number is forgotten either way.
   */
  lemma DisconnectEffect(s: State)
    requires Good(s)
    ensures !s.wire.open ==> Disconnect(s) == s
    ensures s.wire.open ==> (Disconnect(s).wire.events == s.wire.events + [Closed]
      && Disconnect(s).currentDevice == ""
      && (Disconnect(s).wire.open <==> NthAnswer(s.wire, 0).status != FtOk)
      && Disconnect(s) == s.(wire := Disconnect(s).wire, currentDevice := ""))
  {
  }

  /**
   * `ConnectToDevice`: an open handle is refused without any I/O; otherwise
   * the outcome is that of the `try` block, so a failure is rethrown as it
   * was raised; a success keeps the calibration bytes the library delivered;
   * after a failure no handle is left open unless closing it was attempted
   * last, and the new serial number is not kept.
   */
  lemma ConnectEffect(s: State, serial: string)
    requires Good(s)
    ensures s.wire.open ==> Connect(s, serial) == (Fail(DeviceAlreadyOpen), s)
    ensures var (o, s') := Connect(s, serial);
      o.Pass? ==> (!s.wire.open && s'.wire.open && s'.currentDevice == serial && s'.calibration.Some?
        && s'.supplyEnabled == [false, false]
        && s'.calibration == Some(Fill(NthAnswer(Setup(s.wire, serial).1, 2).data, 17)[1..15]))
    ensures !s.wire.open ==> Connect(s, serial).0 == ConnectSteps(s, serial).0
    ensures var (o, s') := Connect(s, serial);
      o.Fail? && !s.wire.open ==> (!s'.wire.open || (|s'.wire.events| > 0 && s'.wire.events[|s'.wire.events| - 1] == Closed))
    ensures var (o, s') := Connect(s, serial);
      o.Fail? ==> (s'.currentDevice == "" || s'.currentDevice == s.currentDevice)
  {
    if !s.wire.open {
      ConnectStepsEffect(s, serial);
      var (o, s1) := ConnectSteps(s, serial);
      DisconnectEffect(s1);
    }
  }
}
