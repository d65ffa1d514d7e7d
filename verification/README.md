# RainDrop instrument core in Dafny

This project models the core of RainDropWeb. RainDropWeb drives a RainDrop USB
instrument: a two-channel oscilloscope, a two-channel wave generator and a
dual-polarity power supply. It talks to the instrument through an FTDI serial
driver. The model covers four parts:

- **Hex** (`hex.dfy`): `Helper.ToByteArray` and the lowercase fixed-width hex
  rendering (`x2`, `x4`, `x8`) that every command string is built from.
- **Setpoints**, **Protocol** and **Commands** (`setpoints.dfy`,
  `protocol.dfy`, `commands.dfy`): every command class under `Protocol/`, as
  one `Command` datatype.
  - `Text` is the command string as the classes build it. `Frame` is the same
    command written as an independent byte layout.
  - `TextIsFrame` proves the two agree.
  - The `New…` functions are the constructors that validate their arguments.
    Their contracts say where each set-point code sits in the frame and what
    range it stays in.
  - The `float` formulas are evaluated over `real`, and the casts truncate
    toward zero.
- **Transport**, **DeviceModel** and **Device** (`transport.dfy`,
  `device_model.dfy`, `device.dfy`): the `RainDrop` orchestrator.
  - `Transport.Ftdi` is the driver wrapper. The vendor library behind it is a
    script of answers given at construction. Every call that reaches the
    library is appended to a ghost log of events.
  - `DeviceModel` gives each public operation as a function from the object's
    state to an outcome and a next state.
  - `Device.RainDrop` is a class with the object's fields. The three shadow
    tables are `array<bool>`, and the calibration record, data-point count,
    serial number and flags are fields. Each method is proved to change the
    state exactly as its `DeviceModel` function says.
  - The `…Effect` and `…Order` lemmas state what an operation promises. That
    covers: which errors come before any I/O, which shadow values change and
    when, and which frames go out in which order. `Writes` projects the event
    log onto the frames written and the pauses taken.
- **Engineering** (`engineering.dfy`): `EngineeringValue.To` and
  `EngineeringValue.From` from the front end. They write a number with an SI
  prefix letter and read it back.

Exceptions become `Failure`/`Fail` values of the `Fault` datatype, one
constructor per cause. A failed operation returns the state as it stood when
the exception was thrown.

On these points the model follows the code:

- The set-point codes are truncated toward zero (C# casts); they are not
  rounded.
- In the wave-generator frames, the channel byte comes right after the
  sub-function, before the payload.
- `SetOscilloscopeChannelRange` and `SetOscilloscopeDataPointsCount` update
  their shadow value before the exchange, so the new value is kept even when
  the exchange fails.
- A connection does not replay the shadow state to the instrument.
- The wave-generator calibration bytes are used as the code indexes them:
  offset at 0 (channel 1) and 2 (channel 2), amplitude at 1 and 3
  (`RainDrop.cs:248-250`). The field's comment (`RainDrop.cs:33`) gives a
  different layout.

C# leaves one thing to the runtime: a `float` cast to `uint` when the value is
outside the `uint` range. The model takes the saturating conversion of .NET 9
and later and of Arm64 (`Setpoints.SaturateU32`) for every such cast: the
wave-generator frequency, amplitude and offset codes. x64 runtimes before
.NET 9 wrap modulo 2^32 instead; where that differs is listed under
"## Left out", and its worst case under "## Findings".

## Model

| member | source | states |
|---|---|---|
| Hex.ToByteArray | Helper.cs:7-17 | The loop's result is `ParseHex`: an odd length fails with `OddLengthHex`, a non-hex character with `BadHexDigit`, and otherwise byte `i` is the value of characters `2i` and `2i+1` |
| Hex.ParseHex | Helper.cs:7-17 | Succeeds exactly for an even-length string of hex digits, with half as many bytes as characters; an odd length is reported before a bad digit |
| Hex.DigitValue | Helper.cs:14 | A hex digit's value is below 16, and it is below 10 exactly for `0`-`9` |
| Hex.LowerDigit | Protocol/OscilloscopeCommand.cs:137 | The digit `ToString("x")` prints for a value below 16 is a lowercase hex digit that reads back as that value |
| Hex.HexDigits | Protocol/SupplyCommand.cs:31 | `ToString("x<n>")` yields exactly `n` characters |
| Hex.HexOfConcat | Protocol/BaseCommand.cs:7 | Rendering concatenated bytes is concatenating their renderings |
| Hex.HexDigitsAreBytes | Protocol/OscilloscopeCommand.cs:51 | `2n` hex digits of a number are the rendering of its `n` big-endian bytes |
| Hex.ParseHexOfHex | Helper.cs:7-17 | Parsing the lowercase rendering of any bytes gives back exactly those bytes |
| Hex.BigEndianRoundTrip | Protocol/WaveGeneratorCommand.cs:56 | Reading `n` big-endian bytes of `x` back gives `x` whenever `x < 256^n` |
| Setpoints.Trunc | Protocol/OscilloscopeCommand.cs:188 | The `(int)` cast truncates toward zero, for positive and negative values |
| Setpoints.WrapU32 | Protocol/WaveGeneratorCommand.cs:56 | The `(uint)` cast of x64 runtimes before .NET 9 keeps in-range values and maps `2^32` to 0; the model uses it only for the as-written half of the finding |
| Setpoints.SaturateU32 | Protocol/WaveGeneratorCommand.cs:56 | The `(uint)` cast of .NET 9 and later and Arm64, used for every wave-generator code: in-range values are kept, negative values give 0, and values of `2^32` and above give `FFFFFFFF` |
| Setpoints.SamplingTicks | Protocol/OscilloscopeCommand.cs:42-51 | For 1 Hz to 40 MHz the tick count lies in [1, 40 000 000]; 40 MHz gives 1 tick and 1 Hz gives 40 000 000 |
| Setpoints.TriggerLevelCode | Protocol/OscilloscopeCommand.cs:181-189 | For any level within ±range the code is in [0, 4096], 2048 for 0 V, 4096 at +range and 0 at -range |
| Setpoints.SupplyCode | Protocol/SupplyCommand.cs:13-28 | For any voltage the constructor accepts and any calibration byte, the `short` code lies in [-33, 1937] |
| Setpoints.SupplyCodeMonotonic | Protocol/SupplyCommand.cs:26-27 | The positive channel's code falls as the voltage rises; the negative channel's rises |
| Setpoints.WaveFrequencyCodeAsWritten | Protocol/WaveGeneratorCommand.cs:51-57 | The `(uint)` code as written; below 40 MHz it is the truncated `f * 2^32 / 40e6` |
| Setpoints.FortyMegahertzWrapsToZero | Protocol/WaveGeneratorCommand.cs:53-56 | 40 MHz passes the range check, but its code `2^32` wraps to 0, the code of 0 Hz |
| Setpoints.WaveFrequencyCode | Protocol/WaveGeneratorCommand.cs:51-57 | The code under the saturating cast, which is also the corrected code: equal to the x64 as-written code below 40 MHz, and `FFFFFFFF` at 40 MHz |
| Setpoints.WaveFrequencyCodeMonotonic | Protocol/WaveGeneratorCommand.cs:53-56 | Over the whole accepted range, a higher frequency never gets a lower corrected code |
| Setpoints.AmplitudeCode | Protocol/WaveGeneratorCommand.cs:66-68 | Wherever the amplitude level fits in 32 bits, the code is that level truncated toward zero; a negative or zero amplitude gives 0 |
| Setpoints.AmplitudeCodeFullScale | Protocol/WaveGeneratorCommand.cs:66-69 | Any amplitude from 0 to 5 V, with any calibration byte, has a code within 0..16383, and 0 V has code 0 |
| Setpoints.OffsetCode | Protocol/WaveGeneratorCommand.cs:78-84 | Wherever the offset level fits in 32 bits, the code is that level truncated toward zero; a negative level gives 0 |
| Setpoints.OffsetCodeMonotonic | Protocol/WaveGeneratorCommand.cs:78-85 | For any amplitude and calibration, a higher offset never gets a lower offset code |
| Setpoints.SymmetryCode | Protocol/WaveGeneratorCommand.cs:94-100 | The byte is `symmetry * 255` truncated toward zero; it is 255 exactly for a symmetry of 1, and 0 for a symmetry of 0 |
| Protocol.BufferSizeCode | Protocol/OscilloscopeCommand.cs:58-67 | The size byte `log2(size) - 5` is at most 6, and `2^(code+5)` is the size |
| Protocol.Text | Protocol/BaseCommand.cs:7-11 | Reading a command string throws `NotImplemented` for the trigger-type command and succeeds for every other |
| Protocol.ToBytes | Protocol/BaseCommand.cs:14-17 | The `byte[]` conversion succeeds exactly for the commands with a frame and otherwise fails with `NotImplemented` |
| Protocol.BytesToReceive | Protocol/BaseCommand.cs:5 | The reply length fits a `uint`, and only oscilloscope and calibration commands expect one |
| Protocol.TextIsFrame | Protocol/BaseCommand.cs:3-17 | For every command with a string, the string is the lowercase rendering of its frame |
| Protocol.CalibrationRendersFrame | Protocol/CalibrationCommand.cs:3-12 | The get-calibration string renders its frame `AA FF 06 01` |
| Protocol.ChannelStateRendersFrame | Protocol/OscilloscopeCommand.cs:10-23 | The channel-state string renders its frame |
| Protocol.ChannelRangeRendersFrame | Protocol/OscilloscopeCommand.cs:25-38 | The channel-range string renders its frame |
| Protocol.SamplingRendersFrame | Protocol/OscilloscopeCommand.cs:40-52 | The sampling string renders its frame, with the ticks as 4 big-endian bytes |
| Protocol.BufferSizeRendersFrame | Protocol/OscilloscopeCommand.cs:54-68 | The buffer-size string renders its frame |
| Protocol.RunningRendersFrame | Protocol/OscilloscopeCommand.cs:70-81 | The running string renders its frame |
| Protocol.StatusRendersFrame | Protocol/OscilloscopeCommand.cs:83-87 | The get-status string renders its frame |
| Protocol.StopStatusRendersFrame | Protocol/OscilloscopeCommand.cs:89-92 | The stop-status string renders its frame |
| Protocol.ReadDataRendersFrame | Protocol/OscilloscopeCommand.cs:94-107 | The read-data string renders its frame, `01` for channel A and `02` for channel B |
| Protocol.TriggerTimeoutRendersFrame | Protocol/OscilloscopeCommand.cs:109-125 | The trigger-timeout string renders its frame |
| Protocol.TriggerSourceRendersFrame | Protocol/OscilloscopeCommand.cs:127-138 | The trigger-source string renders its frame |
| Protocol.TriggerLevelRendersFrame | Protocol/OscilloscopeCommand.cs:177-193 | The trigger-level string renders its frame, with the level as 2 big-endian bytes |
| Protocol.TriggerConditionRendersFrame | Protocol/OscilloscopeCommand.cs:195-206 | The trigger-condition string renders its frame |
| Protocol.SupplyVoltageRendersFrame | Protocol/SupplyCommand.cs:8-32 | The supply-voltage string renders its frame, with the code in 16-bit two's complement |
| Protocol.SupplyEnabledRendersFrame | Protocol/SupplyCommand.cs:34-47 | The supply-enable string renders its frame |
| Protocol.WaveFunctionRendersFrame | Protocol/WaveGeneratorCommand.cs:35-45 | The wave-function string renders its frame |
| Protocol.WaveFrequencyRendersFrame | Protocol/WaveGeneratorCommand.cs:47-60 | The wave-frequency string renders its frame |
| Protocol.WaveAmplitudeRendersFrame | Protocol/WaveGeneratorCommand.cs:62-72 | The wave-amplitude string renders its frame |
| Protocol.WaveOffsetRendersFrame | Protocol/WaveGeneratorCommand.cs:74-88 | The wave-offset string renders its frame |
| Protocol.WaveSymmetryRendersFrame | Protocol/WaveGeneratorCommand.cs:90-103 | The wave-symmetry string renders its frame |
| Protocol.WavePhaseRendersFrame | Protocol/WaveGeneratorCommand.cs:105-115 | The wave-phase string renders its frame |
| Protocol.WaveEnabledRendersFrame | Protocol/WaveGeneratorCommand.cs:117-127 | The wave-enable string renders its frame |
| Commands.CommandBytes | Protocol/BaseCommand.cs:14-17 | The `byte[]` conversion yields the command's frame, or `NotImplemented` for the one command without a string |
| Commands.ToBytesIsFrame | Protocol/OscilloscopeCommand.cs:164-166 | Conversion succeeds exactly for commands with a frame and yields it; the string is twice the frame's length; the trigger-type command throws |
| Commands.FramePrefix | Protocol/BaseCommand.cs:7 | Every frame starts `AA FF`, then its subsystem; byte 2 is `06` exactly for get-calibration |
| Commands.WaveGeneratorHeader | Protocol/WaveGeneratorCommand.cs:16 | In every wave-generator frame, byte 4 is the channel |
| Commands.ResponseLengths | Protocol/BaseCommand.cs:5 | Only get-calibration (17), get-status and read-data expect a reply; read-data expects `2 * samples`; wave, supply and trigger commands expect none |
| Commands.Signed16 | Protocol/SupplyCommand.cs:26-31 | Two bytes read as a `short`: the value lies in [-32768, 32767], is negative exactly when the top bit is set, and agrees with the bytes modulo 2^16 |
| Commands.TwosComplementRoundTrip | Protocol/SupplyCommand.cs:30-31 | A signed 16-bit code written as `x4` reads back as itself in two's complement |
| Commands.NewBufferSize | Protocol/OscilloscopeCommand.cs:58-67 | Succeeds exactly for the seven powers of two from 32 to 2048; the fifth byte `c` satisfies `2^(c+5) = size` |
| Commands.NewSamplingFrequency | Protocol/OscilloscopeCommand.cs:45-51 | The frame is `AA FF 01 05` and 4 bytes whose big-endian value is the tick count, within [1, 40 000 000] |
| Commands.SamplingFrameCarries | Protocol/OscilloscopeCommand.cs:50-51 | A non-negative tick count reads back from the sampling frame's last 4 bytes |
| Commands.NewTriggerLevel | Protocol/OscilloscopeCommand.cs:181-192 | Succeeds exactly within ±range; the frame is `AA FF 04 03` and the level code, at most 4096 |
| Commands.NewSupplyVoltage | Protocol/SupplyCommand.cs:13-31 | Succeeds exactly within the polarity's range; the frame is `AA FF 03`, the polarity, `00 00` and the signed code |
| Commands.SupplyEnabledLayout | Protocol/SupplyCommand.cs:39-46 | The last byte carries the polarity in bit 1 and the enable flag in bit 0 |
| Commands.NewWaveFrequency | Protocol/WaveGeneratorCommand.cs:51-59 | Succeeds exactly for 0 to 40 MHz; the code sits big-endian between the header and `FF`; below 40 MHz it is the as-written code, and at 40 MHz the saturated `FFFFFFFF` |
| Commands.WordFieldRoundTrip | Protocol/WaveGeneratorCommand.cs:56-59 | A 32-bit field between a wave header and `FF` reads back as the code written |
| Commands.NewWaveAmplitude | Protocol/WaveGeneratorCommand.cs:66-71 | No check; the amplitude code sits between the header and `FF` |
| Commands.NewWaveOffset | Protocol/WaveGeneratorCommand.cs:78-87 | No check; the offset code ends the frame, with no `FF` |
| Commands.NewWaveSymmetry | Protocol/WaveGeneratorCommand.cs:94-102 | Succeeds exactly within [0, 1]; the payload byte is `SymmetryCode(symmetry)`, which is `FF` exactly for a symmetry of 1 |
| Commands.PhaseIgnored | Protocol/WaveGeneratorCommand.cs:109-114 | The phase frame carries four zero bytes, whatever phase is asked for |
| Commands.WaveFunctionLayout | Protocol/WaveGeneratorCommand.cs:19-44 | The function frame is the header, the enum value and `FF`; `Play` is `1F` and the other values are at most 10 |
| Transport.Fill | Driver/FTD2XX_NET.cs:1205-1215 | The read buffer always has the requested length; it starts with the bytes delivered and is zero after them |
| Transport.ClosedWrapperIsSilent | Driver/FTD2XX_NET.cs:1372-1380 | Without a handle, purge, setup calls, write and read return `FtOtherError` and leave the wrapper unchanged |
| Transport.HandleLifecycle | Driver/FTD2XX_NET.cs:1065-1192 | A successful close clears the handle and a failed one keeps it; an open leaves a handle exactly when the library reports success |
| Transport.Ftdi.constructor | Driver/FTD2XX_NET.cs:21-25 | A new wrapper has no handle and no calls logged |
| Transport.Ftdi.IsOpen | Driver/FTD2XX_NET.cs:2378 | True exactly when a handle is held |
| Transport.Ftdi.OpenBySerialNumber | Driver/FTD2XX_NET.cs:1065-1092 | Opens; on failure the handle is cleared, on success the status is that of setting 9600 baud |
| Transport.Ftdi.SetBitMode | Driver/FTD2XX_NET.cs:1566-1688 | `FtOtherError` without a handle, else the library's status |
| Transport.Ftdi.SetTimeouts | Driver/FTD2XX_NET.cs:2075-2083 | `FtOtherError` without a handle, else the library's status |
| Transport.Ftdi.SetBaudRate | Driver/FTD2XX_NET.cs:1950-1958 | `FtOtherError` without a handle, else the library's status |
| Transport.Ftdi.Purge | Driver/FTD2XX_NET.cs:1372-1380 | `FtOtherError` without a handle, else the library's status |
| Transport.Ftdi.Write | Driver/FTD2XX_NET.cs:1261-1271 | `FtOtherError` and 0 bytes without a handle, else the library's status and count |
| Transport.Ftdi.Read | Driver/FTD2XX_NET.cs:1205-1215 | A buffer of the requested length; `FtOtherError` and 0 without a handle |
| Transport.Ftdi.Close | Driver/FTD2XX_NET.cs:1183-1192 | Calls the library and clears the handle only on success |
| DeviceModel.Initial | RainDrop.cs:22-48 | The state of a new object is well-formed: two-entry shadows, a 14-byte calibration record if any, and a valid buffer size |
| DeviceModel.ExchangeReply | RainDrop.cs:268-305 | An exchange keeps the handle and fails only with an I/O fault; on success a reply comes back exactly when one is expected, of exactly the expected length |
| DeviceModel.ExchangeNeedsOpenDevice | RainDrop.cs:275 | Without a handle an exchange fails with `DeviceNotOpen` before any driver call |
| DeviceModel.ExchangeEvents | RainDrop.cs:277-291 | With a handle: purge, then the write of the frame, then a read only after a complete write and only when a reply is expected |
| DeviceModel.ExchangeSucceeds | RainDrop.cs:279-299 | An exchange succeeds exactly when the handle is open, the frame exists and was fully written, and any expected reply was fully read; the reply is the bytes delivered |
| DeviceModel.ExchangeWrites | RainDrop.cs:277-280 | A successful exchange adds exactly its frame to what was written; a failed one at most that |
| DeviceModel.TransferReply | RainDrop.cs:280-299 | The write-and-read step keeps the handle and returns a reply of exactly the expected length, only when one is expected |
| DeviceModel.TransferEvents | RainDrop.cs:280-291 | The write-and-read step writes the bytes, then reads only after a full write when a reply is expected |
| DeviceModel.TransferSucceeds | RainDrop.cs:282-299 | The write-and-read step succeeds exactly when the write is complete with `FtOk` and any read delivers the expected count |
| DeviceModel.PauseWrites | RainDrop.cs:219 | A settle delay appears in the observable sequence, after what came before |
| DeviceModel.SendOnlyWrites | RainDrop.cs:268-305 | A successful single-command operation adds its frame to what was written and keeps the handle |
| DeviceModel.SendAllWrites | RainDrop.cs:130-138 | A sequence of sends succeeds only if every command was built; then their frames went out in order |
| DeviceModel.EnableChannelEffect | RainDrop.cs:104-108 | The enable shadow takes the new value only after the frame `AA FF 01 07 ch en` was accepted; the other channel is untouched; without a handle nothing changes |
| DeviceModel.SelectRangeEffect | RainDrop.cs:110-117 | Ranges other than 5 and 25 are refused before I/O; an accepted range is recorded before the exchange; success writes `AA FF 01 04 ch r` |
| DeviceModel.SetSamplingEffect | RainDrop.cs:119-125 | Outside 1 Hz to 40 MHz it is refused before I/O; success writes one frame carrying the tick count; only the wire changes |
| DeviceModel.ArmTriggerOrder | RainDrop.cs:127-139 | On success the level was within range and exactly four frames went out: timeout, source, level, condition; the level is scaled to the source channel's range |
| DeviceModel.ResizeBufferEffect | RainDrop.cs:141-149 | Counts other than the seven powers of two are refused before I/O; an accepted count is stored before the exchange; success writes the size code |
| DeviceModel.SetRunEffect | RainDrop.cs:151-155 | The running flag follows only an accepted `AA FF 01 08 en` |
| DeviceModel.ArmTriggerRejectedLevel | RainDrop.cs:127-139 | A level outside the range fails the call, but only after the timeout and source frames went out; the condition frame is never sent |
| DeviceModel.QueryStatusOrder | RainDrop.cs:157-162 | Success means the status frame and then the stop-status frame went out, and the result is byte 3 of the 4-byte status reply; a failed status exchange stops there |
| DeviceModel.CalibrationLayout | RainDrop.cs:32-42 | The four wave bytes, two supply bytes and eight input bytes of the calibration record are distinct, and no two settings share a byte |
| DeviceModel.InputCalIndex | RainDrop.cs:179-190 | Every analog-input calibration byte lies at index 6 to 13 |
| DeviceModel.InputGainSign | RainDrop.cs:183-189 | The full-scale amplitude is never 0, and it is negative exactly on channel B's 25 V path |
| DeviceModel.SampleWord | RainDrop.cs:194-196 | Sample `i` is the gain times (the big-endian word at bytes `2i`, `2i+1`, minus 2048, plus the offset) over 2048 |
| DeviceModel.ReadChannelEffect | RainDrop.cs:173-199 | Without calibration it fails before I/O; otherwise a success returns `dataPoints` samples decoded from the bytes delivered; failures are I/O faults; only the wire changes |
| DeviceModel.ReadChannelsEffect | RainDrop.cs:164-171 | `ChannelUnavailable` exactly when both channels are disabled; otherwise each enabled channel, and only those, yields `dataPoints` samples |
| DeviceModel.SwitchSupplyEffect | RainDrop.cs:201-205 | The supply shadow follows only an accepted enable frame; the other polarity is untouched |
| DeviceModel.SupplyVoltageCommandLayout | RainDrop.cs:222 | The voltage command is built exactly when calibration exists and the voltage is in range, using calibration byte 4 (positive) or 5 (negative) |
| DeviceModel.SupplyVoltageCommandReadsCalibration | RainDrop.cs:222 | The voltage command depends on the state only through the calibration record |
| DeviceModel.AdjustSupplyStepsEffect | RainDrop.cs:213-229 | On success, a supply that was on went off, waited 200 ms, was set, waited 200 ms and came back on; a supply that was off was only set |
| DeviceModel.AdjustWhileOn | RainDrop.cs:215-228 | The adjustment of a supply that is on writes off, pause, level, pause, on, and leaves the shadow as before |
| DeviceModel.AdjustTailEffect | RainDrop.cs:222-228 | After the switch-off: the level frame, a pause, then the switch-on, and the shadow says on |
| DeviceModel.AdjustSupplyEffect | RainDrop.cs:207-234 | A call during an adjustment is refused without I/O; otherwise the in-progress flag is cleared however it ends, and success writes the sequence above |
| DeviceModel.TuneWaveFrequencyEffect | RainDrop.cs:241-244 | Outside 0 to 40 MHz it is refused before I/O; success writes one frame carrying the frequency code, which below 40 MHz is the as-written code |
| DeviceModel.WaveCalIndex | RainDrop.cs:248-250 | The wave-generator calibration bytes lie at indexes 0 to 3 |
| DeviceModel.SetWaveLevelsOrder | RainDrop.cs:246-251 | Without calibration nothing is sent; success writes the amplitude frame, then the offset frame, built from the channel's calibration bytes |
| DeviceModel.ShapeWaveSymmetryEffect | RainDrop.cs:253-256 | Outside [0, 1] it is refused before I/O; success writes one symmetry frame whose payload is the truncated `symmetry * 255` |
| DeviceModel.GuardedSilent | Driver/FTD2XX_NET.cs:1372-1380 | A guarded driver call writes nothing and keeps the handle; `FtOk` implies a handle was held |
| DeviceModel.SetupSilent | RainDrop.cs:71-74 | The connection setup calls write nothing; a good timeouts status means the handle is open |
| DeviceModel.InitializeEffect | RainDrop.cs:90-94 | Positive supply off, then negative; on success both shadows say off; only the wire and the supply shadow change |
| DeviceModel.ConnectStepsEffect | RainDrop.cs:69-82 | A bad timeouts status fails before any frame; the serial number is kept only with a handle; success stores bytes 1..14 of the 17-byte calibration reply, then turns both supplies off |
| DeviceModel.DisconnectEffect | RainDrop.cs:96-102 | Without a handle nothing happens; with one, close is called, the handle is cleared only if it succeeded, and the serial number is forgotten |
| DeviceModel.ConnectEffect | RainDrop.cs:65-88 | An open handle is refused without I/O; otherwise the outcome is the `try` block's, so its exception is rethrown unchanged; success leaves a handle, the serial number and bytes 1..14 of the calibration reply; after a failure no handle remains unless the last call was a close, and the new serial number is not kept |
| Device.InputCalibration | RainDrop.cs:175-190 | The offset and full-scale amplitude chosen by range and channel are those of `InputOffset` and `InputGain` |
| Device.DecodeSamples | RainDrop.cs:192-198 | The decoding loop yields exactly `Decode`: sample `i` from bytes `2i` and `2i+1` |
| Device.OpenDriver | RainDrop.cs:71-74 | The four setup calls, keeping only the timeouts status |
| Device.Transmit | RainDrop.cs:279-299 | The write, the length checks and the read behave as `Transfer` |
| Device.RainDrop.constructor | RainDrop.cs:22-48 | The fields start as `Initial` says |
| Device.RainDrop.SendCommand | RainDrop.cs:268-305 | Behaves as `Send`: handle check, purge, conversion, write, length checks, read |
| Device.RainDrop.SubmitAll | RainDrop.cs:130-138 | Sends built commands in order and stops at the first failure, as `SendAll` |
| Device.RainDrop.Delay | RainDrop.cs:219 | Records a pause and changes nothing else |
| Device.RainDrop.ConnectToDevice | RainDrop.cs:65-88 | Behaves as `Connect` |
| Device.RainDrop.TryConnect | RainDrop.cs:69-82 | Behaves as `ConnectSteps` |
| Device.RainDrop.InitializeDevice | RainDrop.cs:90-94 | Behaves as `Initialize` |
| Device.RainDrop.DisconnectFromDevice | RainDrop.cs:96-102 | Behaves as `Disconnect` |
| Device.RainDrop.SetOscilloscopeChannelState | RainDrop.cs:104-108 | Behaves as `EnableChannel` |
| Device.RainDrop.SetOscilloscopeChannelRange | RainDrop.cs:110-117 | Behaves as `SelectRange` |
| Device.RainDrop.SetOscilloscopeSamplingFrequency | RainDrop.cs:119-125 | Behaves as `SetSampling` |
| Device.RainDrop.SetOscilloscopeTrigger | RainDrop.cs:127-139 | Behaves as `ArmTrigger` |
| Device.RainDrop.SetOscilloscopeDataPointsCount | RainDrop.cs:141-149 | Behaves as `ResizeBuffer` |
| Device.RainDrop.SetOscilloscopeRunning | RainDrop.cs:151-155 | Behaves as `SetRun` |
| Device.RainDrop.GetDeviceStatus | RainDrop.cs:157-162 | Behaves as `QueryStatus`, returning status byte 3 |
| Device.RainDrop.ReadOscilloscopeData | RainDrop.cs:164-171 | Behaves as `ReadChannels` |
| Device.RainDrop.ReadOscilloscopeChannel | RainDrop.cs:173-199 | Behaves as `ReadChannel` |
| Device.RainDrop.SetSupplyEnabled | RainDrop.cs:201-205 | Behaves as `SwitchSupply` |
| Device.RainDrop.SetSupplyVoltage | RainDrop.cs:207-234 | Behaves as `AdjustSupply` |
| Device.RainDrop.AdjustSupplyVoltage | RainDrop.cs:213-229 | Behaves as `AdjustSupplySteps` |
| Device.RainDrop.SetWaveGeneratorFunction | RainDrop.cs:236-239 | Behaves as `SelectWaveFunction` |
| Device.RainDrop.SetWaveGeneratorFrequency | RainDrop.cs:241-244 | Behaves as `TuneWaveFrequency` |
| Device.RainDrop.SetWaveGeneratorOffsetAndAmplitude | RainDrop.cs:246-251 | Behaves as `SetWaveLevels` |
| Device.RainDrop.SetWaveGeneratorSymmetry | RainDrop.cs:253-256 | Behaves as `ShapeWaveSymmetry` |
| Device.RainDrop.SetWaveGeneratorPhase | RainDrop.cs:258-261 | Behaves as `ShiftWavePhase` |
| Device.RainDrop.SetWaveGeneratorEnabled | RainDrop.cs:263-266 | Behaves as `EnableWave` |
| Engineering.To | wwwroot/js/engineeringValue.js:2-28 | The notation means the value itself; the minus sign is there exactly for negative values; the mantissa is non-negative, below 1000 except with `G`, and at least 1 except with `n` |
| Engineering.ToPicksTheOnlyPrefix | wwwroot/js/engineeringValue.js:7-27 | Any notation of the value whose mantissa is in [1, 1000) is the one `To` returns |
| Engineering.From | wwwroot/js/engineeringValue.js:30-48 | A text ending in a digit or point followed by `m`, `u`, `n`, `k`, `M` or `G` is scaled by that prefix; any other text is the plain number |
| Engineering.RoundTrip | wwwroot/js/engineeringValue.js:2-48 | `From` of the text `To` writes gives back the original value |
| Engineering.FromNeedsNumberBeforeLetter | wwwroot/js/engineeringValue.js:33-47 | A letter not preceded by a digit or a point does not scale |
| Engineering.FromExamples | wwwroot/js/engineeringValue.js:33-44 | Prefix letters are case-sensitive: `m` is milli, `M` is mega, and `K` is no prefix |

The `DeviceModel` functions (`EnableChannel`, `Connect`, `AdjustSupply` and
so on) are the specifications the class methods are proved against. What
each one promises is stated by the lemmas in the table.

## Left out

- `GetDevices` (`RainDrop.cs:50-63`) is not modelled. It only lists the
  serial numbers the vendor library reports, which is foreign code.
- The driver's data-characteristics and flow-control calls inside
  `OpenBySerialNumber` are not modelled. Their statuses are discarded.
- `SetBitMode`'s device-type table, and the exceptions it raises for old chip
  types, are not modelled. The wrapper returns the library's status.
- The vendor library is a script of answers. Timing, short reads that later
  complete, and device disconnection are whatever the script says.
- The mutex in `SendCommand` is not modelled: the model is single-threaded.
  Concurrent callers and the adjusting flag's race are outside it.
- `Task.Delay(200).Wait()` is recorded as a `Waited(200)` event; no time
  passes.
- `float` is modelled as exact `real`. Rounding to single precision, NaN and
  infinities are not modelled. In particular, the guards' `float.NaN` case and
  float-to-double widening in the casts are not represented.
- Engineering.To: the number-to-text conversion of the mantissa is a
  parameter (`digits`) of `Render`. The only assumption about it is that it
  ends in a digit or a point.
- Engineering.From: `parseFloat`'s reading of the leading number is a
  parameter (`parsed`). Its lenient forms (leading spaces, trailing garbage)
  are outside the model.
- Hex.ToByteArray: `Convert.ToByte(_, 16)` also accepts a few exotic
  two-character forms (a `0x` prefix and the like). The model accepts only
  two hex digits, which is all the command strings contain.
- `GetDeviceStatus` returns the raw status byte. The `DeviceStatus` enum cast
  is not modelled.
- Localised exception messages (`Localization.Localize`), the web controllers
  and the program entry point are not part of this model.
- Device.RainDrop.SetOscilloscopeTrigger: the trigger-level command is built
  before the first of the four sends, as part of a list. The source builds it
  between the second and the third send. The difference is not observable:
  building it reads only the range shadow, which no send changes, and a
  failed build happens only after the first two sends in both
  (`DeviceModel.ArmTriggerRejectedLevel`).
- Setpoints.AmplitudeCode, Setpoints.OffsetCode and Setpoints.WaveFrequencyCode
  use the saturating `float`-to-`uint` cast of .NET 9 and later and of Arm64,
  and so do the members built on them: Commands.NewWaveAmplitude,
  Commands.NewWaveOffset, Commands.NewWaveFrequency,
  DeviceModel.TuneWaveFrequencyEffect, DeviceModel.SetWaveLevelsOrder,
  Device.RainDrop.SetWaveGeneratorFrequency and
  Device.RainDrop.SetWaveGeneratorOffsetAndAmplitude. An x64 runtime before
  .NET 9 wraps modulo 2^32 instead. The two differ in three cases, which the
  model does not describe for that runtime:
  - a negative amplitude or offset level: `SetWaveGeneratorOffsetAndAmplitude`
    checks neither, so this is ordinary input. The model sends 0; x64 before
    .NET 9 sends a code near `FFFFFFFF`.
  - a level of 2^32 or more: the model sends `FFFFFFFF`; x64 before .NET 9
    sends the low 32 bits.
  - a frequency of exactly 40 MHz: the model sends `FFFFFFFF`; x64 before
    .NET 9 sends `00000000` (the finding below).
- Device.RainDrop.SetWaveGeneratorOffsetAndAmplitude: both commands are built
  before the first send, for the same reason. Building reads only the
  calibration record.

## Findings

| source | as written | input that shows it | evidently intended | confidence | as-written member | corrected member |
|---|---|---|---|---|---|---|
| Protocol/WaveGeneratorCommand.cs:53-56 | the range check accepts up to 40 MHz inclusive, and the code is `(uint)(f * 2^32 / 40e6)` | `f = 40e6`: the product is exactly `2^32`; C# leaves the cast unspecified, and x64 runtimes before .NET 9 wrap it to 0, the code of 0 Hz (.NET 9 and later, and Arm64, saturate to `FFFFFFFF`, which is the cast the model uses) | the top of the accepted range gets the largest code, `FFFFFFFF`, so the code never falls as the frequency rises | not executed | Setpoints.FortyMegahertzWrapsToZero | Setpoints.WaveFrequencyCodeMonotonic |
