/** Failure-carrying result types shared by every module of the model. */
module Wrappers {

  datatype Option<+T> = None | Some(value: T)

  /** The value of an operation that may throw: `Failure` stands for the exception. */
  datatype Result<+T, +E> = Success(value: T) | Failure(error: E)

  /** The outcome of a `void` operation that may throw. */
  datatype Outcome<+E> = Pass | Fail(error: E)
}

/**
 * The statuses returned by the FTDI driver wrapper and the exceptions the
 * instrument layer throws, one constructor per distinct cause.
 */
module Faults {

  /** `Ftdi.FtStatus` (Driver/FTD2XX_NET.cs): `FtOk` or one of the driver's error codes. */
  datatype FtStatus = FtOk | FtOtherError | FtFailure(code: nat)

  datatype Fault =
    | OddLengthHex                  // ArgumentException from Helper.ToByteArray
    | BadHexDigit                   // FormatException from Convert.ToByte(_, 16)
    | OutOfRange(param: string)     // ArgumentOutOfRangeException(nameof(param))
    | NotImplemented                // SetOscilloscopeTriggerTypeCommand.Command
    | DeviceAlreadyOpen             // InvalidOperationException, ConnectToDevice
    | DeviceNotOpen                 // InvalidOperationException, SendCommand
    | ChannelUnavailable            // InvalidOperationException, ReadOscilloscopeData
    | SupplyAdjusting               // InvalidOperationException, SetSupplyVoltage
    | Driver(status: FtStatus)      // Exception(error.ToString())
    | UnexpectedWrittenLength
    | UnexpectedReceivedLength
    | NullCalibration               // NullReferenceException: no calibration read yet
}
