/**
 * The port configuration a caller hands to `openPort`, and the errors the
 * open sequence reports.
 */
module PortConfig {

  datatype Option<T> = None | Some(value: T)

  datatype StopBits = StopBits1 | StopBits2

  datatype ByteSize = Byte5 | Byte6 | Byte7 | Byte8

  datatype ParityMode = ParityNone | ParityEven | ParityOdd

  /**
   * The desired settings. The baud rate is an arbitrary integer and is
   * validated only when the attribute block is built; the other fields are
   * closed enumerations, so the `panic` defaults of the source's switches
   * have no counterpart here.
   */
  datatype Config = Config(
    baud: int,
    stopBits: StopBits,
    size: ByteSize,
    parity: ParityMode,
    crlfTranslate: bool)

  /** The non-nil `error` values `openPort` can return. */
  datatype Error =
    | OpenFailed(path: string, errno: nat)   // os.OpenFile failed
    | SyscallFailed(errno: nat)              // an ioctl or fcntl returned a non-zero errno
    | UnknownBaudRate(baud: int)             // the baud switch had no matching case

  datatype Result<T> = Ok(value: T) | Err(error: Error)
}
