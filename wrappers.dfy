/**
 * Shared result types. The Python sources signal failure by raising; every
 * exception the modelled code can raise is one constructor of `Error`.
 */
module Wrappers {

  datatype Option<T> = None | Some(value: T)

  /** The exceptions of the modelled code, by Python class. */
  datatype Error =
    | IndexError          // sequence index out of range
    | ValueError          // enum lookup of an undefined value, `tuple.index` miss
    | OsError             // `OSError`: a seek to a negative position
    | OverflowError       // `int.to_bytes` of a negative pointer
    | TypeError           // calling a `None` command, wrong keyword arguments
    | AttributeError      // method call on a placeholder (`...`) envelope
    | QueueFull           // `queue.Full` from `put_nowait`
    | KeyError            // dictionary or `Collection` key miss / key in use
    | StructError         // `struct.unpack` of an empty read (end of file)
    | UnknownCommand(op: int)
    | InvalidRom
    | InvalidSongNumber(song: int)
    | BlankSong
    | InvalidArgument
    | FileError(code: int) // `fileio.Error` with its numeric code
    | OutOfFuel           // the step bound of a loop the source may run forever

  datatype Result<T> = Ok(value: T) | Err(error: Error)
}
