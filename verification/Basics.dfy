/** Small datatypes shared by every module. */
module Basics {
  datatype Option<+T> = None | Some(value: T)

  /** Why an operation of the multiplexer fails (`MuxError`). */
  datatype MuxError = IpcError | Disconnected | InternalError

  datatype Result<+T> = Ok(value: T) | Err(error: MuxError)
}
