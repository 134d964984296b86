/** Error taxonomy of the remote database client and the result wrapper used
    in place of Go's `(value, error)` returns. */
module Errors {

  /** A transport failure. `EOF` is Go's `io.EOF` (the device closed the
      stream); every other socket failure is `NetError`. */
  datatype IoError = EOF | NetError

  datatype Error =
    | ErrDeviceNotLinked                    // remotedb.go ErrDeviceNotLinked
    | ErrCDUnsupported                      // remotedb.go ErrCDUnsupported
    | Transport(cause: IoError)             // dial, write or read failure, returned as is
    | PortQueryFailed(cause: IoError)       // write/read failure wrapped by the port resolver
    | InvalidMenuResponse(msgType: int)     // setup reply of the wrong message type

  datatype Result<+T> = Ok(value: T) | Err(error: Error)

  /** A result without a value: Go's bare `error` return. */
  datatype Status = Pass | Fail(error: Error)
}
