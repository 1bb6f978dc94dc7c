/**
 * Values shared by the relay server and the agent: optional values, results,
 * the byte and 32-bit integer types of .NET, and the two records that cross
 * the wire between the two programs as JSON.
 */
module Common {

  /** A value that may be absent: C#'s `null` for reference types and `T?`. */
  datatype Option<+T> = None | Some(value: T) {
    /** `x ?? fallback` */
    function GetOr(fallback: T): T {
      match this
      case Some(v) => v
      case None => fallback
    }
  }

  /** The outcome of an operation that may throw: a value or the error it threw. */
  datatype Result<+T, +E> = Success(value: T) | Failure(error: E)

  /** .NET `byte`. */
  newtype byte = x: int | 0 <= x < 0x100

  /** .NET `int` (System.Int32). */
  type int32 = x: int | -0x8000_0000 <= x < 0x8000_0000

  /** The command result both programs exchange: `{ output, exitCode }`. */
  datatype CommandResult = CommandResult(output: string, exitCode: int32)

  /** The body of a file-poll answer: `{ action, path, size }`. */
  datatype FilePollReport = FilePollReport(action: Option<string>, path: Option<string>, size: int)
}
