/**
 Shared value types of the screenshot server model: optional values, results
 of fallible collaborator calls, and raw bytes.
 */
module Common {

  /** A value that may be absent, e.g. the integer `strconv.Atoi` produced. */
  datatype Option<+T> = None | Some(value: T)

  /** The outcome of a fallible call: a value, or the error text it reported. */
  datatype Result<+T> = Success(value: T) | Failure(error: string)

  /** One octet, as Go's `byte`. */
  newtype byte = x: int | 0 <= x < 256

  /** A byte buffer such as an encoded PNG or JPEG image. */
  type Bytes = seq<byte>
}
