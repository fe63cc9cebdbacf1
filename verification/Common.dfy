/** The few datatypes every component below shares. */
module Common {

  /** A field that may be absent: `undefined`, a missing document, a `null` date. */
  datatype Option<+T> = None | Some(value: T)

  /** One byte of a buffer. */
  type byte = b: int | 0 <= b < 256

  /** Users, documents and processes. */
  type Id = nat

  const DAY_MS: nat := 86400000

  function Max(a: int, b: int): (m: int)
  {
    if a < b then b else a
  }
}
