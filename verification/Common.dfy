/** Small value types shared by every component of the model. */
module Common {

  /** A value that may be missing: the source's `None`. */
  datatype Option<+T> = None | Some(value: T)

  /** The outcome of an operation that can be refused: the source's exceptions. */
  datatype Result<+T, +E> = Ok(value: T) | Err(error: E)

  /** UUIDs are opaque tokens that are only compared and freshly minted. */
  type Uuid = nat

  /** Instants, in whole ticks. */
  type Time = int

  function Last<T>(s: seq<T>): T
    requires s != []
  {
    s[|s| - 1]
  }
}
