/** Values shared by every component of the finance pack model. */
module Common {

  /** Python's `None`-or-value, and an argument that may be left at its default. */
  datatype Option<+T> = None | Some(value: T)

  /** A result or the exception / error the source raises or returns instead. */
  datatype Result<+T, +E> = Ok(value: T) | Err(error: E)

  /** A point in time (a `datetime`); the model only carries it, so seconds since the epoch. */
  type Instant = int
}
