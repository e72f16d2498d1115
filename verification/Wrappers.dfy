/** Options, results and the three-way update of a patch column. */
module Wrappers {

  datatype Option<+T> = None | Some(value: T)

  datatype Result<+T, +E> = Ok(value: T) | Err(error: E)

  /** A column of a patch: left alone, or overwritten (possibly with NULL). */
  datatype Column<+T> = Keep | Put(v: T)

  function Write<T>(c: Column<T>, old_: T): T {
    match c
    case Keep => old_
    case Put(v) => v
  }

}
