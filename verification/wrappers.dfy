/** The three sum types the stream adapter is built from: `Option` (a stream
    item or the end of the stream), `Result` (a chunk or an error) and `Poll`
    (a value that is ready now, or not yet). */
module Wrappers {

  datatype Option<+T> = None | Some(value: T)

  datatype Result<+R, +E> = Ok(value: R) | Err(error: E) {

    /** Keeps a success value and converts an error value with `convert`,
        as Rust's `Result::map_err` does. */
    function MapErr<NewE>(convert: E -> NewE): Result<R, NewE>
    {
      match this
      case Ok(v) => Ok(v)
      case Err(e) => Err(convert(e))
    }
  }

  /** The outcome of one poll of an asynchronous producer. */
  datatype Poll<+T> = Pending | Ready(value: T)
}
