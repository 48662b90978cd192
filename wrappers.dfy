/** Option and Result as the Rust code uses them, and a record of the calls an
    orchestrating operation makes on the ports it is given. */
module Wrappers {

  datatype Option<+T> = None | Some(value: T)

  datatype Result<+T, +E> = Ok(value: T) | Err(error: E)

  /** The result of an operation together with the port calls it made, in order.
      It plays the part of the call counters and recording mocks of the tests. */
  datatype Traced<+T, +C> = Traced(result: T, calls: seq<C>)
}
