/** The option type the models use for Rust's Option and Python's None, and a textual
    parameter that may be absent or fail to parse. */
module Options {
  datatype Option<+T> = None | Some(value: T)
  datatype Param<+T> = Absent | Malformed | Given(value: T)
}
