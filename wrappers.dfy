/** The two failure-carrying types the game's Rust code uses everywhere:
    `Option` for lookups that may find nothing and `Result` for the console's
    text error channel. */
module Wrappers {

  datatype Option<+T> = None | Some(value: T)

  datatype Result<+T, +E> = Ok(value: T) | Err(error: E)
}
