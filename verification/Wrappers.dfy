/** Failure-carrying results and the value shapes that every component shares. */
module Wrappers {

  datatype Option<+T> = None | Some(value: T)

  datatype Result<+T, +E> = Ok(value: T) | Err(error: E)

  /** A JSON value.  Numbers keep their written form: nothing here computes with them. */
  datatype Json =
    | Null
    | Bool(b: bool)
    | Number(text: string)
    | String(s: string)
    | Array(items: seq<Json>)
    | Object(fields: map<string, Json>)

  /** Universally unique identifiers; only their equality matters. */
  type Uuid = nat

  /** A 64-bit `usize`. */
  const USIZE_LIMIT: nat := 0x1_0000_0000_0000_0000
  type Usize = n: nat | n < USIZE_LIMIT
}
