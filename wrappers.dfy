/** Option and Result, the two failure-carrying shapes the Rust code uses everywhere. */
module Wrappers {

  datatype Option<+T> = None | Some(value: T)

  datatype Result<+T, +E> = Ok(value: T) | Err(error: E)
}

/** Floating-point values are carried, never computed with. */
module Floats {

  /** An `f32` carried as its 32 bits. */
  datatype F32 = F32(bits: bv32)
}
