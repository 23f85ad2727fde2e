/** Small value types shared by every module of the model. */
module Common {

  /** Rust's `Option`. */
  datatype Option<+T> = None | Some(value: T)

  /** Rust's `Result`. */
  datatype Result<+T, +E> = Ok(value: T) | Err(error: E)

  /** An octet of UTF-8 text or of an uploaded file. */
  newtype byte = x: int | 0 <= x < 256

  /**
   * An IEEE 754 double, kept as its bit pattern. The model never computes
   * with it; it is only carried from a setter to the serialised object.
   */
  datatype Float = Float(bits: bv64)
}
