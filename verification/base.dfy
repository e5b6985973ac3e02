/** Small shared vocabulary: optional values, fixed-width integers and the
    opaque handles the asset stores hand out. */
module Base {

  datatype Option<+T> = None | Some(value: T) {
    /** The contained value, or `default` when there is none (Rust's `unwrap_or`). */
    function UnwrapOr(default: T): T {
      match this
      case Some(v) => v
      case None => default
    }
  }

  datatype Result<+T, +E> = Ok(value: T) | Err(error: E)

  /** Rust `u32`. */
  type U32 = x: int | 0 <= x < 0x1_0000_0000

  /** Rust `i32`. */
  type I32 = x: int | -0x8000_0000 <= x < 0x8000_0000

  /** A strong handle to an image asset. The asset server derives it from the
      asset path, so the path identifies it. */
  datatype ImageHandle = ImageHandle(path: string)

  /** A handle to a material in the material store: its position in the store. */
  type MaterialHandle = nat

  /** A handle to a decoded map asset. */
  type MapHandle = nat
}
