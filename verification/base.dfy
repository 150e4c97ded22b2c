/** Failure-compatible wrappers and the fixed-width integer conventions of the
    Rust side of the system (u8, u32, i32, i64 casts and truncating division). */
module Base {

  /** An optional value: `None` plays the part of Python's `None` and Rust's `Option::None`. */
  datatype Option<+T> = None | Some(value: T) {

    function GetOr(default: T): T {
      match this
      case Some(v) => v
      case None => default
    }
  }

  /** A value or an error, usable with `:-`. */
  datatype Result<+T, +E> = Ok(value: T) | Err(error: E) {

    predicate IsFailure() {
      Err?
    }

    function PropagateFailure<U>(): Result<U, E>
      requires Err?
    {
      Err(error)
    }

    function Extract(): T
      requires Ok?
    {
      value
    }
  }

  const U32_MODULUS: int := 0x1_0000_0000

  type u8 = x: int | 0 <= x < 0x100
  type u32 = x: int | 0 <= x < U32_MODULUS
  type i32 = x: int | -0x8000_0000 <= x < 0x8000_0000

  /** Rust's `x as u32` on a wider two's-complement integer keeps the low 32 bits. */
  function WrapU32(x: int): (r: u32)
    ensures (r - x) % U32_MODULUS == 0
    ensures 0 <= x < U32_MODULUS ==> r == x
  {
    x % U32_MODULUS
  }

  /** Rust's `a / b` on signed integers rounds toward zero (Dafny's `/` is Euclidean). */
  function TruncDiv(a: int, b: int): (q: int)
    requires b > 0
    ensures a >= 0 ==> q == a / b
    ensures a < 0 ==> q == -((-a) / b) && q <= 0
  {
    if a >= 0 then a / b else -((-a) / b)
  }
}
