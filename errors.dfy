/** The crate's error enum and the two wrapper types every fallible operation returns. */
module Errors {

  /** Rust's `u16`. */
  type u16 = x: int | 0 <= x < 0x1_0000

  /** Rust's `i32`. */
  const I32Min: int := -0x8000_0000
  const I32Max: int := 0x7FFF_FFFF
  type i32 = x: int | I32Min <= x <= I32Max

  /** `DlsiteError`. The payloads of `Reqwest` and `SerdeJson` are foreign error
      values and are kept opaque. */
  datatype DlsiteError =
    | Reqwest
    | SerdeJson
    | HttpStatus(code: u16)
    | RateLimit(message: string)
    | Timeout
    | Parse(message: string)
    | Server(message: string)

  datatype Option<+T> = None | Some(value: T) {
    function GetOr(default: T): T {
      match this
      case Some(v) => v
      case None => default
    }
  }

  /** `crate::error::Result<T>`, usable with `:-` like Rust's `?`. */
  datatype Result<+T> = Ok(value: T) | Err(error: DlsiteError) {
    predicate IsFailure() {
      Err?
    }

    function PropagateFailure<U>(): Result<U>
      requires Err?
    {
      Err(error)
    }

    function Extract(): T
      requires Ok?
    {
      value
    }
  }

  /** `utils::ToParseError` on an `Option`: absence becomes a `Parse` error with the given message. */
  function ToParseError<T>(o: Option<T>, message: string): (r: Result<T>)
    ensures r.Ok? <==> o.Some?
    ensures o.Some? ==> r.value == o.value
    ensures o.None? ==> r.error == Parse(message)
  {
    match o
    case Some(v) => Ok(v)
    case None => Err(Parse(message))
  }
}
