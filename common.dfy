/** Machine integers, byte blobs, floating-point values and the single error kind
    shared by every part of the data-access layer. */
module Common {

  /** Rust's `i64`, `u64` and `u8`; the model never leaves their ranges. */
  type i64 = x: int | -0x8000_0000_0000_0000 <= x < 0x8000_0000_0000_0000
  type u64 = x: int | 0 <= x < 0x1_0000_0000_0000_0000
  type u8 = x: int | 0 <= x < 0x100

  /** `Blob = Vec<u8>` and `BlobList = Vec<Blob>`. */
  type Blob = seq<u8>
  type BlobList = seq<Blob>

  datatype Option<T> = None | Some(value: T)

  /** An `f64`. No arithmetic is ever done on these values; they are only stored,
      passed along and printed, so a value is represented by the text that
      Rust's `{}` formatting prints for it. */
  datatype F64 = F64(display: string)

  /** `format!("{}", r)` for an `f64`. */
  function FmtReal(r: F64): string
  {
    r.display
  }

  /** `format!("{}", b)` for a `bool`. */
  function FmtBool(b: bool): (s: string)
    ensures s == "true" <==> b
    ensures s == "false" <==> !b
  {
    if b then "true" else "false"
  }

  /** `x as u64` for an `i64`: the same 64 bits read as unsigned. */
  function AsU64(x: i64): (r: u64)
    ensures 0 <= x ==> r == x
    ensures x < 0 ==> r == x + 0x1_0000_0000_0000_0000
  {
    if x < 0 then x + 0x1_0000_0000_0000_0000 else x
  }

  /** `DatabaseServiceError`: one error kind carrying a message, which is also
      what its `Display` and `Debug` print. */
  datatype DatabaseServiceError = DatabaseServiceError(message: string)

  /** `Result<T, DatabaseServiceError>`. */
  datatype Result<T> = Ok(value: T) | Err(error: DatabaseServiceError)
}
