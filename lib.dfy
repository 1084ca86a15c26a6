/** The crate's shared result and error types (src/lib.rs). */
module Lib {

  /** Rust's `Option`, as returned by `TokenStream::peek` and `advance_by`. */
  datatype Option<+T> = None | Some(value: T)

  /** The error taxonomy of scanning and parsing, generic over the token type. */
  datatype ParseError<+Tok> =
    | ScanError(sample: string)
    | UnexpectedToken(token: Tok)
    | Eof
      /** Reserved: nothing in the engine produces it. */
    | MissingImplementation

  /** `crate::Result<Tok, T>`: a value of type `T` or a `ParseError<Tok>`. */
  datatype Result<+T, +Tok> = Ok(value: T) | Err(error: ParseError<Tok>)
}
