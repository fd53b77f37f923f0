/** The error enums of `src/error.rs` that the scanner and the token table produce. */
module Errors {

  /** Where a lexical error happened: the scanner's line and the offset of the
      token's first character. */
  datatype ErrorLoc = ErrorLoc(line: nat, at: nat)

  /** `ParseError` without its `ExpectedToken` variant, which no modelled code produces. */
  datatype ParseError =
    | UnterminatedString(loc: ErrorLoc)
    | UnknownTokenType
}
