/** The `anyhow::Error` values the health checker can end with. */
module Errors {
  import IntParse

  datatype Error =
    | Bail(msg: string)                      // `bail!(msg)`: the error's text is `msg`
    | ParseInt(kind: IntParse.IntErrorKind)  // a timeout value `?`-propagated from `parse::<u64>()`
    | Call(cause: string)                    // the HTTP call's own error, `?`-propagated
}
