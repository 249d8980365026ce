/** The two functions of Go's strconv package that concern the privileged-containers flag. */
module Strconv {
  import opened Wrappers

  /** strconv.FormatBool: "true" or "false". */
  function FormatBool(b: bool): string {
    if b then "true" else "false"
  }

  /**
   * strconv.ParseBool, the reader a consumer of the generated config uses:
   * accepts 1, t, T, TRUE, true, True and 0, f, F, FALSE, false, False.
   */
  function ParseBool(s: string): Option<bool> {
    if s in {"1", "t", "T", "TRUE", "true", "True"} then Some(true)
    else if s in {"0", "f", "F", "FALSE", "false", "False"} then Some(false)
    else None
  }

  /** ParseBool inverts FormatBool. */
  lemma ParseFormatBool(b: bool)
    ensures ParseBool(FormatBool(b)) == Some(b)
  {
  }
}
