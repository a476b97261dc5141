/** The simulator gateway: what both scripts take from outside. The
    localization process is a deterministic function from its argument vector
    to the standard output it prints; Python's float() and float repr are
    given functions too. */
module Gateway {
  import opened PyBuiltins

  /** The external collaborators of `execute_trial`. */
  datatype Host = Host(
    run: seq<string> -> string,          // subprocess.run(argv, capture_output=True, text=True).stdout
    toFloat: string -> Option<real>,     // float(text); None where it raises
    floatRepr: real -> string)           // str() of a Python float

  /** A reading of a `--flag value` vector, used to state what the vector
      carries: options are taken two entries at a time, and the value is the one
      after the first even position that holds the flag. It is not the
      process's own option parser. */
  function OptionValue(options: seq<string>, flag: string): (r: Option<string>)
    ensures r.Some? ==> exists k :: 0 <= k < |options| - 1 && k % 2 == 0 && options[k] == flag && options[k + 1] == r.value
    ensures r.None? ==> forall k :: 0 <= k < |options| - 1 && k % 2 == 0 ==> options[k] != flag
  {
    if |options| < 2 then None
    else if options[0] == flag then Some(options[1])
    else OptionValue(options[2..], flag)
  }
}
