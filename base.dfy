/** Small shared vocabulary: an optional value (a C pointer that may be NULL)
    and joining words with a separator, the reference form of a command line. */
module Base {

  datatype Option<+T> = None | Some(value: T)

  /** The words of `parts`, with `sep` between neighbours. */
  function Join(sep: string, parts: seq<string>): string
  {
    if |parts| == 0 then ""
    else if |parts| == 1 then parts[0]
    else parts[0] + sep + Join(sep, parts[1..])
  }
}
