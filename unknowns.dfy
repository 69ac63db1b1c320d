/** The tri-state "Unknown" sentinel: a value is either known or absent, and
    an absent value remembers which of the three sentinel widths
    (`Unknown.TINY`, `Unknown.SMALL`, `Unknown.REGULAR`) the code chose for it. */
module Unknowns {

  datatype Size = Tiny | Small | Regular

  datatype Val<+T> = Known(v: T) | Unknown(size: Size)

  /** `Unknown.is_not(a, b, c)`: every argument is known. */
  predicate AllKnown3<A, B, C>(a: Val<A>, b: Val<B>, c: Val<C>) {
    a.Known? && b.Known? && c.Known?
  }

  /** The text a sentinel stands for when it is formatted into a string. */
  function Text(size: Size): (t: string)
    ensures t != ""
  {
    match size
    case Tiny => "?"
    case Small => "???"
    case Regular => "unknown"
  }

  /** Renders a possibly-unknown string the way `"{}".format(x)` does. */
  function Show(x: Val<string>): string {
    match x
    case Known(s) => s
    case Unknown(size) => Text(size)
  }

  /** `Unknown.or_empty(x)`: the value when known, otherwise the empty string. */
  function OrEmpty(x: Val<string>): (r: string)
    ensures x.Known? ==> r == x.v
    ensures x.Unknown? ==> r == ""
  {
    if x.Known? then x.v else ""
  }
}
