/** The bridge provider's getQuote up to the test that decides whether it answers at all. */
module AcrossRequest {
  import opened Js
  import opened Environment

  /** A chain argument as it is passed: a registry key, or a number. */
  datatype ChainArg = Key(id: string) | Number(n: int)

  predicate Given(c: ChainArg) {
    match c
    case Key(id) => id != ""
    case Number(n) => n != 0
  }

  /** isAvailable's test that the two chains differ: false when one is missing; otherwise both arguments
      are lower-cased as texts, which throws on a number. */
  function ChainsDiffer(host: Host, source: ChainArg, destination: ChainArg): Answer<bool> {
    if !Given(source) || !Given(destination) then Returned(false)
    else if source.Number? || destination.Number? then Thrown
    else Returned(host.lower(source.id) != host.lower(destination.id))
  }

  /** getQuote: null for chains that do not differ, and past the test whatever `beyond` says. */
  function Quote<T>(host: Host, source: ChainArg, destination: ChainArg, beyond: Answer<Option<T>>): Answer<Option<T>> {
    match ChainsDiffer(host, source, destination)
    case Thrown => Thrown
    case Returned(differ) => if differ then beyond else Returned(None)
  }
}
