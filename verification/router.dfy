/** The parts of the router's location that the core reads and writes. */
module Router {
  import opened Wrappers
  import Pairs

  /** One decoded `key=value` pair of the query string. */
  type QueryParam = Pairs.Pair

  /**
    A router location: path, decoded query pairs in order, and the
    history state attached by the navigation that produced it.
   */
  datatype Location = Location(pathname: string, query: seq<QueryParam>, state: NavState)

  /**
    `location.state`. A `null` state and the empty object `{}` read the same
    through optional chaining, so both are `NoState`.
   */
  datatype NavState = NavState(from: Option<Location>, validationSuccess: bool)

  const NoState := NavState(None, false)

  /** The location reached by `navigate(path)` with no query and no state. */
  function At(pathname: string): Location {
    Location(pathname, [], NoState)
  }

  /** `URLSearchParams.get(key)`: the value of the first pair with that key. */
  function QueryGet(query: seq<QueryParam>, key: string): Option<string> {
    Pairs.First(query, key)
  }
}
