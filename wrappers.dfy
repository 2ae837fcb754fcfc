/** Optional values, standing for the source's `null` returns and undefined arithmetic. */
module Wrappers {
  datatype Option<T> = None | Some(value: T)
  {
    predicate IsSome() { Some? }
  }
}
