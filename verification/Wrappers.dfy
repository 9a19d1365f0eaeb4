/** Optional values, fallible results, and the elements of a list. */
module Wrappers {
  datatype Option<+T> = None | Some(value: T)

  datatype Result<+T, +E> = Ok(value: T) | Err(error: E)

  function Elems<T>(s: seq<T>): set<T>
  {
    set x | x in s
  }
}
