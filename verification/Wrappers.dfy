/** Optional values, fallible results and Go's string maps. */
module Wrappers {

  datatype Option<+T> = None | Some(value: T)

  datatype Result<+T, +E> = Ok(value: T) | Err(error: E)

  /** Reading an absent key yields the empty string. */
  function Lookup(m: map<string, string>, key: string): string { if key in m then m[key] else "" }

  predicate Agrees(actual: map<string, string>, expected: map<string, string>) {
    forall key :: key in expected ==> Lookup(actual, key) == expected[key]
  }
}
