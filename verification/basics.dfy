/** Result shapes shared by the modules: Python's `None` and raised exceptions. */
module Basics {

  datatype Option<+T> = None | Some(value: T)

  /** A call that may raise. */
  datatype Attempt<+T> = Returned(value: T) | Raised

  function Max(a: int, b: int): int { if a < b then b else a }

  function Min(a: int, b: int): int { if a < b then a else b }
}
