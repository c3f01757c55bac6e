/** JavaScript's `undefined`-or-value results, as an Option. */
module Wrappers {

  datatype Option<+T> = None | Some(value: T)

  /** JavaScript truthiness of an optional object reference. */
  predicate IsSome<T>(o: Option<T>) {
    o.Some?
  }
}
