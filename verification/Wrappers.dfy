/** Optional values and results with an error message, used for the JavaScript
    `undefined`/`null` cases and for thrown errors. */
module Wrappers {

  datatype Option<+T> = None | Some(value: T)

  datatype Result<+R> = Success(value: R) | Failure(error: string)

  /** JavaScript truthiness of a number that may be absent: `undefined`, `null`
      and `0` are falsy. */
  predicate TruthyInt(o: Option<int>)
  {
    o.Some? && o.value != 0
  }

  /** JavaScript truthiness of a string that may be absent: `null` and `""`
      are falsy. */
  predicate TruthyString(o: Option<string>)
  {
    o.Some? && o.value != ""
  }
}
