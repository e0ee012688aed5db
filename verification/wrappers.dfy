/** Optional values and the JavaScript truthiness the component relies on. */
module Wrappers {

  /** A value that may be `null`/`undefined` in the component. */
  datatype Option<+T> = None | Some(value: T)

  /** Truthiness of an optional string in a JavaScript condition:
      `null`, `undefined` and the empty string are falsy, every other string is truthy. */
  predicate Truthy(s: Option<string>)
  {
    s.Some? && s.value != ""
  }
}
