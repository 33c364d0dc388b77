/** Optional values: the model's stand-in for C#'s nullable references and
    nullable value types. */
module Wrappers {

  datatype Option<+T> = None | Some(value: T)

  /** `string.IsNullOrEmpty`: true for a null or a zero-length string. */
  predicate IsNullOrEmpty(s: Option<string>)
  {
    s.None? || s.value == ""
  }
}
