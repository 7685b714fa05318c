/** Optional values and results shared by every module of the model. */
module Wrappers {

  /** A value that may be absent: Python's `None`, a missing request parameter, `.first()` on an empty queryset. */
  datatype Option<+T> = None | Some(value: T)

  /** The outcome of an operation that may fail with an error of type E. */
  datatype Result<+T, +E> = Ok(value: T) | Err(error: E)

  // Python's `given or current`, used by the models' `update` methods: a
  // falsy given value (None, an empty string, zero) keeps the current one.

  /** `given or current` for a text field: an absent or empty text keeps the current one. */
  function OrText(given: Option<string>, current: string): (r: string)
    ensures given.Some? && given.value != "" ==> r == given.value
    ensures given.None? || given.value == "" ==> r == current
  {
    if given.Some? && given.value != "" then given.value else current
  }

  /** `given or current` for a number: None and zero keep the current one. */
  function OrNumber(given: Option<int>, current: int): (r: int)
    ensures given.Some? && given.value != 0 ==> r == given.value
    ensures given.None? || given.value == 0 ==> r == current
  {
    if given.Some? && given.value != 0 then given.value else current
  }

  /**
   * `given or current` for a value that is always truthy (a date, a flag
   * compared with `is not None`): only None keeps the current one.
   */
  function ValueOr<T>(given: Option<T>, current: T): (r: T)
    ensures given.Some? ==> r == given.value
    ensures given.None? ==> r == current
  {
    if given.Some? then given.value else current
  }

  /** An error map with one more entry when the check failed: `if cond: errors[field] = message`. */
  function AddIf(errors: map<string, string>, cond: bool, field: string, message: string): (r: map<string, string>)
    ensures r.Keys == if cond then errors.Keys + {field} else errors.Keys
    ensures cond ==> r[field] == message
  {
    if cond then errors[field := message] else errors
  }
}
