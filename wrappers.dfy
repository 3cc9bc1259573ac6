/** The optional value used for JavaScript's `undefined` results and for absent keys of a partial record. */
module Wrappers {

  datatype Option<+T> = None | Some(value: T)

  /** The given value when there is one, otherwise the current one: how a spread treats one key. */
  function Pick<T>(given: Option<T>, current: T): (r: T)
    ensures given.Some? ==> r == given.value
    ensures given.None? ==> r == current
  {
    if given.Some? then given.value else current
  }
}
