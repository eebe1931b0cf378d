/** Option and Result, the failure-carrying values used across the model. */
module Wrappers {
  datatype Option<+T> = None | Some(value: T)

  datatype Result<+R, +E> = Ok(value: R) | Err(error: E)

  /** The usual ECMAScript/Python "truthiness" of an optional string: present and non-empty. */
  predicate Truthy(o: Option<string>) {
    o.Some? && o.value != ""
  }

  function OrEmpty(o: Option<string>): string {
    if o.Some? then o.value else ""
  }

}
