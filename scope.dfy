/**
 * `Scope` is not part of this model beyond what the request builders use of it: the text its
 * `toString()` renders, and what its `validate()` does — nothing, or throw an exception.
 */
module Scopes {
  import opened Wrappers
  import opened Throwables

  datatype Scope = Scope(text: string, rejection: Option<Throwable>)
  {
    /** `validate()`: the exception it throws, if any. */
    function Validate(): (thrown: Option<Throwable>)
      ensures thrown == rejection
    {
      rejection
    }
  }
}
