/** Option: the JavaScript `null` / `undefined` of a lookup that found
    nothing. It supports `:-`, so a chain of steps stops at the first that
    finds nothing. */
module Wrappers {

  datatype Option<+T> = None | Some(value: T) {

    predicate IsFailure()
    {
      None?
    }

    function PropagateFailure<U>(): Option<U>
      requires None?
    {
      None
    }

    function Extract(): T
      requires Some?
    {
      value
    }
  }

}
