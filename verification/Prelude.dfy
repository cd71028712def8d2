/** Small shared vocabulary: optional values, and the finite histories that
    every "over all runs" statement of the project ranges over. */
module Prelude {

  datatype Option<+T> = None | Some(value: T) {
    function GetOr(default: T): T {
      if Some? then value else default
    }
  }

  /** A finite history, growing at the right: `Then(before, last)` is the history
      `before` followed by one more step. */
  datatype History<A> = Start | Then(before: History<A>, last: A)
}
