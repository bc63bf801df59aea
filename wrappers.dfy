/** Small value wrappers shared by the other modules. */
module Wrappers {

  /** `undefined` (None) versus a present value (Some). */
  datatype Option<+T> = None | Some(value: T) {

    /** The wrapped value, or `default` when there is none (the `??` operator). */
    function GetOr(default: T): T {
      match this
      case Some(v) => v
      case None => default
    }
  }
}
