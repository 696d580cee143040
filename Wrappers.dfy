/** Swift's `Optional`, shared by the record and controller modules. */
module Wrappers {

  datatype Option<+T> = None | Some(value: T) {

    /** Swift's `??` operator: the wrapped value, or `default` when absent. */
    function GetOr(default: T): T {
      match this
      case Some(v) => v
      case None => default
    }
  }
}
