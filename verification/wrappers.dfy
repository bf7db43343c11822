/** Optional values, used wherever the configuration tree may lack a key
    (Ruby's `config["key"] || default` idiom) or an operation raises. */
module Wrappers {

  datatype Option<+T> = None | Some(value: T) {

    /** The value, or `default` when absent (Ruby's `x || default` for a key that is nil). */
    function GetOr(default: T): T
    {
      match this
      case Some(v) => v
      case None => default
    }
  }
}
