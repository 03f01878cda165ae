/** The usual Some/None wrapper, for values the source may find missing
    (`Array.prototype.find`, a `null` ref, a `NaN` from `parseInt`). */
module Optional {

  datatype Option<+T> = None | Some(value: T) {

    /** The wrapped value, or `default` when there is none. */
    function GetOr(default: T): T
    {
      match this
      case Some(v) => v
      case None => default
    }
  }
}
