/** The optional value used for Python's `X | None`. */
module Optional {

  datatype Option<+T> = None | Some(value: T) {

    /** `value if value is not None else default` */
    function GetOr(default: T): T {
      match this
      case Some(v) => v
      case None => default
    }
  }
}
