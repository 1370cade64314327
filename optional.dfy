/** The nullable values of the Kotlin source (`T?`), as an explicit option type. */
module Optional {

  datatype Option<T> = None | Some(value: T) {

    /** `x ?: default` */
    function GetOr(default: T): T {
      match this
      case Some(v) => v
      case None => default
    }
  }
}
