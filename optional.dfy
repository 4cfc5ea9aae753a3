/** An optional value: TypeScript's `T | undefined` (or `T | null` where the two are handled alike). */
module Optional {

  datatype Option<+T> = None | Some(value: T) {

    /** `x ?? fallback` */
    function GetOr(fallback: T): T {
      match this
      case Some(v) => v
      case None => fallback
    }
  }
}
