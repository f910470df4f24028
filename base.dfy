/** Value types the app takes from Foundation: optionals and UUIDs. */
module Base {

  /** Swift's `Optional`. */
  datatype Option<+T> = None | Some(value: T) {

    /** `self ?? default`. */
    function GetOr(default: T): T {
      match this
      case Some(v) => v
      case None => default
    }
  }

  /** Foundation's `UUID`: an opaque identifier of which only equality is observed. */
  datatype Uuid = Uuid(bits: nat)
}
