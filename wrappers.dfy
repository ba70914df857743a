/** The optional value used wherever the widget tolerates a missing object
    (no series item under the cursor, no blob, no exporter result). */
module Wrappers {
  datatype Option<+T> = None | Some(value: T) {
    function GetOr(default: T): T {
      match this
      case Some(v) => v
      case None => default
    }
  }
}
