/** Small value wrappers shared by every module of the model. */
module Base {

  /** A value that may be missing: JavaScript's `undefined`/`null` in an optional field. */
  datatype Option<+T> = None | Some(value: T) {
    function GetOr(default: T): T {
      match this
      case Some(v) => v
      case None => default
    }
  }

  /** What reading one persisted JSON document can find: nothing, text that does not
      parse, or a parsed value. */
  datatype Stored<+T> = Absent | Unparsable | Present(value: T) {
    /** The read path of the source: a missing or unparsable file reads as "no value". */
    function Read(): (r: Option<T>)
      ensures r.Some? <==> Present?
      ensures r.Some? ==> r.value == value
    {
      match this
      case Present(v) => Some(v)
      case _ => None
    }
  }
}
