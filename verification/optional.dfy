/** Fields of the survey document that may be missing. */
module Optional {

  /** `Some(value)` for a field the document has, `None` for one it lacks. */
  datatype Option<T> = None | Some(value: T) {

    /** The field's value, or `fallback` when it is missing: the dashboard's
        `field || fallback` reading of an absent field. */
    function OrElse(fallback: T): T {
      if Some? then value else fallback
    }
  }
}
