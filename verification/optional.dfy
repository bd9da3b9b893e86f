/** The optional value the source reads from the tuning file and from the
    sensor helper (C++ `std::optional`). */
module Optional {

  datatype Option<+T> = None | Some(value: T) {

    /** `std::optional::value_or`: the held value, or `default` when empty. */
    function ValueOr(default: T): (r: T)
      ensures Some? ==> r == value
      ensures None? ==> r == default
    {
      match this
      case Some(v) => v
      case None => default
    }
  }
}
