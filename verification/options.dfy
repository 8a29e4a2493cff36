/**
  Form fields. The calculator reads every value from a form whose fields may be left
  empty, and looks every categorical key up in a table that may not contain it.
 */
module Options {

  /**
    A form field or table key: `None` when the field is empty or the key is not in the
    table, `Some` with the parsed value otherwise.
   */
  datatype Option<T> = None | Some(value: T) {

    /** The field's value, or the default the calculator substitutes for an empty field. */
    function GetOr(default: T): T {
      if Some? then value else default
    }
  }
}
