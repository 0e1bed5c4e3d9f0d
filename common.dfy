/** Shared value types: the optional value that stands for JavaScript's
    `null` / `undefined` throughout the model. */
module Common {

  datatype Option<T> = None | Some(value: T)

  /** A `<Select>` filter of type `string | undefined` is "unset" when the
      JavaScript test `!selected` holds: it is undefined or the empty string. */
  predicate Unset(selected: Option<string>)
  {
    selected.None? || selected.value == ""
  }

  /** The `!selected || field === selected` pattern shared by every list screen. */
  predicate PassesFilter(selected: Option<string>, field: string)
  {
    Unset(selected) || selected.value == field
  }
}
