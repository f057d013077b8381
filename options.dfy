/** The optional value used for `fretboard?: string`, for `parseInt`'s NaN
    and for a regular expression that does not match. */
module Options {

  datatype Option<+T> = None | Some(value: T)
}
