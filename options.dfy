/** The optional value used throughout the model: a missing key, an absent
    session value, a maximum of nothing. */
module Options {

  datatype Option<+T> = None | Some(value: T)
}
