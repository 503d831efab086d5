/** The optional value the game uses where the original uses `null`. */
module Options {

  datatype Option<T> = None | Some(value: T)
}
