/** The optional value shared by the game, the navigation bar and the login form. */
module Wrappers {
  datatype Option<T> = None | Some(value: T)
}
