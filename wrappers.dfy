/** The optional value used for the page effects (an alert text, a navigation target). */
module Wrappers {

  datatype Option<+T> = None | Some(value: T)
}
