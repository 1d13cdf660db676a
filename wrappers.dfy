/** Option, for values the page may or may not have (an optional
    sub-description, a DOM node that is not mounted yet). */
module Wrappers {
  datatype Option<+T> = None | Some(value: T)
}
