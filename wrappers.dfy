/** Option, used for Java's null returns and for values the source cannot represent as a finite double. */
module Wrappers {
  datatype Option<+T> = None | Some(value: T)
}
