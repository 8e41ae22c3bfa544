/** The optional value shared by the other modules: `None` stands for JavaScript's `null`. */
module Wrappers {
  datatype Option<T> = None | Some(value: T)
}
