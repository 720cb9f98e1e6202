/** The optional value the scan returns: Python's `None` or a page. */
module Wrappers {

  datatype Option<+T> = None | Some(value: T)
}
