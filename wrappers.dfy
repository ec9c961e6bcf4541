/** The optional result both entry points return: `None` is the source's
    invalid-input marker (Python's `None`), `Some(v)` a computed value. */
module Wrappers {

  datatype Option<+T> = None | Some(value: T)
}
