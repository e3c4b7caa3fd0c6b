/** The optional value returned by the peak detector: `None` stands for the
    source's Python `None` (no peak found). */
module Wrappers {

  datatype Option<+T> = None | Some(value: T)

}
