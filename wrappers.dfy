/** The optional-value datatype shared by the model: `None` stands for a Python
    `None` return, or for an exception that a caller swallows. */
module Wrappers {

  datatype Option<+T> = None | Some(value: T)
}
