/** The optional-value type shared by the modules of this project.
    `None` stands for a Python `None` result or for a call that raised. */
module Wrappers {

  datatype Option<+T> = None | Some(value: T)
}
