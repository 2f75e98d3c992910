/** Option type shared by the modules of the employee-card model. */
module Wrappers {

  datatype Option<+T> = None | Some(value: T)
}
