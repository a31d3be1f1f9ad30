/** The optional-value datatype used wherever the program tests a value
    for `None` (the model handle, a parse that may fail, the stored chat
    history that may not exist yet). */
module Wrappers {

  datatype Option<+T> = None | Some(value: T)
}
