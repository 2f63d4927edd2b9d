/** The optional-value datatype the model uses for "a stage may hold no coefficient set"
    and "this band index names no filter". */
module Wrappers {
  datatype Option<+T> = None | Some(value: T)
}
