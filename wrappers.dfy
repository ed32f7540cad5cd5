/** The one failure-compatible datatype the model needs: an optional value,
    used where `parseFloat` or the mean of an empty list gives `NaN`. */
module Wrappers {

  datatype Option<+T> = None | Some(value: T)
}
