/** The one optional-value datatype the model needs: an absent JSON field,
    a request that was never issued, a file that was never downloaded. */
module Wrappers {

  datatype Option<+T> = None | Some(value: T)
}
