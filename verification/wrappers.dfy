/** The optional-value datatype used where the modelled code returns
    "no value" (an empty string, a failed parse). */
module Wrappers {

  datatype Option<+T> = None | Some(value: T)

}
