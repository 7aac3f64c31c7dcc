/** The optional value the model uses for C#'s `null` references. */
module Wrappers {

  datatype Option<+T> = None | Some(value: T)
}
