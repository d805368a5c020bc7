/** Stock result types shared by the other modules. */
module Outcomes {

  datatype Option<+T> = None | Some(value: T)

  /** What a call into code outside the model may do: return a value, or raise. */
  datatype Outcome<+T, +E> = Returned(value: T) | Raised(error: E)
}
