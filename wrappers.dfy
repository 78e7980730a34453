/** Option, and the outcome of a C# call that may throw. */
module Wrappers {

  datatype Option<+T> = None | Some(value: T)

  /** The exceptions the modelled code can raise. */
  datatype Exception =
    | ArgumentNull          // ArgumentNullException.ThrowIfNull
    | ArgumentOutOfRange    // List<T> indexer past the end
    | InvalidCast           // a cast of an object to the wrong type
    | DuplicateKey          // Dictionary.Add with a key already present
    | IndexOutOfRange       // array indexer outside the array

  /** How a `void` C# method ended: normally or by throwing. */
  datatype Outcome = Completed | Threw(error: Exception)
}
