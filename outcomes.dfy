/** Optional values and the Python exceptions that the modelled code can raise. */
module Outcomes {

  datatype Option<+T> = None | Some(value: T)

  /** The exception a call raises, on the error paths the model keeps. */
  datatype PyError =
    | AttributeError     // reading an attribute the object never set
    | TypeError          // an arithmetic operator applied to `None`
    | IndexError         // an embedding lookup outside its table
    | AssertionError     // a failed `assert`
    | ValueError         // `nn.Dropout` given a probability outside `[0, 1]`
    | ZeroDivisionError  // `x % 0`, or a division by a zero fan in Xavier initialisation
    | RuntimeError       // a `view` whose `-1` dimension cannot be inferred

  /** The outcome of a call: its value, or the exception it raises. */
  datatype Result<+T> = Ok(value: T) | Err(error: PyError)
}
