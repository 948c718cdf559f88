/** Optional values and the exceptions the Python parts of the model raise. */
module Results {

  datatype Option<T> = None | Some(value: T)

  /** The Python exception a failing call raises. */
  datatype Failure =
    | InvalidWindow    // a declared functioning window was not given
    | ValueError       // a value outside what the call accepts
    | AttributeError   // `getattr` of a window beyond the third
    | IndexError       // a subscript past the end of a list
    | TypeError        // a subscript of `None`
    | ZeroDivisionError // a division by zero

  datatype Result<T> = Ok(value: T) | Err(failure: Failure)
}
