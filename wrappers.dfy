/** Optional values and the error outcomes the plotting code raises. */
module Wrappers {

  datatype Option<+T> = None | Some(value: T)

  /** The exceptions the plotting layer raises itself (or lets numpy/Python raise). */
  datatype Error =
    | ValueError(message: string)   // an axis mode outside the accepted set, or an infinite axis limit
    | ZeroDivisionError             // replicating an empty colour list
    | UnboundLocal                  // reading a variable that was never assigned
    | IndexError                    // indexing a list or array past its end
    | TypeError                     // subscripting an object that is not a sequence
    | AttributeError(name: string)  // a keyword argument a matplotlib artist does not accept

  datatype Result<+T> = Ok(value: T) | Failure(error: Error)
}
