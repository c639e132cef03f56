/** Option and Result values, and the exceptions the pipeline raises,
    reified as data so that every error path is an ordinary return value. */
module Outcomes {

  datatype Option<+T> = None | Some(value: T) {
    function GetOr(default: T): T {
      match this
      case Some(v) => v
      case None => default
    }
  }

  /** The Python exception classes that the modelled code raises or catches. */
  datatype ErrorKind =
    | ValueError       // bad mode string, bad image layout, non-integer episode id
    | ConnectionError  // Triton server not live at construction
    | KeyError         // missing dictionary / file key
    | IndexError       // index past the end of a list or tuple
    | AttributeError   // a method called on `None`
    | TypeError        // an operation applied to an unsuitable value
    | RuntimeError     // a tensor operation whose shapes do not agree
    | LoadError        // a model artifact that cannot be loaded
    | TransportError   // a failure inside the RPC library
    | GymnasiumError   // gymnasium.error.Error, e.g. a negative seed
    | AssertionError   // a failed `assert`, e.g. in a ROS message field setter

  /** An exception: its class and the text `str(e)` would give. */
  datatype Error = Error(kind: ErrorKind, message: string)

  datatype Result<+T> = Ok(value: T) | Err(error: Error) {
    predicate IsFailure() {
      Err?
    }

    function PropagateFailure<U>(): Result<U>
      requires Err?
    {
      Err(error)
    }

    function Extract(): T
      requires Ok?
    {
      value
    }
  }
}
