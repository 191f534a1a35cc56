/** Option and Result types shared by the query renderer and the schema synthesizer,
    and the error kinds the driver reports while rendering. */
module Common {

  datatype Option<+T> = None | Some(value: T)

  /** The two error kinds a renderer can raise. UnsupportedFeature stands for the
      driver's BadMethodCallException; TypeMismatch for a default value that does
      not fit its column type. */
  datatype Error =
    | UnsupportedFeature(message: string)
    | TypeMismatch(message: string)

  datatype Result<+T> = Ok(value: T) | Err(error: Error) {

    predicate IsFailure() {
      Err?
    }

    function PropagateFailure<U>(): Result<U>
      requires Err?
    {
      Err(error)
    }

    function Extract(): T
      requires Ok?
    {
      value
    }
  }
}
