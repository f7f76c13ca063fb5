/** Failure-carrying results shared by every module of the model.
    The Python code reports errors by raising; the model returns them. */
module Base {

  datatype Option<+T> = None | Some(value: T)

  datatype Result<+T, +E> = Success(value: T) | Failure(error: E)

  /** The Python exceptions the modelled code can raise on its own account. */
  datatype PyError =
    | IndexError          // indexing an empty list (`xs[0]`, `xs[-1]`, `colors[9]`)
    | ZeroDivisionError   // `x / 0`, including `sum([]) / len([])`

  type Fallible<+T> = Result<T, PyError>
}
