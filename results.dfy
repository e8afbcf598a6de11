/** The outcome of a metric: a value, or the Python exception the computation raises. */
module Results {
  /** The exceptions the metric functions of agreement.py can raise on their inputs. */
  datatype MathError =
    | ZeroDivision   // ZeroDivisionError: a true division by zero
    | EmptySequence  // ValueError: min() or max() of an empty sequence

  datatype Result<T> = Ok(value: T) | Err(error: MathError)
}
