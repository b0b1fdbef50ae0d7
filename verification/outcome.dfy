/**
 The failure vocabulary of the point-cloud scripts. Every exception the
 modelled Python code can raise on its own data becomes one `Error` value,
 and every operation that can raise returns a `Result`.
 */
module Outcome {

  /** The exceptions the modelled code raises, named by their cause. */
  datatype Error =
    | ReshapeSizeMismatch        // np.reshape: element count not divisible into rows of 4
    | MatmulShapeMismatch        // `pts @ mat.T` where pts does not have 4 columns
    | ColumnIndexOutOfRange      // `pts[:,-1]` on an array with no columns
    | SingularMatrix             // np.linalg.inv on a matrix with zero determinant
    | NothingToConcatenate       // np.concatenate of an empty list
    | ConcatenateWidthMismatch   // np.concatenate of arrays with different column counts
    | ChoiceFromEmpty            // random.choice / random.choices on an empty population
    | SampleLargerThanPopulation // random.sample with k < 0 or k > population size
    | NameNotDefined             // NameError: a name the script never imported
    | UnboundVariable            // UnboundLocalError: a local read before any assignment

  /** Either the value an operation returns or the exception it raises. */
  datatype Result<+T> = Ok(value: T) | Err(error: Error) {

    predicate IsFailure() {
      Err?
    }

    function PropagateFailure<U>(): Result<U>
      requires Err?
    {
      Err(error)
    }

    function Extract(): T
      requires Ok?
    {
      value
    }
  }

  /** The `Some`/`None` of a value that may be absent. */
  datatype Option<+T> = None | Some(value: T)
}
