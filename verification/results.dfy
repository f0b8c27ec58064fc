/** Failure values of the BMI application and the Option/Result wrappers that carry them. */
module Results {

  /** Why an operation produced no value. */
  datatype Error =
    | UnsupportedCohort(age: int, sex: string)  // the percentile table has no row for this age and sex
    | InvalidMeasurement                        // height or weight is not strictly positive
    | CertificateNotWritten(path: string)       // after its leading "/" and "./" parts the name still holds a '/'

  datatype Option<+T> = None | Some(value: T)

  /** A value, or the error that prevented it; usable with `:-`. */
  datatype Result<+T> = Ok(value: T) | Err(error: Error) {

    predicate IsFailure() {
      Err?
    }

    function PropagateFailure<U>(): Result<U>
      requires Err?
    {
      Err(error)
    }

    function Extract(): T
      requires Ok?
    {
      value
    }
  }
}
