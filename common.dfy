/** Small value types shared by the modules of the signup wizard. */
module Common {

  /** A value that may be absent (a missing JSON field, an unset global). */
  datatype Option<T> = None | Some(value: T)

  /** How the promise returned by a step handler settles. `Pending` is a
      promise that never settles (step 2 waits for the payment widget's
      `ready` event, which may never come). */
  datatype Outcome = ResolvedTruthy | ResolvedFalsy | Rejected | Pending
}
