/** Outcomes of the tracking-code builder.

    Every check of the builder throws a plain `Exception` whose message names
    the offending parameter; the model keeps the parameter and drops the text.
    `NoObjectContext` stands for the PHP error raised when a static method
    dereferences `$this`; only the as-written model of the event code reaches it. */
module Results {

  /** The parameter a failed check names, one per distinct exception message. */
  datatype Param =
    | ProfileId
    | Index | Name | Value
    | Category | Action
    | Url
    | Code
    | Referrer
    | UtmCampaign | UtmSource | UtmMedium | UtmContent
    | Network | SocialAction

  datatype Error =
    | InvalidArgument(param: Param)
    | NoObjectContext

  /** A value, or the error a thrown exception stands for. */
  datatype Result<+T> = Ok(value: T) | Err(error: Error) {

    predicate IsFailure() {
      Err?
    }

    function PropagateFailure<U>(): Result<U>
      requires Err?
    {
      Err(error)
    }

    function Extract(): T
      requires Ok?
    {
      value
    }
  }

  datatype Option<+T> = None | Some(value: T)

  /** The outcome of an operation that returns nothing or throws. */
  datatype Outcome = Pass | Fail(error: Error)
}
