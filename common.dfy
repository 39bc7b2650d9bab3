/** Small value types shared by every module of the contact service model. */
module Common {

  datatype Option<T> = None | Some(value: T)

  datatype Result<T, E> = Ok(value: T) | Err(error: E)

  /** One field of a JSON request body, as a validation library receives it:
      the key is absent, it is present with `null`, or it carries a value. */
  datatype Raw<T> = Missing | Null | Given(value: T)

  /** An integer-typed field after the library's coercion: either the integer it
      converted the JSON value to, or a value it could not convert. */
  datatype NumberInput = IntegerInput(n: int) | NotNumeric

  /** Why a field was rejected. `Rejected` carries the message of a validator. */
  datatype Problem = FieldRequired | NoneNotAllowed | NotInteger | Rejected(message: string)

  datatype FieldError = FieldError(field: string, problem: Problem)

  /** The error a field contributes to a validation report: one entry when the
      field failed, none when it passed. */
  function Report<T>(field: string, r: Result<T, Problem>): (errors: seq<FieldError>)
    ensures r.Ok? <==> errors == []
    ensures r.Err? ==> errors == [FieldError(field, r.error)]
  {
    if r.Err? then [FieldError(field, r.error)] else []
  }
}
