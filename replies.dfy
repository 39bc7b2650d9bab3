/** What a `POST /contacts` request answers, common to both FastAPI variants. */
module Replies {
  import opened Common
  import opened Records

  /** Why a request that passed validation ends in HTTP 500: `scalars().one()`
      found no row or several, or `await write_email_task` named a variable
      that was never bound. */
  datatype Fault = NoResultFound | MultipleResultsFound | UnboundEmailTask

  datatype Response =
    | Reply(code: nat, message: string, username: string)  // the handler's dictionary
    | Unprocessable(errors: seq<FieldError>)                 // 422: the body failed `ContactBase`
    | ServerError(fault: Fault)                              // 500: an exception escaped the handler

  /** The tables after a request, with its answer. */
  datatype Outcome = Outcome(tables: Tables, response: Response)

  /** The exception `scalars().one()` raises for a lookup that found `found`
      rows other than one. */
  function LookupFault(found: nat): (f: Fault)
    ensures f != UnboundEmailTask
    ensures f == NoResultFound <==> found == 0
  {
    if found == 0 then NoResultFound else MultipleResultsFound
  }
}
