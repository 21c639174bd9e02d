/** The JSON responses the route handlers return, with their HTTP status. */
module Http {
  import opened Wrappers

  /** One per-message failure of a batch: `{ id, error }`. */
  datatype ErrorEntry = ErrorEntry(id: string, error: string)

  datatype Body =
    | ErrorBody(error: string)                       // `{ error }`
    | MessageBody(message: string)                   // `{ message }`
    | RuleAdded(id: string, message: string)         // `{ id, message }`
    | StatusBody(status: string)                     // `{ status }`
    | BatchReport(message: string, count: nat, errors: Option<seq<ErrorEntry>>)

  datatype Response = Response(status: int, body: Body)

  function Json(body: Body): Response {
    Response(200, body)
  }
}
