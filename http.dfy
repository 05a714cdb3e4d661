/** The outcomes of the REST handlers: a success body, or one of the client-error
    statuses the handlers return before touching any state. */
module Http {
  datatype Response<T> =
    | Ok(body: T)         // 200
    | Created(body: T)    // 201
    | BadRequest          // 400
    | Forbidden           // 403
    | NotFound            // 404
}
