/** The replies the route handlers send: a JSON body with 200 or 201, or an
    error object `{ error, details }` with 400, 401 or 404. */
module Http {

  datatype Reply<+T> =
    | Ok(body: T)
    | Created(body: T)
    | BadRequest(details: string)
    | Unauthorized(details: string)
    | NotFound(details: string)
  {
    function Status(): int {
      match this
      case Ok(_) => 200
      case Created(_) => 201
      case BadRequest(_) => 400
      case Unauthorized(_) => 401
      case NotFound(_) => 404
    }

    /** The `error` field of an error reply. */
    function ErrorTitle(): string
      requires !Ok? && !Created?
    {
      match this
      case BadRequest(_) => "Bad Request"
      case Unauthorized(_) => "Unauthorized"
      case NotFound(_) => "Not Found"
    }
  }
}
