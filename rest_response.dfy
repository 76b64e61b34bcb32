/** The HTTP answers the two endpoints give back. */
module RestResponse {
  import opened JavaLang

  /** The response statuses the endpoints use. */
  datatype Status =
    | Ok
    | Created
    | NotFound
    | NotAcceptable
    | NotImplemented
    | UnsupportedMediaType
    | InternalServerError

  /** A built response: a status and, for some statuses, an entity. */
  datatype Response<+T> = Response(status: Status, entity: Option<T>)
}
