/** What a handler writes back: a rendered template, a JSON body, or `http.Error`. */
module Responses {
  import opened JsonValue

  const StatusInternalServerError: nat := 500

  datatype Response<D> =
    | Rendered(template: string, data: D)
    | Encoded(contentType: string, body: Json)
    | HttpError(status: nat, message: string)
}
