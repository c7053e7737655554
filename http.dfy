/** The response a handler produces: a status code and a JSON body. */
module Http {
  import opened Json

  datatype Response = Response(status: int, body: Value)

  /** The error shape used throughout: `{ "error": message }`. */
  function ErrorBody(message: string): Value {
    Obj(map["error" := Str(message)])
  }

  /** `res.json(v)` with no explicit status answers 200. */
  function OkJson(v: Value): Response {
    Response(200, v)
  }
}
