/**
  The response envelope of index.js: a status code and the data to send,
  built by the `_200`, `_400`, `_404` and `_500` helpers.
*/
module Envelopes {
  import opened Js

  datatype Envelope = Envelope(status: int, data: Value)

  /** `{ error: msg }`. */
  function ErrorBody(msg: string): Value {
    Obj(map["error" := Str(msg)])
  }

  /** `_200(data)`. */
  function Ok(data: Value): Envelope {
    Envelope(200, data)
  }

  /** `_400(data)`. */
  function BadRequest(data: Value): Envelope {
    Envelope(400, data)
  }

  /** `_404(data)`; called without an argument, the data is `undefined`. */
  function NotFound(data: Value): Envelope {
    Envelope(404, data)
  }

  /** The message of every 500 envelope, spelled as in the source. */
  const ServerErrorMessage := "A server error occured."

  /** `_500()`: a fixed body that carries nothing of the error that caused it. */
  function ServerError(): Envelope {
    Envelope(500, ErrorBody(ServerErrorMessage))
  }

  /** A provider result sent back as `_200(result)`; an exception passes through. */
  function AsOk(a: Attempt<Value>): (r: Attempt<Envelope>)
    ensures r.Thrown? <==> a.Thrown?
    ensures r.Returned? ==> r.value == Ok(a.value)
  {
    match a
    case Returned(v) => Returned(Ok(v))
    case Thrown => Thrown
  }
}
