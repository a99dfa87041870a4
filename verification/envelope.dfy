/** The response envelope shared by the three HTTP handlers: every outcome is a
    status code and a JSON body, and every error body is the one-field object
    {"error": message}. JSON is kept as a value, never as bytes. */
module Envelope {

  datatype Option<+T> = None | Some(value: T)

  /** The result of a call into code outside the model (the document store, the
      shell): either its value or the message of the exception it raised. */
  datatype Reply<+T> = Ok(value: T) | Raised(message: string)

  /** A stored document's fields, as the store's `to_dict()` gives them. */
  type Record = map<string, string>

  /** A JSON response body: nothing, one object, or an array of objects. */
  datatype Body = NoBody | Object(fields: Record) | Array(items: seq<Record>)

  datatype Response = Response(status: int, body: Body)

  const NameInvalid: string := "name is invalid"
  const NameNotFound: string := "name not found"
  const MethodNotAllowed: string := "Method not allowed"

  /** The error envelope: `status` with a body holding a single "error" string. */
  function ErrorResponse(status: int, message: string): (r: Response)
    ensures r.status == status && r.body.Object?
    ensures r.body.fields.Keys == {"error"} && r.body.fields["error"] == message
  {
    Response(status, Object(map["error" := message]))
  }
}
