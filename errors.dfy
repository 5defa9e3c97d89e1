/** The ways an operation of the controller can fail. */
module Errors {
  import Json

  datatype Error =
    | Thrown(message: string)          // an `Error` the controller's own code throws
    | Malformed(path: seq<Json.Step>)  // a read of a field that a received document lacks
    | Remote(payload: Json.Json)       // a failure reported by the remote connector
}
