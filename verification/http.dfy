/** The replies the backend routes send: a status code and a JSON body. */
module Http {
  import opened Json

  const OkStatus: int := 200
  const CreatedStatus: int := 201
  const NoContentStatus: int := 204
  const BadRequestStatus: int := 400
  const NotFoundStatus: int := 404
  const ServerErrorStatus: int := 500

  datatype Reply = Reply(status: int, body: JsonValue)

  /** `JSONResponse(status_code=status, content={"signal": signal})`. */
  function SignalReply(status: int, signal: string): (r: Reply)
    ensures r.status == status && r.body.JObj? && r.body.fields.Keys == {"signal"}
    ensures r.body.fields["signal"] == JStr(signal)
  {
    Reply(status, JObj(map["signal" := JStr(signal)]))
  }

  /** The reply's body carries `signal` under the key "signal". */
  predicate Signals(r: Reply, signal: string) {
    r.body.JObj? && "signal" in r.body.fields && r.body.fields["signal"] == JStr(signal)
  }

  /** What the server answers when a route raises: a plain-text 500. */
  const Unhandled: Reply := Reply(ServerErrorStatus, JStr("Internal Server Error"))
}
