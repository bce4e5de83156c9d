/**
 * What an Express handler or middleware does with a request: respond with
 * a status and a JSON body, or pass the request on with `next()`.
 */
module Http {
  import opened JsValues

  /** What `res.status(status).json(body)` sends. */
  datatype Reply = Reply(status: int, body: JsValue)

  /** What a stage does: call `next()`, or respond and end the chain. */
  datatype Step = Next | Respond(reply: Reply)

  /** A reply whose body is `{ error: error }`. */
  function ErrorReply(status: int, error: JsValue): Reply
  {
    Reply(status, Obj([Prop("error", error)]))
  }

  /** A reply whose body is `{ message: message }`. */
  function MessageReply(status: int, message: string): Reply
  {
    Reply(status, Obj([Prop("message", Str(message))]))
  }
}
