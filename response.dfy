/**
 * The JSON envelopes every endpoint answers with
 * (`backend/src/utils/response.js`), and the two ways an Express middleware
 * can end: passing the request on or answering it.
 */
module Response {
  import opened Common

  /** The JSON body; None is a key left out of the object. */
  datatype Payload = Payload(ok: bool, data: Option<JsValue>, message: Option<string>, details: Option<seq<string>>)

  /** An HTTP answer: status code and JSON body. */
  datatype Reply = Reply(status: int, payload: Payload)

  /** A middleware either calls `next()` (with the error, for an error handler) or answers. */
  datatype Outcome = CallNext | Respond(reply: Reply)

  /**
   * `sendSuccess(res, data, message)`: status 200, `ok: true`, `data` with
   * null for null or undefined, and `message` only when it is non-empty.
   */
  function SendSuccess(data: JsValue, message: Option<string>): (r: Reply)
    ensures r.status == 200 && r.payload.ok && r.payload.details == None
    ensures r.payload.data == Some(if data.Undefined? || data.Null? then Null else data)
    ensures r.payload.message.Some? <==> Present(message)
    ensures r.payload.message.Some? ==> r.payload.message == message
  {
    Reply(200, Payload(true, Some(Coalesce(data, Null)), if Present(message) then message else None, None))
  }

  /**
   * `sendError(res, status, message, details)`: the given status, `ok: false`,
   * the message, and `details` only when given. Any array is truthy, so an
   * empty list is still included.
   */
  function SendError(status: int, message: string, details: Option<seq<string>>): (r: Reply)
    ensures r.status == status && !r.payload.ok
    ensures r.payload.data == None
    ensures r.payload.message == Some(message)
    ensures r.payload.details == details
  {
    var payload := Payload(false, None, Some(message), None);
    Reply(status, if details.Some? then payload.(details := details) else payload)
  }

  /** The two envelopes can never be confused: success and error differ in `ok`. */
  lemma EnvelopesDiffer(data: JsValue, message: Option<string>, status: int, text: string, details: Option<seq<string>>)
    ensures SendSuccess(data, message).payload != SendError(status, text, details).payload
  {
  }
}
