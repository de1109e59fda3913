/** The last-resort error handler (`backend/src/middlewares/error.middleware.js`). */
module ErrorMiddleware {
  import opened Common
  import opened Response

  /** A thrown error: `status`, `message` and `details` as far as they are set. */
  datatype ThrownError = ThrownError(status: Option<int>, message: Option<string>, details: Option<seq<string>>)

  /**
   * `errorMiddleware(err, ...)`: when headers are already out the error goes
   * on to `next(err)`; otherwise the answer carries its status (500 when
   * missing or 0), its message ("Internal Server Error" when missing or
   * empty) and its details unchanged.
   */
  function HandleError(err: ThrownError, headersSent: bool): (r: Outcome)
    ensures r.CallNext? <==> headersSent
    ensures r.Respond? ==> r.reply.status == (if err.status.Some? && err.status.value != 0 then err.status.value else 500)
    ensures r.Respond? ==>
      r.reply.payload.message == Some(if Present(err.message) then err.message.value else "Internal Server Error")
    ensures r.Respond? ==> r.reply.payload.details == err.details && !r.reply.payload.ok
  {
    if headersSent then CallNext
    else
      var status := if err.status.Some? && err.status.value != 0 then err.status.value else 500;
      var message := if Present(err.message) then err.message.value else "Internal Server Error";
      Respond(SendError(status, message, err.details))
  }

  /** The error a service throws as `createHttpError(status, message, details)`. */
  function FromHttpError(e: HttpError): ThrownError
  {
    ThrownError(Some(e.status), Some(e.message), e.details)
  }

  /** A service's HttpError with a non-zero status and a message reaches the client as it was thrown. */
  lemma HttpErrorReachesClient(e: HttpError)
    requires e.status != 0 && e.message != ""
    ensures HandleError(FromHttpError(e), false) == Respond(SendError(e.status, e.message, e.details))
  {
  }
}
