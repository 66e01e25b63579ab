/** The success/failure classification every call goes through (`Check`),
    and the exception it raises (`TwitchAlertsException`). */
module Errors {
  import opened Wrappers
  import opened Conversions
  import opened Rest
  import opened Models

  /** `TwitchAlertsException`: the status of the failed response, its raw
      body, the parsed error code and message, the request, and the
      transport's own exception. */
  datatype TwitchAlertsException = TwitchAlertsException(
    status: int,
    restResult: string,
    restError: Option<string>,
    restMessage: Option<string>,
    restRequest: Request,
    inner: Option<string>)

  /** What an operation can raise instead of returning. */
  datatype ClientError =
    | Api(exception: TwitchAlertsException)  // raised by Check
    | NullReference                          // a null payload was dereferenced
    | Conversion(reason: ConvertError)       // Convert.ToInt32 rejected a donation id
    | FuelExhausted                          // the pagination loop was still running when the model's bound ran out

  /** The exception constructor: keeps the raw body verbatim and takes its
      message from `error_description`, falling back to `message`. */
  function NewTwitchAlertsException(status: int, content: string, request: Request, inner: Option<string>, parsed: ErrorObject): (e: TwitchAlertsException)
    ensures e.status == status && e.restResult == content && e.restRequest == request && e.inner == inner
    ensures e.restError == parsed.error
    ensures parsed.errorDescription.Some? ==> e.restMessage == parsed.errorDescription
    ensures parsed.errorDescription.None? ==> e.restMessage == parsed.message
    ensures e.restMessage.None? <==> parsed.errorDescription.None? && parsed.message.None?
  {
    var message := match parsed.errorDescription
      case Some(_) => parsed.errorDescription
      case None => parsed.message;
    TwitchAlertsException(status, content, parsed.error, message, request, inner)
  }

  /** The transport and the error-body deserializer, both supplied from outside. */
  datatype Transport<T> = Transport(send: Request -> Response<T>, parseError: string -> ErrorObject)

  predicate Succeeded<T>(response: Response<T>) {
    response.status == StatusOK && response.errorException.None?
  }

  /** `Check`: a response fails when its status is not OK or the transport
      reported an exception; the failure carries the raw body verbatim. */
  function Check<T>(request: Request, response: Response<T>, parseError: string -> ErrorObject): (failure: Option<TwitchAlertsException>)
    ensures failure.None? <==> response.status == StatusOK && response.errorException.None?
    ensures failure.Some? ==>
      && failure.value.restResult == response.content
      && failure.value.status == response.status
      && failure.value.inner == response.errorException
      && failure.value.restRequest == request
      && failure.value.restError == parseError(response.content).error
      && failure.value.restMessage ==
           (if parseError(response.content).errorDescription.Some? then parseError(response.content).errorDescription
            else parseError(response.content).message)
  {
    if response.status != StatusOK || response.errorException.Some? then
      Some(NewTwitchAlertsException(response.status, response.content, request, response.errorException, parseError(response.content)))
    else None
  }

  /** `Execute<T>`: send, check, and hand back the (possibly null) payload. */
  function Execute<T>(request: Request, transport: Transport<T>): (r: Result<Option<T>, ClientError>)
    ensures r.Success? <==> Succeeded(transport.send(request))
    ensures r.Success? ==> r.value == transport.send(request).data
    ensures r.Failure? ==> r.error.Api? && r.error.exception.restResult == transport.send(request).content
    ensures r.Failure? ==> Check(request, transport.send(request), transport.parseError) == Some(r.error.exception)
  {
    var response := transport.send(request);
    match Check(request, response, transport.parseError)
    case Some(e) => Failure(Api(e))
    case None => Success(response.data)
  }
}
