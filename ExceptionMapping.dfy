/**
 * The internal exception-mapping filter: whatever the wrapped service does, the
 * request ends in a response, and a failure becomes a fixed-status empty response.
 */
module ExceptionMapping {
  import opened Wrappers

  /** The failure classes the mapper distinguishes. */
  datatype Cause = RejectedExecution | Serialization | Unexpected(name: nat)

  datatype HttpResponseStatus = HttpResponseStatus(code: nat, reasonPhrase: string)

  const SERVICE_UNAVAILABLE := HttpResponseStatus(503, "Service Unavailable")
  const UNSUPPORTED_MEDIA_TYPE := HttpResponseStatus(415, "Unsupported Media Type")
  const INTERNAL_SERVER_ERROR := HttpResponseStatus(500, "Internal Server Error")

  const CONTENT_LENGTH := "content-length"
  const ZERO := "0"

  datatype Response = Response(status: HttpResponseStatus, headers: map<string, string>)

  /** How the single a service returns terminates. */
  datatype Completion = Succeeded(response: Response) | Failed(cause: Cause)

  /** Calling `handle` on the delegate: it returns a single, or throws before returning one. */
  datatype Invocation = Returned(single: Completion) | Threw(thrown: Cause)

  /** `newErrorResponse`: the status names the failure class; the body is declared empty. */
  function NewErrorResponse(cause: Cause): (r: Response)
    ensures r.status == SERVICE_UNAVAILABLE <==> cause.RejectedExecution?
    ensures r.status == UNSUPPORTED_MEDIA_TYPE <==> cause.Serialization?
    ensures r.status == INTERNAL_SERVER_ERROR <==> cause.Unexpected?
    ensures CONTENT_LENGTH in r.headers && r.headers[CONTENT_LENGTH] == ZERO
    ensures r.headers.Keys == {CONTENT_LENGTH}
  {
    var status :=
      if cause.RejectedExecution? then SERVICE_UNAVAILABLE
      else if cause.Serialization? then UNSUPPORTED_MEDIA_TYPE
      else INTERNAL_SERVER_ERROR;
    Response(status, map[CONTENT_LENGTH := ZERO])
  }

  /** The failure an invocation ends in, whether thrown at once or delivered through the single. */
  function FailureOf(invocation: Invocation): Option<Cause> {
    match invocation
    case Threw(cause) => Some(cause)
    case Returned(Failed(cause)) => Some(cause)
    case Returned(Succeeded(_)) => None
  }

  /**
   * The mapper's `handle`: a synchronous throw becomes a failed single, and
   * `onErrorReturn` turns any failure into the error response, so it always answers.
   */
  function Handle(invocation: Invocation): (r: Response)
    ensures invocation == Returned(Succeeded(r)) || (FailureOf(invocation).Some? && r == NewErrorResponse(FailureOf(invocation).value))
    ensures invocation.Returned? && invocation.single.Succeeded? ==> r == invocation.single.response
  {
    var single := match invocation
      case Returned(single) => single
      case Threw(cause) => Failed(cause);
    match single
    case Succeeded(response) => response
    case Failed(cause) => NewErrorResponse(cause)
  }

  /** A failure thrown synchronously is answered exactly as the same failure delivered asynchronously. */
  lemma SyncAndAsyncFailuresMapAlike(cause: Cause)
    ensures Handle(Threw(cause)) == Handle(Returned(Failed(cause))) == NewErrorResponse(cause)
  {
  }
}
