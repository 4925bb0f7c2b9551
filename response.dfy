/** The client's decoding of a server reply: a status discriminates a value
    reply from an error reply, and `apply` returns the value or throws the
    reason. The two status constants belong to the server and are
    parameters here. */
module Response {
  import opened Base

  /** A received message: every field may be missing. */
  datatype Message<T> = Message(status: Option<string>, value: Option<T>, reason: Option<string>)

  /** The server's status strings for the two kinds of reply. */
  datatype Statuses = Statuses(valueStatus: string, errorStatus: string)

  /** A decoded reply; a missing field of the message stays missing. */
  datatype Response<T> = ValueResponse(value: Option<T>) | ErrorResponse(reason: Option<string>)
  {
    /** `apply()`: the wrapped value, or an `ErrorResponseError` with the
        reason. */
    function Apply(): (r: Result<Option<T>>)
      ensures ValueResponse? ==> r == Ok(value)
      ensures ErrorResponse? ==> r == Throw(Error(ErrorResponseError, ReasonText(reason)))
    {
      match this
      case ValueResponse(v) => Ok(v)
      case ErrorResponse(reason) => Throw(Error(ErrorResponseError, ReasonText(reason)))
    }
  }

  /** The message of an error built from a possibly missing reason
      (`new Error(undefined)` has the empty message). */
  function ReasonText(reason: Option<string>): string {
    match reason
    case Some(s) => s
    case None => ""
  }

  predicate IsValueResponse<T>(message: Message<T>, statuses: Statuses) {
    message.status == Some(statuses.valueStatus)
  }

  predicate IsErrorResponse<T>(message: Message<T>, statuses: Statuses) {
    message.status == Some(statuses.errorStatus)
  }

  /** `Response.from(message)`: a value reply when the status is the value
      status (tested first), an error reply when it is the error status,
      and null otherwise, including when the status is missing. */
  function From<T>(message: Message<T>, statuses: Statuses): (r: Option<Response<T>>)
    ensures IsValueResponse(message, statuses) ==> r == Some(ValueResponse(message.value))
    ensures !IsValueResponse(message, statuses) && IsErrorResponse(message, statuses) ==>
      r == Some(ErrorResponse(message.reason))
    ensures r.None? <==> !IsValueResponse(message, statuses) && !IsErrorResponse(message, statuses)
    ensures message.status.None? ==> r.None?
  {
    if IsValueResponse(message, statuses) then Some(ValueResponse(message.value))
    else if IsErrorResponse(message, statuses) then Some(ErrorResponse(message.reason))
    else None
  }

  /** Decoding then applying: a value reply hands back exactly the value
      sent, an error reply throws exactly the reason sent. */
  lemma FromThenApply<T>(value: T, reason: string, statuses: Statuses)
    requires statuses.valueStatus != statuses.errorStatus
    ensures From(Message(Some(statuses.valueStatus), Some(value), None), statuses).value.Apply() == Ok(Some(value))
    ensures From<T>(Message(Some(statuses.errorStatus), None, Some(reason)), statuses).value.Apply()
      == Throw(Error(ErrorResponseError, reason))
  {
  }
}
