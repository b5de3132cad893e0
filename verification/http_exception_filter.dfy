/** The catch-all exception filter that turns anything thrown by a request
    handler into an HTTP error reply (src/shared/filters/http-exception.filter.ts),
    together with the framework exceptions the core throws. */
module HttpExceptionFilter {
  import opened Wrappers
  import opened Elements

  /** A `message` field: a string, or the list of strings that validation errors carry. */
  datatype Message = TextMessage(text: string) | MessageList(items: seq<string>)

  /** JavaScript truthiness of a message: a string must be non-empty, an array is always truthy. */
  predicate MessageTruthy(m: Option<Message>) {
    m.Some? && (m.value.TextMessage? ==> m.value.text != "")
  }

  /** What `HttpException.getResponse()` returns: an object, or a bare string. */
  datatype ExceptionResponse =
    | ObjectResponse(message: Option<Message>, error: Option<string>)
    | TextResponse(text: string)

  /** Anything a handler can throw. */
  datatype Thrown =
    | HttpException(status: int, response: ExceptionResponse)
    | PlainError(message: string)
    | NonErrorValue

  const InternalServerError: int := 500
  const DefaultMessage: string := "Internal server error"
  const DefaultError: string := "Internal Server Error"

  /** The framework's `NotFoundException(message)`. */
  function NotFoundException(message: string): (t: Thrown)
    ensures t.HttpException? && t.status == 404
  {
    HttpException(404, ObjectResponse(Some(TextMessage(message)), Some("Not Found")))
  }

  /** The framework's `ForbiddenException(message)`. */
  function ForbiddenException(message: string): (t: Thrown)
    ensures t.HttpException? && t.status == 403
  {
    HttpException(403, ObjectResponse(Some(TextMessage(message)), Some("Forbidden")))
  }

  /** The JSON body of an error reply. */
  datatype ErrorBody = ErrorBody(statusCode: int, message: Message, error: string, timestamp: string)

  /** The reply: the status line and its body. */
  datatype ErrorReply = ErrorReply(status: int, body: ErrorBody)

  /** `catch(exception, host)`; `now` is the ISO timestamp of the reply. */
  function Catch(exception: Thrown, now: string): (r: ErrorReply)
    // the body always repeats the status that was set
    ensures r.body.statusCode == r.status
    ensures r.body.timestamp == now
    // status: the exception's own for an HttpException, 500 for anything else
    ensures exception.HttpException? ==> r.status == exception.status
    ensures !exception.HttpException? ==> r.status == InternalServerError
    // error: the default unless an object response carries a truthy one
    ensures r.body.error != DefaultError ==>
      && exception.HttpException? && exception.response.ObjectResponse?
      && Truthy(exception.response.error) && r.body.error == exception.response.error.value
    ensures (exception.HttpException? && exception.response.ObjectResponse?
             && Truthy(exception.response.error)) ==> r.body.error == exception.response.error.value
    // message
    ensures exception.HttpException? && exception.response.ObjectResponse? ==>
      r.body.message == (if MessageTruthy(exception.response.message)
                         then exception.response.message.value else TextMessage(DefaultMessage))
    ensures exception.HttpException? && exception.response.TextResponse? ==>
      r.body.message == TextMessage(exception.response.text)
    ensures exception.PlainError? ==> r.body.message == TextMessage(exception.message)
    ensures exception.NonErrorValue? ==>
      r == ErrorReply(InternalServerError, ErrorBody(InternalServerError, TextMessage(DefaultMessage), DefaultError, now))
  {
    var (status, message, error) :=
      match exception
      case HttpException(s, ObjectResponse(m, e)) =>
        (s, if MessageTruthy(m) then m.value else TextMessage(DefaultMessage),
         if Truthy(e) then e.value else DefaultError)
      case HttpException(s, TextResponse(t)) => (s, TextMessage(t), DefaultError)
      case PlainError(m) => (InternalServerError, TextMessage(m), DefaultError)
      case NonErrorValue => (InternalServerError, TextMessage(DefaultMessage), DefaultError);
    ErrorReply(status, ErrorBody(status, message, error, now))
  }

  /** A string response is passed through verbatim, even when it is empty:
      only the object form falls back to the default message. */
  lemma EmptyTextResponseIsKept(status: int, now: string)
    ensures Catch(HttpException(status, TextResponse("")), now).body.message == TextMessage("")
    ensures Catch(HttpException(status, ObjectResponse(Some(TextMessage("")), None)), now).body.message
              == TextMessage(DefaultMessage)
  {
  }

  /** The two exceptions the core throws reach the client with their own status,
      their message and the framework's error phrase. */
  lemma FrameworkExceptionsReply(message: string, now: string)
    requires message != ""
    ensures Catch(NotFoundException(message), now).body
              == ErrorBody(404, TextMessage(message), "Not Found", now)
    ensures Catch(ForbiddenException(message), now).body
              == ErrorBody(403, TextMessage(message), "Forbidden", now)
  {
  }
}
