/**
 * GlobalExceptionHandler: the HTTP response an exception escaping a
 * controller turns into. Spring picks the handler of the closest
 * superclass, so NumberFormatException goes where IllegalArgumentException
 * goes. AccessDeniedException is java.nio.file's, the class the handler
 * names.
 */
module GlobalExceptionHandler {
  import opened JavaLang
  import TaskService

  /** A status with a body that may be null. */
  datatype ErrorResponse = ErrorResponse(status: nat, body: Option<string>)

  /** The classes whose handler answers with their own message. */
  predicate ClientError(cls: ExceptionClass)
  {
    cls in {IllegalArgumentException, NumberFormatException, IllegalStateException,
            AccessDeniedException, IllegalAccessException}
  }

  function Handle(e: Exception): (r: ErrorResponse)
    ensures r.status == 404 <==> e.cls == IllegalArgumentException || e.cls == NumberFormatException
    ensures r.status == 401 <==> e.cls == IllegalStateException
    ensures r.status == 403 <==> e.cls == AccessDeniedException || e.cls == IllegalAccessException
    ensures r.status == 500 <==> !ClientError(e.cls)
    ensures ClientError(e.cls) ==> r.body == e.message
    ensures !ClientError(e.cls) ==>
      (r.body.Some? && "Internal Server Error: " <= r.body.value &&
       r.body.value[|"Internal Server Error: "|..] == Str(e.message))
  {
    match e.cls
    case IllegalArgumentException => ErrorResponse(404, e.message)
    case NumberFormatException => ErrorResponse(404, e.message)
    case IllegalStateException => ErrorResponse(401, e.message)
    case AccessDeniedException => ErrorResponse(403, e.message)
    case IllegalAccessException => ErrorResponse(403, e.message)
    case _ => ErrorResponse(500, Some("Internal Server Error: " + Str(e.message)))
  }

  /** A request whose id does not parse is answered as a missing resource. */
  lemma UnparsableIdIsNotFound(s: string)
    requires ParseLong(s).Throw?
    ensures Handle(ParseLong(s).exception) == ErrorResponse(404, ParseLong(s).exception.message)
  {
  }

  /**
   * The two permission refusals answer differently: a document the caller
   * may not save is 403, a task the caller may not edit is 401.
   */
  lemma PermissionRefusalsDiffer()
    ensures Handle(Exception(IllegalAccessException, Some("You don't have permission to save this document."))).status == 403
    ensures Handle(Exception(IllegalStateException, Some(TaskService.NO_PERMISSION))).status == 401
  {
  }
}
