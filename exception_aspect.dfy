/**
 * GlobalExceptionAspect: after any controller method throws, the request,
 * the trace id, the call site, the serializable arguments and the
 * exception class are put in the mapped diagnostic context (MDC), one
 * error record is written with that context, and the MDC is cleared. The
 * advice never throws and never changes the exception.
 */
module GlobalExceptionAspect {
  import opened JavaLang
  import opened Entities

  /** The parts of the current HTTP request the advice reads. */
  datatype Request = Request(url: string, httpMethod: string, forwardedFor: Option<string>, remoteAddr: string)

  const SERIALIZATION_FAILED: string := "参数序列化失败"

  /** The thread's mapped diagnostic context. */
  class Mdc {
    var entries: map<MdcKey, string>

    constructor ()
      ensures entries == map[]
    {
      entries := map[];
    }
  }

  /** One error log line together with the context attached to it. */
  datatype ErrorRecord = ErrorRecord(context: map<MdcKey, string>, className: string, methodName: string, message: Option<string>)

  /** An X-Forwarded-For value a proxy filled in. */
  predicate Forwarded(header: Option<string>)
  {
    HasText(header) && !EqualsIgnoreCase(header.value, "unknown")
  }

  /** getIpAddress: the forwarded address when a proxy gave one, the peer's address otherwise. */
  function ClientIp(req: Request): (ip: string)
    ensures Forwarded(req.forwardedFor) ==> ip == req.forwardedFor.value
    ensures !Forwarded(req.forwardedFor) ==> ip == req.remoteAddr
  {
    if req.forwardedFor == None || req.forwardedFor.value == "" || EqualsIgnoreCase("unknown", req.forwardedFor.value) then
      req.remoteAddr
    else req.forwardedFor.value
  }

  /** A placeholder header in any letter case is ignored. */
  lemma UnknownHeaderIsIgnored(req: Request)
    requires req.forwardedFor.Some? && Lower(req.forwardedFor.value) == "unknown"
    ensures ClientIp(req) == req.remoteAddr
  {
    assert Lower("unknown") == "unknown";
  }

  /** The arguments that are not request, response, upload or binding objects. */
  predicate Serializable(a: Arg)
  {
    !(a.ServletRequestArg? || a.ServletResponseArg? || a.MultipartFileArg? || a.BindingResultArg?)
  }

  /** The arguments kept for serialization, in call order. */
  function KeptArgs(args: seq<Arg>): (kept: seq<Arg>)
    ensures |kept| <= |args|
    ensures forall a :: a in kept <==> a in args && Serializable(a)
  {
    if args == [] then []
    else KeptArgs(args[..|args| - 1]) + (if Serializable(args[|args| - 1]) then [args[|args| - 1]] else [])
  }

  /** Keeping distributes over a split of the argument list. */
  lemma {:induction false} KeptArgsAppend(a: seq<Arg>, b: seq<Arg>)
    ensures KeptArgs(a + b) == KeptArgs(a) + KeptArgs(b)
    decreases |b|
  {
    if b == [] {
      assert a + b == a;
    } else {
      assert (a + b)[..|a + b| - 1] == a + b[..|b| - 1];
      KeptArgsAppend(a, b[..|b| - 1]);
    }
  }

  /** Arguments that are all serializable are kept as they are. */
  lemma {:induction false} KeptArgsOfSerializable(args: seq<Arg>)
    requires forall i :: 0 <= i < |args| ==> Serializable(args[i])
    ensures KeptArgs(args) == args
    decreases |args|
  {
    if args != [] {
      KeptArgsOfSerializable(args[..|args| - 1]);
      assert args[..|args| - 1] + [args[|args| - 1]] == args;
    }
  }

  /** The loop over joinPoint.getArgs() that skips what cannot be serialized. */
  method SerializableArgs(args: seq<Arg>) returns (kept: seq<Arg>)
    ensures kept == KeptArgs(args)
  {
    kept := [];
    for k := 0 to |args|
      invariant kept == KeptArgs(args[..k])
    {
      assert args[..k + 1][..k] == args[..k];
      if Serializable(args[k]) {
        kept := kept + [args[k]];
      }
    }
    assert args[..|args|] == args;
  }

  /** What method_args holds: the serializer's output, or the placeholder when it failed. */
  function ArgsJson(serialized: Option<string>): (json: string)
    ensures serialized.Some? ==> json == serialized.value
    ensures serialized.None? ==> json == SERIALIZATION_FAILED
  {
    if serialized.Some? then serialized.value else SERIALIZATION_FAILED
  }

  /** The fully qualified name getClass().getName() gives for each class. */
  function ClassName(cls: ExceptionClass): string
  {
    match cls
    case IllegalArgumentException => "java.lang.IllegalArgumentException"
    case NumberFormatException => "java.lang.NumberFormatException"
    case IllegalStateException => "java.lang.IllegalStateException"
    case IllegalAccessException => "java.lang.IllegalAccessException"
    case AccessDeniedException => "java.nio.file.AccessDeniedException"
    case RuntimeException => "java.lang.RuntimeException"
    case NoSuchElementException => "java.util.NoSuchElementException"
    case NullPointerException => "java.lang.NullPointerException"
    case ArrayIndexOutOfBoundsException => "java.lang.ArrayIndexOutOfBoundsException"
    case ClassCastException => "java.lang.ClassCastException"
    case IncorrectResultSizeDataAccessException => "org.springframework.dao.IncorrectResultSizeDataAccessException"
    case AmqpException => "org.springframework.amqp.AmqpException"
    case MessagingException => "org.springframework.messaging.MessagingException"
    case DataAccessResourceFailureException => "org.springframework.dao.DataAccessResourceFailureException"
  }

  /** The MDC keys the advice writes. */
  datatype MdcKey = RequestUrl | RequestMethod | ClientIpKey | TraceId | ClassNameKey | MethodName | MethodArgs | ExceptionClassKey

  /** The name each key is logged under. */
  function KeyName(k: MdcKey): string
  {
    match k
    case RequestUrl => "request_url"
    case RequestMethod => "request_method"
    case ClientIpKey => "client_ip"
    case TraceId => "traceId"
    case ClassNameKey => "class_name"
    case MethodName => "method_name"
    case MethodArgs => "method_args"
    case ExceptionClassKey => "exception_class"
  }

  /** The trace id the record carries: the one already in the MDC, or the fresh one. */
  function CurrentTraceId(entries: map<MdcKey, string>, freshTraceId: string): (id: string)
    ensures TraceId in entries && entries[TraceId] != "" ==> id == entries[TraceId]
    ensures !(TraceId in entries && entries[TraceId] != "") ==> id == freshTraceId
  {
    if TraceId !in entries || entries[TraceId] == "" then freshTraceId else entries[TraceId]
  }

  /**
   * logAfterThrowing. `request` is the bound request, None outside one;
   * `freshTraceId` stands for the random UUID without dashes;
   * `serialize` is Jackson on the kept arguments, None when it refuses
   * them. Returns the record written; the MDC ends empty.
   */
  method LogAfterThrowing(mdc: Mdc, request: Option<Request>, className: string, methodName: string,
                          args: seq<Arg>, serialize: seq<Arg> -> Option<string>, e: Exception, freshTraceId: string)
    returns (record: ErrorRecord)
    modifies mdc
    ensures mdc.entries == map[]
    ensures record.className == className && record.methodName == methodName && record.message == e.message
    ensures TraceId in record.context && record.context[TraceId] == CurrentTraceId(old(mdc.entries), freshTraceId)
    ensures ClassNameKey in record.context && record.context[ClassNameKey] == className
    ensures MethodName in record.context && record.context[MethodName] == methodName
    ensures MethodArgs in record.context && record.context[MethodArgs] == ArgsJson(serialize(KeptArgs(args)))
    ensures ExceptionClassKey in record.context && record.context[ExceptionClassKey] == ClassName(e.cls)
    ensures request.Some? ==>
      (RequestUrl in record.context && record.context[RequestUrl] == request.value.url &&
       RequestMethod in record.context && record.context[RequestMethod] == request.value.httpMethod &&
       ClientIpKey in record.context && record.context[ClientIpKey] == ClientIp(request.value))
    ensures request.None? ==> (RequestUrl in record.context <==> RequestUrl in old(mdc.entries))
    ensures request.None? ==> (ClientIpKey in record.context <==> ClientIpKey in old(mdc.entries))
  {
    var context := mdc.entries;
    if request.Some? {
      context := context[RequestUrl := request.value.url];
      context := context[RequestMethod := request.value.httpMethod];
      context := context[ClientIpKey := ClientIp(request.value)];
    }
    if TraceId !in context || context[TraceId] == "" {
      context := context[TraceId := freshTraceId];
    }
    var kept := SerializableArgs(args);
    var argsJson := ArgsJson(serialize(kept));
    context := context[ClassNameKey := className];
    context := context[MethodName := methodName];
    context := context[MethodArgs := argsJson];
    context := context[ExceptionClassKey := ClassName(e.cls)];
    mdc.entries := context;
    record := ErrorRecord(mdc.entries, className, methodName, e.message);
    mdc.entries := map[];
  }
}
