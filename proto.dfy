/**
 * The data carried between client and server: runtime classes, argument values,
 * errors, the response-code taxonomy, and the request and response envelopes.
 */
module Proto {
  import opened Wrappers

  /** A runtime class. Primitive classes (`int.class`) are kept apart from reference classes. */
  datatype TypeTag = Primitive(name: string) | ClassType(name: string)

  const IntClass: TypeTag := Primitive("int")
  const IntegerClass: TypeTag := ClassType("java.lang.Integer")
  const StringClass: TypeTag := ClassType("java.lang.String")

  /**
   * An argument or a return value. Every non-null value is an object: an `int`
   * argument travels boxed, as a `java.lang.Integer`.
   */
  datatype Value =
    | Null
    | Integer(n: int)
    | Str(s: string)
    | Instance(className: string, id: nat)

  /** `getClass()`: defined on non-null values only, and never a primitive class. */
  function RuntimeClass(v: Value): (t: TypeTag)
    requires !v.Null?
    ensures t.ClassType?
  {
    match v
    case Integer(_) => IntegerClass
    case Str(_) => StringClass
    case Instance(c, _) => ClassType(c)
  }

  /** An application error raised by a service method. */
  datatype Throwable = Throwable(className: string, message: string)

  /** Response codes: the handler names ServiceNotFound, MethodNotFound and ServerError; the others come from the my-rpc-core enum. */
  datatype ResponseCode =
    | Success
    | Failure
    | ServiceNotFound
    | MethodNotFound
    | MethodThrowing
    | ServerError

  /** A call: the service, the method, and the positional arguments (the array itself may be null). */
  datatype Request = Request(serviceName: string, methodName: string, args: Option<seq<Value>>)

  /** An argument array as a list, with a null array read as no arguments. */
  function ArgumentList(arguments: Option<seq<Value>>): seq<Value>
  {
    match arguments
    case None => []
    case Some(a) => a
  }

  /** The argument list a request carries. */
  function Arguments(request: Request): seq<Value>
  {
    ArgumentList(request.args)
  }

  /**
   * The three ways a response is built: `RpcResponse.succeed(value)`,
   * `RpcResponse.fail(code)` and `RpcResponse.fail(throwable)`. What code the
   * last one attaches is decided by the response class, not by the handler.
   */
  datatype Response =
    | Succeed(value: Value)
    | Fail(code: ResponseCode)
    | FailWith(cause: Throwable)
}
