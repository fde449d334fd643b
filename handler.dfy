/**
 * The request handler: it runs the dispatch pipeline inline and hands the
 * single response it builds to a response sender.
 */
module Handler {
  import opened Wrappers
  import opened Proto
  import opened Registry
  import opened Signature
  import opened Pipeline

  /** The channel back to the caller; `sent` is everything handed to it so far. */
  class ResponseSender {
    var sent: seq<Response>

    constructor ()
      ensures sent == []
    {
      sent := [];
    }

    method Send(response: Response)
      modifies this
      ensures sent == old(sent) + [response]
    {
      sent := sent + [response];
    }
  }

  /**
   * Fills a fresh array with the runtime class of each argument, in order; a
   * null argument stops the loop, as `getClass()` on it would throw.
   */
  method DeriveArgumentTypes(arguments: Option<seq<Value>>) returns (argumentTypes: array<TypeTag>, nullAt: Option<nat>)
    ensures fresh(argumentTypes)
    ensures argumentTypes.Length == |ArgumentList(arguments)|
    ensures match RuntimeTypes(ArgumentList(arguments))
              case Derived(types) => nullAt == None && argumentTypes[..] == types
              case NullAt(i) => nullAt == Some(i)
  {
    var args := ArgumentList(arguments);
    var argumentCount := |args|;
    argumentTypes := new TypeTag[argumentCount];
    RuntimeTypesCorrect(args);
    var i := 0;
    while i < argumentCount
      invariant 0 <= i <= argumentCount
      invariant NoNullArgument(args[..i])
      invariant forall k :: 0 <= k < i ==> !args[k].Null? && argumentTypes[k] == RuntimeClass(args[k])
    {
      if args[i].Null? {
        assert args[..i + 1][i].Null?;
        return argumentTypes, Some(i);
      }
      argumentTypes[i] := RuntimeClass(args[i]);
      i := i + 1;
    }
    assert args[..i] == args;
    nullAt := None;
  }

  class SimpleRequestHandler {
    const serviceProvider: ServiceProvider

    constructor (serviceProvider: ServiceProvider)
      ensures this.serviceProvider == serviceProvider
    {
      this.serviceProvider := serviceProvider;
    }

    /**
     * Handles one request: at most one response is sent, the one `Dispatch`
     * names, and none only when a null argument makes the handler throw.
     */
    method HandleRequest(request: Request, responseSender: ResponseSender) returns (completion: Completion)
      modifies responseSender
      ensures completion == Finish(Resolve(serviceProvider.services, request))
      ensures responseSender.sent == old(responseSender.sent) + Sends(Resolve(serviceProvider.services, request))
      ensures completion.Returned? <==> |responseSender.sent| == |old(responseSender.sent)| + 1
      ensures completion.ThrewNullPointer? <==> responseSender.sent == old(responseSender.sent)
    {
      var service := serviceProvider.GetService(request.serviceName);
      if service.None? {
        responseSender.Send(Fail(ServiceNotFound));
        return Returned;
      }

      var arguments := request.args;
      var argumentTypes, nullAt := DeriveArgumentTypes(arguments);
      if nullAt.Some? {
        return ThrewNullPointer(nullAt.value);
      }

      var response: Response;
      var key := MethodKey(request.methodName, argumentTypes[..]);
      if key !in service.value {
        response := Fail(MethodNotFound);
      } else {
        var target := service.value[key];
        var outcome := target(Arguments(request));
        match outcome {
          case Returns(returnValue) =>
            response := Succeed(returnValue);
          case Inaccessible =>
            response := Fail(ServerError);
          case Throws(cause) =>
            response := FailWith(cause);
        }
      }

      responseSender.Send(response);
      completion := Returned;
    }
  }
}
