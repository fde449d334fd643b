/**
 * The dispatch pipeline as a function of the provider's table and the request:
 * service lookup, signature derivation, exact method resolution, invocation,
 * and the classification of the outcome into one response.
 */
module Pipeline {
  import opened Wrappers
  import opened Proto
  import opened Registry
  import opened Signature

  /** Where a request's handling ends. */
  datatype Path =
    | NoService                                  // no service under the requested name
    | NullArgument(index: nat)                   // `getClass()` on a null argument threw
    | NoMethod(key: MethodKey)                   // no method with this exact name and signature
    | Invoked(key: MethodKey, outcome: Outcome)  // the resolved method ran with this outcome

  /** How `handleRequest` itself finishes: normally, or by the escaping null-pointer exception. */
  datatype Completion = Returned | ThrewNullPointer(index: nat)

  /** The pipeline, stage by stage, up to the point where it stops. */
  function Resolve(services: map<string, Service>, request: Request): Path
  {
    if request.serviceName !in services then NoService
    else
      var service := services[request.serviceName];
      match RuntimeTypes(Arguments(request))
      case NullAt(i) => NullArgument(i)
      case Derived(types) =>
        var key := MethodKey(request.methodName, types);
        if key !in service then NoMethod(key)
        else Invoked(key, service[key](Arguments(request)))
  }

  /** The response built for an invocation's outcome. */
  function Classify(outcome: Outcome): Response
  {
    match outcome
    case Returns(v) => Succeed(v)
    case Inaccessible => Fail(ServerError)
    case Throws(cause) => FailWith(cause)
  }

  /** The one response a path sends, or none when the handler threw before sending. */
  function Respond(path: Path): Option<Response>
  {
    match path
    case NoService => Some(Fail(ServiceNotFound))
    case NullArgument(_) => None
    case NoMethod(_) => Some(Fail(MethodNotFound))
    case Invoked(_, outcome) => Some(Classify(outcome))
  }

  function Finish(path: Path): Completion
  {
    if path.NullArgument? then ThrewNullPointer(path.index) else Returned
  }

  /** The response the handler sends for `request`, if any. */
  function Dispatch(services: map<string, Service>, request: Request): Option<Response>
  {
    Respond(Resolve(services, request))
  }

  /** The responses a path appends to the sender's log. */
  function Sends(path: Path): (sent: seq<Response>)
    ensures |sent| <= 1
    ensures |sent| == 1 <==> !path.NullArgument?
  {
    match Respond(path)
    case Some(r) => [r]
    case None => []
  }
}
