/**
 * What the dispatch pipeline promises, stated against a reference description
 * that does not go through the step-by-step derivation: a request is resolvable
 * when its service exists, none of its arguments is null, and the service has a
 * method whose name and parameter classes equal the request's method name and
 * its arguments' runtime classes.
 */
module DispatchProperties {
  import opened Wrappers
  import opened Proto
  import opened Registry
  import opened Signature
  import opened Pipeline

  /** The key exact resolution looks for: the method name and the arguments' classes. */
  ghost function RequestedKey(request: Request): MethodKey
    requires NoNullArgument(Arguments(request))
  {
    MethodKey(request.methodName, Classes(Arguments(request)))
  }

  ghost predicate Resolvable(services: map<string, Service>, request: Request)
  {
    && request.serviceName in services
    && NoNullArgument(Arguments(request))
    && RequestedKey(request) in services[request.serviceName]
  }

  /** What the resolved method does when called with the request's arguments. */
  ghost function Invocation(services: map<string, Service>, request: Request): Outcome
    requires Resolvable(services, request)
  {
    services[request.serviceName][RequestedKey(request)](Arguments(request))
  }

  /**
   * Lookup comes first: a request naming an unknown service ends at the lookup,
   * whatever its method name and arguments (even null ones), and it is the only
   * kind of request answered with SERVICE_NOT_FOUND.
   */
  lemma ServiceLookupFirst(services: map<string, Service>, request: Request)
    ensures request.serviceName !in services ==> Resolve(services, request) == NoService
    ensures Dispatch(services, request) == Some(Fail(ServiceNotFound)) <==> request.serviceName !in services
  {
  }

  /**
   * A null argument of a request for a known service makes the handler throw
   * before anything is sent, at the first null position; nothing else does.
   */
  lemma NullArgumentSendsNothing(services: map<string, Service>, request: Request)
    ensures Dispatch(services, request).None? <==>
              request.serviceName in services && !NoNullArgument(Arguments(request))
    ensures Resolve(services, request).NullArgument? ==>
              var k := Resolve(services, request).index;
              k < |Arguments(request)| && Arguments(request)[k].Null? && NoNullArgument(Arguments(request)[..k])
  {
    RuntimeTypesCorrect(Arguments(request));
  }

  /**
   * Resolution is exact: the method invoked is the one whose key is the request's
   * method name with its arguments' runtime classes, and it is called with the
   * request's arguments, in order.
   */
  lemma ResolutionIsExact(services: map<string, Service>, request: Request)
    ensures Resolve(services, request).Invoked? <==> Resolvable(services, request)
    ensures Resolvable(services, request) ==>
              Resolve(services, request) == Invoked(RequestedKey(request), Invocation(services, request))
  {
    RuntimeTypesCorrect(Arguments(request));
  }

  /**
   * METHOD_NOT_FOUND is sent exactly when the service exists, no argument is null,
   * and no method has the requested exact key; the handling then ends without
   * invoking anything.
   */
  lemma MethodNotFoundWithoutInvocation(services: map<string, Service>, request: Request)
    ensures Dispatch(services, request) == Some(Fail(MethodNotFound)) <==>
              && request.serviceName in services
              && NoNullArgument(Arguments(request))
              && RequestedKey(request) !in services[request.serviceName]
    ensures Dispatch(services, request) == Some(Fail(MethodNotFound)) ==>
              Resolve(services, request) == NoMethod(RequestedKey(request))
  {
    RuntimeTypesCorrect(Arguments(request));
  }

  /** A value the resolved method returns is sent back unchanged, and only then is a success sent. */
  lemma ReturnValuePassedThrough(services: map<string, Service>, request: Request, v: Value)
    ensures Dispatch(services, request) == Some(Succeed(v)) <==>
              Resolvable(services, request) && Invocation(services, request) == Returns(v)
  {
    ResolutionIsExact(services, request);
    RuntimeTypesCorrect(Arguments(request));
  }

  /**
   * An error the resolved method itself throws is sent back as that error (the
   * unwrapped cause), and no other path sends an error payload.
   */
  lemma ThrownCauseForwarded(services: map<string, Service>, request: Request, cause: Throwable)
    ensures Dispatch(services, request) == Some(FailWith(cause)) <==>
              Resolvable(services, request) && Invocation(services, request) == Throws(cause)
  {
    ResolutionIsExact(services, request);
    RuntimeTypesCorrect(Arguments(request));
  }

  /** An access violation on invocation, and nothing else, is answered with SERVER_ERROR. */
  lemma AccessViolationIsServerError(services: map<string, Service>, request: Request)
    ensures Dispatch(services, request) == Some(Fail(ServerError)) <==>
              Resolvable(services, request) && Invocation(services, request) == Inaccessible
  {
    ResolutionIsExact(services, request);
    RuntimeTypesCorrect(Arguments(request));
  }

  /**
   * The handler itself attaches only three codes; success, generic failure and
   * method-throwing responses are built by the other two constructors, never
   * with an explicit code.
   */
  lemma HandlerFailureCodes(services: map<string, Service>, request: Request, code: ResponseCode)
    ensures Dispatch(services, request) == Some(Fail(code)) ==>
              code == ServiceNotFound || code == MethodNotFound || code == ServerError
  {
  }

  /**
   * Matching compares runtime classes for equality, and a runtime class is never
   * primitive: a method declared with a primitive parameter (`int`) is never
   * invoked, whatever the request.
   */
  lemma PrimitiveParameterNeverMatches(services: map<string, Service>, request: Request, key: MethodKey, i: nat)
    requires i < |key.parameterTypes| && key.parameterTypes[i].Primitive?
    ensures !(Resolve(services, request).Invoked? && Resolve(services, request).key == key)
  {
    if request.serviceName in services && RuntimeTypes(Arguments(request)).Derived? {
      DerivedTypesAreClasses(Arguments(request));
    }
  }
}
