# Server-side dispatch of my-rpc, modelled in Dafny

This project models `SimpleRequestHandler.handleRequest`, the server-side dispatch
engine of the my-rpc framework. A request names a service, a method and a list of
arguments. The handler:

1. looks the service up by name in the service provider;
2. derives a parameter-class signature from the runtime class of each argument,
   filling an array in a loop;
3. resolves the method by exact equality on (method name, signature);
4. invokes it with the request's arguments;
5. sorts the outcome into one response: success carrying the returned value,
   service-not-found, method-not-found, server error (access violation), or a
   failure carrying the error the method itself threw, unwrapped;
6. hands that one response to the response sender.

Layout, one module per file:

- `wrappers.dfy` (`Wrappers`): `Option`, standing in for a Java reference that may be null.
- `proto.dfy` (`Proto`): runtime classes (`TypeTag`, primitive or reference), argument values
  (`Value`, with `Null`), `Throwable`, the response codes, `Request` and `Response`.
  `Response` has one constructor per factory the handler calls: `Succeed` for
  `RpcResponse.succeed`, `Fail(code)` for `RpcResponse.fail(code)`, `FailWith(cause)` for
  `RpcResponse.fail(Throwable)`.
- `registry.dfy` (`Registry`): a service as reflection sees it, a map from
  `MethodKey(name, parameterTypes)` to a function from arguments to an `Outcome`
  (`Returns`, `Throws`, `Inaccessible`); the `ServiceProvider` class holding services by name.
- `signature.dfy` (`Signature`): `RuntimeTypes`, the signature derivation as a function
  that stops at the first null argument, and its correctness lemmas.
- `pipeline.dfy` (`Pipeline`): the whole pipeline as functions. `Resolve` says where
  handling ends (a `Path`), `Respond` says which response that path sends, and
  `Dispatch` composes the two.
- `handler.dfy` (`Handler`): the imperative handler. `ResponseSender` records every
  response handed to it in `sent`. `DeriveArgumentTypes` fills an `array<TypeTag>` with a
  loop. `SimpleRequestHandler` has a `const` provider field and `HandleRequest`, whose
  postcondition ties the completion and the new `sent` log to `Resolve`.
- `properties.dfy` (`DispatchProperties`): the handler's promises, each stated against a
  reference description that does not use the recursive derivation. In that description a
  request is resolvable when its service exists, no argument is null, and the service has
  the key built from the method name and the arguments' classes.
- `calculator.dfy` (`Calculator`): a calculator service worked through the pipeline and
  through the handler object.

Behaviour of the code worth stating on its own, because a reader might expect otherwise:

- A request's argument array may be null. The code tests for this
  (`SimpleRequestHandler.java:37`) and treats it as zero arguments. The model keeps
  `args: Option<seq<Value>>`.
- One might expect every request to get exactly one response. In the code, a null element
  in the arguments makes `getClass()` throw at line 40, before anything is sent. The model
  returns `ThrewNullPointer(i)` with zero sends (`NullArgumentSendsNothing`,
  `HandleRequest`).
- A calculator declared as `add(int,int)` answers `add(2,3)` with METHOD_NOT_FOUND. The
  arguments arrive boxed, so their runtime class is `java.lang.Integer`, and matching at
  line 45 is by exact class (`PrimitiveParameterNeverMatches`, `PrimitiveAddNotFound`).
  Declared on `Integer`, the same calculator answers `add(2,3)` with 5
  (`BoxedCalculatorAnswers`).
- The handler imports the response-code enum from `github.qiao712.rpc.proto`, which has
  `SERVER_ERROR`. The enum in `my-rpc-core/src/main/java/github/qiao712/entity/RpcResponseCode.java`
  is a different class without it; the handler's own enum is not part of this model. The
  model's `ResponseCode` has the three codes the handler names (`ServiceNotFound` at line 31,
  `MethodNotFound` at line 52, `ServerError` at line 55), plus `Success`, `Failure` and
  `MethodThrowing` from the my-rpc-core enum.

## Model

| member | source | states |
|---|---|---|
| Proto.RuntimeClass | my-rpc-framework-core/src/main/java/github/qiao712/rpc/handler/SimpleRequestHandler.java:40 | `getClass()` of a non-null argument is always a reference class, never a primitive one |
| Signature.RuntimeTypesCorrect | my-rpc-framework-core/src/main/java/github/qiao712/rpc/handler/SimpleRequestHandler.java:36-41 | the derivation succeeds iff no argument is null; it then gives one class per argument, entry `i` being the class of `args[i]`; otherwise it names the first null argument |
| Signature.DerivedTypesAreClasses | my-rpc-framework-core/src/main/java/github/qiao712/rpc/handler/SimpleRequestHandler.java:38-41 | a derived signature has the argument count as its length and holds only reference classes |
| Handler.DeriveArgumentTypes | my-rpc-framework-core/src/main/java/github/qiao712/rpc/handler/SimpleRequestHandler.java:36-41 | the array is newly allocated with one slot per argument (none when the argument array is null); the loop fills it with the arguments' runtime classes in order, or stops at the first null argument and reports its index |
| Handler.ResponseSender.Send | my-rpc-framework-core/src/main/java/github/qiao712/rpc/handler/SimpleRequestHandler.java:31 | sending appends exactly that response to the sender's log |
| Handler.SimpleRequestHandler.constructor | my-rpc-framework-core/src/main/java/github/qiao712/rpc/handler/SimpleRequestHandler.java:19-23 | the handler keeps the provider it is given, in a field that never changes |
| Handler.SimpleRequestHandler.HandleRequest | my-rpc-framework-core/src/main/java/github/qiao712/rpc/handler/SimpleRequestHandler.java:26-64 | the handler appends to the sender's log exactly the response that `Resolve`'s path determines; it returns normally iff exactly one response was appended, and throws (null argument) iff none was; only the sender changes |
| Pipeline.Sends | my-rpc-framework-core/src/main/java/github/qiao712/rpc/handler/SimpleRequestHandler.java:29-63 | every path sends at most one response, and exactly one unless it ends at a null argument |
| DispatchProperties.ServiceLookupFirst | my-rpc-framework-core/src/main/java/github/qiao712/rpc/handler/SimpleRequestHandler.java:27-33 | an unknown service name ends handling at the lookup, whatever the method name and arguments; SERVICE_NOT_FOUND is sent iff the service is unknown |
| DispatchProperties.NullArgumentSendsNothing | my-rpc-framework-core/src/main/java/github/qiao712/rpc/handler/SimpleRequestHandler.java:39-40 | no response iff the service exists and some argument is null; the reported index is the first null argument |
| DispatchProperties.ResolutionIsExact | my-rpc-framework-core/src/main/java/github/qiao712/rpc/handler/SimpleRequestHandler.java:45-48 | a method is invoked iff the request is resolvable; it is the method keyed by the method name and the arguments' exact runtime classes, called with the request's arguments |
| DispatchProperties.MethodNotFoundWithoutInvocation | my-rpc-framework-core/src/main/java/github/qiao712/rpc/handler/SimpleRequestHandler.java:45-52 | METHOD_NOT_FOUND is sent iff the service exists, no argument is null and the exact key is absent; handling then ends without invoking anything |
| DispatchProperties.ReturnValuePassedThrough | my-rpc-framework-core/src/main/java/github/qiao712/rpc/handler/SimpleRequestHandler.java:48-49 | `Succeed(v)` is sent iff the resolved method returned `v` |
| DispatchProperties.ThrownCauseForwarded | my-rpc-framework-core/src/main/java/github/qiao712/rpc/handler/SimpleRequestHandler.java:56-60 | `FailWith(e)` is sent iff the resolved method itself threw `e`; the payload is the cause, not a wrapper |
| DispatchProperties.AccessViolationIsServerError | my-rpc-framework-core/src/main/java/github/qiao712/rpc/handler/SimpleRequestHandler.java:53-55 | SERVER_ERROR is sent iff the resolved method could not be accessed |
| DispatchProperties.HandlerFailureCodes | my-rpc-framework-core/src/main/java/github/qiao712/rpc/handler/SimpleRequestHandler.java:31-55 | an explicit code from the handler is only ever SERVICE_NOT_FOUND, METHOD_NOT_FOUND or SERVER_ERROR |
| DispatchProperties.PrimitiveParameterNeverMatches | my-rpc-framework-core/src/main/java/github/qiao712/rpc/handler/SimpleRequestHandler.java:40-45 | a method with a primitive parameter is never invoked, for any request |
| Calculator.PrimitiveAddNotFound | my-rpc-framework-core/src/main/java/github/qiao712/rpc/handler/SimpleRequestHandler.java:38-52 | with `add(int,int)` registered, `add(2,3)` gets METHOD_NOT_FOUND |
| Calculator.BoxedCalculatorAnswers | my-rpc-framework-core/src/main/java/github/qiao712/rpc/handler/SimpleRequestHandler.java:27-60 | with `add(Integer,Integer)` and `divide(Integer,Integer)` registered, `add(2,3)` succeeds with 5; `sub` and `add(3)` get METHOD_NOT_FOUND; an unknown service gets SERVICE_NOT_FOUND; `divide(4,0)` sends back the divide-by-zero error itself |

## Left out

- Logging: the `log.debug` calls have no effect on behaviour.
- Reflection internals are left out. The model does not capture how `getMethod` searches
  inherited public methods; a service is an abstract table of its callable methods.
- Reflection failures other than the three the handler catches are left out: a
  `SecurityException`, an `IllegalArgumentException`, or a null method name. Each would
  escape `handleRequest` unsent.
- Argument objects are treated as immutable values. An invoked method could change the
  state of a mutable argument object, but nothing after the invocation (line 48) reads the
  arguments, so no response depends on it.
- Threading: the handler runs inline on the I/O thread with no worker pool. This is a
  deployment concern, and the model is sequential.
- Which code `RpcResponse.fail(Throwable)` and `RpcResponse.succeed` attach is not modelled.
  `RpcResponse` is not part of this model, so `Succeed` and `FailWith` stay constructors of
  their own.
- The service registry, `ServiceProvider` internals, `ResponseSender` internals, the
  transport and serialization are not part of this model. The provider is a map, and the
  sender is a log of responses.
- Service state is not captured: each service method is a function of its arguments alone,
  so state held by the service object, and side effects of a call on it, are not modelled.
  The same request always gets the same answer in the model.
- The client-side proxy is not part of this model. `RpcProxyFactory` declares only
  `createProxy`, and its implementation is not part of this model.
