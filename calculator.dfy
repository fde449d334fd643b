/**
 * A calculator service registered under "Calculator":
 * what the handler answers for a handful of requests, once with `add` declared
 * on primitive `int` parameters and once on boxed `Integer` parameters.
 */
module Calculator {
  import opened Wrappers
  import opened Proto
  import opened Registry
  import opened Signature
  import opened Pipeline
  import opened Handler

  const AddInts: MethodKey := MethodKey("add", [IntClass, IntClass])
  const AddIntegers: MethodKey := MethodKey("add", [IntegerClass, IntegerClass])
  const DivideIntegers: MethodKey := MethodKey("divide", [IntegerClass, IntegerClass])

  const DivideByZero: Throwable := Throwable("java.lang.ArithmeticException", "/ by zero")

  // Add, Divide and Quotient are stand-in service bodies for this scenario, not code of
  // the framework: they compute on unbounded integers (no 32-bit wrap-around), and their
  // `Returns(Null)` branch covers argument shapes exact matching never lets through.

  /** Java's `/` on int rounds toward zero. */
  function Quotient(a: int, b: int): int
    requires b != 0
  {
    var q := (if a < 0 then -a else a) / (if b < 0 then -b else b);
    if (a < 0) == (b < 0) then q else -q
  }

  function Add(args: seq<Value>): Outcome
  {
    if |args| == 2 && args[0].Integer? && args[1].Integer? then Returns(Integer(args[0].n + args[1].n))
    else Returns(Null)
  }

  function Divide(args: seq<Value>): Outcome
  {
    if |args| == 2 && args[0].Integer? && args[1].Integer? then
      if args[1].n == 0 then Throws(DivideByZero) else Returns(Integer(Quotient(args[0].n, args[1].n)))
    else Returns(Null)
  }

  /** `add(int, int)` and `divide(Integer, Integer)`. */
  function DeclaredOnInts(): map<string, Service>
  {
    map["Calculator" := map[AddInts := Add, DivideIntegers := Divide]]
  }

  /** `add(Integer, Integer)` and `divide(Integer, Integer)`. */
  function DeclaredOnIntegers(): map<string, Service>
  {
    map["Calculator" := map[AddIntegers := Add, DivideIntegers := Divide]]
  }

  function Call(service: string, methodName: string, args: seq<Value>): Request
  {
    Request(service, methodName, Some(args))
  }

  /**
   * With `add(int, int)` the request `add(2, 3)` is not resolved: its arguments
   * arrive boxed, and matching is by exact class.
   */
  lemma PrimitiveAddNotFound()
    ensures Dispatch(DeclaredOnInts(), Call("Calculator", "add", [Integer(2), Integer(3)])) == Some(Fail(MethodNotFound))
  {
    var request := Call("Calculator", "add", [Integer(2), Integer(3)]);
    assert RuntimeTypes(Arguments(request)) == Derived([IntegerClass, IntegerClass]);
    assert AddInts != AddIntegers;
  }

  /**
   * With `add(Integer, Integer)` and `divide(Integer, Integer)` registered, five requests:
   * `add(2, 3)` succeeds with 5, `sub(2, 3)` and `add(3)` find no method, an unknown
   * service is reported, and `divide(4, 0)` sends back the divide-by-zero error itself.
   */
  lemma BoxedCalculatorAnswers()
    ensures Dispatch(DeclaredOnIntegers(), Call("Calculator", "add", [Integer(2), Integer(3)])) == Some(Succeed(Integer(5)))
    ensures Dispatch(DeclaredOnIntegers(), Call("Calculator", "sub", [Integer(2), Integer(3)])) == Some(Fail(MethodNotFound))
    ensures Dispatch(DeclaredOnIntegers(), Call("Ghost", "add", [Integer(2), Integer(3)])) == Some(Fail(ServiceNotFound))
    ensures Dispatch(DeclaredOnIntegers(), Call("Calculator", "divide", [Integer(4), Integer(0)])) == Some(FailWith(DivideByZero))
    ensures Dispatch(DeclaredOnIntegers(), Call("Calculator", "add", [Integer(3)])) == Some(Fail(MethodNotFound))
  {
    var two := [Integer(2), Integer(3)];
    assert RuntimeTypes(two) == Derived([IntegerClass, IntegerClass]);
    assert RuntimeTypes([Integer(4), Integer(0)]) == Derived([IntegerClass, IntegerClass]);
    assert RuntimeTypes([Integer(3)]) == Derived([IntegerClass]);
    assert MethodKey("sub", [IntegerClass, IntegerClass]) != AddIntegers;
    assert MethodKey("add", [IntegerClass]) != AddIntegers;
  }

  /** The same requests through the handler object: one response each, in order. */
  method Session()
  {
    var provider := new ServiceProvider(DeclaredOnIntegers());
    var handler := new SimpleRequestHandler(provider);
    var sender := new ResponseSender();
    BoxedCalculatorAnswers();
    var c1 := handler.HandleRequest(Call("Calculator", "add", [Integer(2), Integer(3)]), sender);
    var c2 := handler.HandleRequest(Call("Calculator", "sub", [Integer(2), Integer(3)]), sender);
    var c3 := handler.HandleRequest(Call("Ghost", "add", [Integer(2), Integer(3)]), sender);
    assert c1 == c2 == c3 == Returned;
    assert sender.sent == [Succeed(Integer(5)), Fail(MethodNotFound), Fail(ServiceNotFound)];
    var c4 := handler.HandleRequest(Call("Calculator", "add", [Integer(2), Null]), sender);
    assert c4 == ThrewNullPointer(1);
    assert |sender.sent| == 3;
  }
}
