/**
 * Deriving the parameter-class signature of a call from its arguments: the
 * runtime class of each argument, in order. A null argument has no class, so
 * the derivation stops at the first one.
 */
module Signature {
  import opened Proto

  /** Either the classes of all the arguments, or the position of the first null. */
  datatype Derivation = Derived(types: seq<TypeTag>) | NullAt(index: nat)

  /** `arguments[i].getClass()` for each `i` in turn, failing at the first null. */
  function RuntimeTypes(args: seq<Value>): Derivation
    decreases |args|
  {
    if args == [] then Derived([])
    else if args[0].Null? then NullAt(0)
    else
      match RuntimeTypes(args[1..])
      case Derived(rest) => Derived([RuntimeClass(args[0])] + rest)
      case NullAt(i) => NullAt(i + 1)
  }

  ghost predicate NoNullArgument(args: seq<Value>)
  {
    forall i :: 0 <= i < |args| ==> !args[i].Null?
  }

  /** The signature as a whole-sequence description: entry `i` is the class of `args[i]`. */
  ghost function Classes(args: seq<Value>): (types: seq<TypeTag>)
    requires NoNullArgument(args)
  {
    seq(|args|, i requires 0 <= i < |args| && !args[i].Null? => RuntimeClass(args[i]))
  }

  /**
   * The derivation succeeds exactly when no argument is null, and then yields one
   * class per argument, in order; otherwise it names the first null argument.
   */
  lemma {:induction false} RuntimeTypesCorrect(args: seq<Value>)
    ensures RuntimeTypes(args).Derived? <==> NoNullArgument(args)
    ensures NoNullArgument(args) ==> RuntimeTypes(args) == Derived(Classes(args))
    ensures RuntimeTypes(args).NullAt? ==>
              var k := RuntimeTypes(args).index;
              k < |args| && args[k].Null? && NoNullArgument(args[..k])
    decreases |args|
  {
    if args != [] && !args[0].Null? {
      var tail := args[1..];
      RuntimeTypesCorrect(tail);
      assert NoNullArgument(args) <==> NoNullArgument(tail) by {
        if NoNullArgument(tail) {
          forall i | 0 <= i < |args| ensures !args[i].Null? {
            if i > 0 { assert args[i] == tail[i - 1]; }
          }
        }
        if NoNullArgument(args) {
          forall i | 0 <= i < |tail| ensures !tail[i].Null? {
            assert tail[i] == args[i + 1];
          }
        }
      }
      if NoNullArgument(args) {
        assert Classes(args) == [RuntimeClass(args[0])] + Classes(tail);
      }
      if RuntimeTypes(tail).NullAt? {
        var k := RuntimeTypes(tail).index;
        var prefix := args[..k + 1];
        forall i | 0 <= i < |prefix| ensures !prefix[i].Null? {
          if i > 0 { assert prefix[i] == tail[..k][i - 1]; }
        }
      }
    }
  }

  /** Every class in a derived signature is a reference class: none is primitive. */
  lemma {:induction false} DerivedTypesAreClasses(args: seq<Value>)
    requires RuntimeTypes(args).Derived?
    ensures |RuntimeTypes(args).types| == |args|
    ensures forall i :: 0 <= i < |args| ==> RuntimeTypes(args).types[i].ClassType?
  {
    RuntimeTypesCorrect(args);
  }
}
