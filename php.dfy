/**
 * The part of the PHP engine that the container relies on: the values a
 * caller can hand it, the `is_object` test, and the two engine functions
 * `is_callable` and `call_user_func_array`, whose behaviour is not visible
 * to the container and is therefore given to the model as parameters of a
 * `Runtime`.
 */
module Php {

  /** PHP values, by the kinds the container can tell apart. */
  datatype Value =
    | Null
    | Bool(b: bool)
    | Int(i: int)
    | Str(s: string)
    | Arr(items: seq<Value>)
    | Obj(handle: nat)   // any object instance, closures included

  /** `is_object`: true only of object instances; false of every scalar, of null and of arrays. */
  predicate IsObject(v: Value): (b: bool)
    ensures !b <==> v.Null? || v.Bool? || v.Int? || v.Str? || v.Arr?
  {
    v.Obj?
  }

  /** An exception thrown from inside a callable. */
  datatype Fault = Fault(className: string, message: string)

  /** What one invocation of a callable does: return a value or throw. */
  datatype Invocation = Returned(value: Value) | Raised(fault: Fault)

  /** One invocation made through `call_user_func_array`. */
  datatype Call = Call(callee: Value, args: seq<Value>)

  /**
   * The engine hosting a container. `isCallable` is `is_callable`;
   * `behaviour(f, args, n)` is what the `n`-th invocation made through this
   * engine returns when it calls `f` with `args` (the index lets a factory
   * build a fresh object every time); `calls` logs, oldest first, the
   * invocations the container itself makes, not those a factory makes in
   * turn.
   */
  class Runtime {
    const isCallable: Value -> bool
    const behaviour: (Value, seq<Value>, nat) -> Invocation
    var calls: seq<Call>

    /** `is_callable(null)` is false in every PHP engine. */
    ghost predicate Valid() {
      !isCallable(Null)
    }

    constructor (isCallable: Value -> bool, behaviour: (Value, seq<Value>, nat) -> Invocation)
      requires !isCallable(Null)
      ensures Valid()
      ensures this.isCallable == isCallable && this.behaviour == behaviour
      ensures calls == []
    {
      this.isCallable := isCallable;
      this.behaviour := behaviour;
      calls := [];
    }

    /** `call_user_func_array(f, args)`: invokes `f` with exactly `args`. */
    method CallUserFuncArray(f: Value, args: seq<Value>) returns (r: Invocation)
      modifies this
      ensures calls == old(calls) + [Call(f, args)]
      ensures r == behaviour(f, args, |old(calls)|)
    {
      r := behaviour(f, args, |calls|);
      calls := calls + [Call(f, args)];
    }
  }
}
