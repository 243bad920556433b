/**
 * `\Spy\Container`: a registry mapping string identifiers to factory
 * callables ("injections"), which `Get` invokes on demand.
 */
module Spy {
  import opened Php

  /** The faults the container itself raises, plus the pass-through of a factory's own. */
  datatype Error =
    | InvalidFactory          // `set` was given something that is not callable
    | UnknownIdentifier       // `get` was asked for an identifier with no injection
    | InvalidProduct          // the factory returned something that is not an object
    | FactoryFault(fault: Fault)  // the factory threw; its exception reaches the caller as is

  datatype Result<T> = Ok(value: T) | Err(error: Error)

  /** The registry's content: identifier to factory. */
  type Injections = map<string, Value>

  /** The two operations that change the registry, as values, so that histories can be reasoned about. */
  datatype Command = Register(id: string, factory: Value) | Unregister(id: string)

  /** Every stored factory passes `is_callable`. */
  ghost predicate AllCallable(m: Injections, isCallable: Value -> bool) {
    forall id :: id in m ==> isCallable(m[id])
  }

  /**
   * The registry after one command: `Register` stores a callable factory,
   * overwriting any earlier one, and leaves everything as it was for a value
   * that is not callable; `Unregister` drops the entry if there is one.
   */
  function Apply(m: Injections, c: Command, isCallable: Value -> bool): (m': Injections)
    ensures forall k :: k != c.id ==> (k in m' <==> k in m)
    ensures forall k :: k != c.id && k in m ==> m'[k] == m[k]
    ensures c.Register? && isCallable(c.factory) ==> c.id in m' && m'[c.id] == c.factory
    ensures c.Register? && !isCallable(c.factory) ==> m' == m
    ensures c.Unregister? ==> c.id !in m'
    ensures c.Unregister? && c.id !in m ==> m' == m
    ensures AllCallable(m, isCallable) ==> AllCallable(m', isCallable)
  {
    match c
    case Register(id, f) => if isCallable(f) then m[id := f] else m
    case Unregister(id) => m - {id}
  }

  /**
   * What `get` makes of one invocation of a factory: a thrown fault is passed
   * through unchanged, an object is the product, anything else is refused.
   */
  function Outcome(inv: Invocation): (r: Result<Value>)
    ensures r.Ok? <==> inv.Returned? && IsObject(inv.value)
    ensures r.Ok? ==> r.value == inv.value
    ensures inv.Raised? ==> r == Err(FactoryFault(inv.fault))
    ensures inv.Returned? && !IsObject(inv.value) ==> r == Err(InvalidProduct)
  {
    match inv
    case Raised(fault) => Err(FactoryFault(fault))
    case Returned(v) => if IsObject(v) then Ok(v) else Err(InvalidProduct)
  }

  class Container {
    /** The engine whose `is_callable` and `call_user_func_array` the container uses. */
    const runtime: Runtime
    var injections: Injections

    /** Only callables are ever stored, and `is_callable(null)` is false. */
    ghost predicate Valid()
      reads this
    {
      runtime.Valid() && AllCallable(injections, runtime.isCallable)
    }

    /** A new container holds no injections. */
    constructor (runtime: Runtime)
      requires runtime.Valid()
      ensures Valid()
      ensures this.runtime == runtime && injections == map[]
    {
      this.runtime := runtime;
      injections := map[];
    }

    /**
     * `set`: refuses a value that is not callable before touching the
     * registry; otherwise stores it under `id`, replacing any earlier factory.
     */
    method Set(id: string, factory: Value) returns (r: Result<()>)
      requires Valid()
      modifies this
      ensures Valid()
      ensures r.Err? <==> !runtime.isCallable(factory)
      ensures r.Err? ==> r.error == InvalidFactory && injections == old(injections)
      ensures r.Ok? ==> injections == old(injections)[id := factory]
      ensures injections == Apply(old(injections), Register(id, factory), runtime.isCallable)
    {
      if !runtime.isCallable(factory) {
        return Err(InvalidFactory);
      }
      injections := injections[id := factory];
      r := Ok(());
    }

    /**
     * `get`: fails with `UnknownIdentifier`, invoking nothing, when `id` has
     * no injection; otherwise invokes the factory stored under `id` exactly
     * once, with exactly `args`, and hands back its product if it is an
     * object. Nothing is cached and the registry is left as it was.
     */
    method Get(id: string, args: seq<Value>) returns (r: Result<Value>)
      requires Valid()
      modifies runtime
      ensures injections == old(injections)
      ensures id !in injections ==> r == Err(UnknownIdentifier) && runtime.calls == old(runtime.calls)
      ensures id in injections ==> runtime.calls == old(runtime.calls) + [Call(injections[id], args)]
      ensures id in injections ==>
        var inv := runtime.behaviour(injections[id], args, |old(runtime.calls)|);
        && (inv.Raised? ==> r == Err(FactoryFault(inv.fault)))
        && (inv.Returned? && !IsObject(inv.value) ==> r == Err(InvalidProduct))
        && (inv.Returned? && IsObject(inv.value) ==> r == Ok(inv.value))
      ensures id in injections ==> r == Outcome(runtime.behaviour(injections[id], args, |old(runtime.calls)|))
      ensures r.Ok? ==> IsObject(r.value)
    {
      var present := Has(id);
      if !present {
        return Err(UnknownIdentifier);
      }
      // The source looks the factory up under an undefined variable
      // (`$className`) rather than under the identifier it has just checked;
      // this model invokes the factory registered under `id`, as documented.
      var returned := runtime.CallUserFuncArray(injections[id], args);
      match returned
      case Raised(fault) =>
        r := Err(FactoryFault(fault));
      case Returned(v) =>
        if !IsObject(v) {
          r := Err(InvalidProduct);
        } else {
          r := Ok(v);
        }
    }

    /**
     * `has`: `isset` of the entry, that is, present and not null; since only
     * callables are stored, this is exactly presence.
     */
    method Has(id: string) returns (b: bool)
      requires Valid()
      ensures b <==> id in injections
    {
      b := id in injections && injections[id] != Null;
    }

    /** `remove`: drops the entry for `id`; an absent entry is no error. */
    method Remove(id: string)
      requires Valid()
      modifies this
      ensures Valid()
      ensures injections == old(injections) - {id}
      ensures id !in injections
      ensures id !in old(injections) ==> injections == old(injections)
      ensures injections == Apply(old(injections), Unregister(id), runtime.isCallable)
    {
      injections := injections - {id};
    }
  }
}
