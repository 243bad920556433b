# Spy container, modelled in Dafny

`\Spy\Container` is a service locator. It is a registry that maps string
identifiers to factory callables ("injections"). On request it invokes the
factory for an identifier with the caller's arguments and returns the object
the factory builds. The registry is one dictionary, `$injections`, that
changes in place. Four methods work on it:

- `set` refuses a value that is not callable. Otherwise it stores the value,
  replacing any earlier factory under the same identifier.
- `get` fails for an unknown identifier. Otherwise it forwards every argument
  after the identifier, in order, to the stored factory. It refuses any result
  that is not an object.
- `has` tells whether an identifier has an injection.
- `remove` drops an injection. Removing an absent one is no error.

The model has three modules:

- `Php` (php.dfy) holds the PHP values the container sees and `is_object`. It
  also holds a class `Runtime` for the engine that hosts the container. The
  engine's `is_callable` and `call_user_func_array` cannot be seen from the
  container, so they are parameters of the runtime. `isCallable` decides
  callability. `behaviour(f, args, n)` gives what the `n`-th invocation returns
  or throws, so a factory may build a fresh object on every call. A log,
  `calls`, records every invocation the container makes, which lets contracts say which factory was
  invoked, with which arguments, and whether anything was invoked at all.
- `Spy` (container.dfy) holds the class `Container`. Its field
  `injections: map<string, Value>` is updated by `Set` and `Remove`, and `Get`
  and `Has` only read it. It also holds `Apply`, the effect of one `set` or
  `remove` on the registry as a function. The error outcomes of the PHP
  exceptions are `InvalidFactory`, `UnknownIdentifier` and `InvalidProduct`.
  A fault thrown by a factory is passed through as `FactoryFault(fault)`.
- `History` (history.dfy) covers any sequence of `set` and `remove` calls.
  The last effective command on an identifier decides its entry, and the
  commands about other identifiers do not matter. It also holds the laws for
  pairs of calls, and four client methods that combine the operations.

The class invariant `Container.Valid()` says that every stored factory passes
`is_callable`. `Runtime.Valid()` says that `null` is not callable. Together
they make `has`, which is `isset` (present and not null), equal to plain
presence of the key.

`get` in lib/Spy/Container.php:83 looks the factory up under `$className`,
a variable that is never defined. The presence check at line 77 and the
method's documentation (lines 64-66) both use the parameter `$identifier`.
The model invokes the factory registered under the identifier that was
checked, as documented. It does not reproduce the lookup under the undefined
variable.

## Model

| member | source | states |
|---|---|---|
| Spy.Container.constructor | lib/Spy/Container.php:42 | a new container holds no injections and satisfies the invariant |
| Spy.Container.Set | lib/Spy/Container.php:53-61 | fails with `InvalidFactory` exactly when the value is not callable, and then leaves the registry unchanged; otherwise the registry is the old one with `id` mapped to the factory, and every stored factory stays callable |
| Spy.Container.Get | lib/Spy/Container.php:75-91 | an unknown identifier fails with `UnknownIdentifier` and invokes nothing; otherwise exactly one invocation is made, of `injections[id]` with exactly `args`; the result is `Outcome` of that call: a thrown fault comes back unchanged, a non-object result gives `InvalidProduct`, an object is returned as is; the registry is unchanged and every successful result is an object |
| Spy.Container.Has | lib/Spy/Container.php:101-104 | the answer is true exactly when `id` has an injection, and nothing is changed |
| Spy.Container.Remove | lib/Spy/Container.php:113-116 | afterwards `id` has no injection and every other entry is as before; removing an absent identifier changes nothing |
| Spy.Apply | lib/Spy/Container.php:53-116 | one `set` or `remove` changes no entry but its own; a callable registration maps `id` to the factory, a non-callable one changes nothing; a removal leaves `id` absent and changes nothing if it was absent; the "only callables stored" invariant is kept |
| Php.IsObject | lib/Spy/Container.php:84 | true exactly of object instances (closures included); false of null, booleans, integers, strings and arrays |
| Php.Runtime.CallUserFuncArray | lib/Spy/Container.php:82-83 | the invocation is logged with the callee and exactly the given arguments, and its outcome is the engine's behaviour for that call |
| History.Replay | lib/Spy/Container.php:53-116 | any sequence of `set` and `remove` calls keeps every stored factory callable |
| History.LastEffectWins | lib/Spy/Container.php:53-116 | after any sequence of `set` and `remove`, the entry for `id` is what the last effective command on `id` left there, or the initial entry if there was none |
| History.LastEffectAbout | lib/Spy/Container.php:53-116 | the last effective command on `id` stays the same when the commands about other identifiers are dropped |
| History.OnlyOwnCommandsMatter | lib/Spy/Container.php:53-116 | the entry for `id` after a history depends only on the commands that name `id` |
| History.RegisterOverwrites | lib/Spy/Container.php:44-61 | registering `f1` and then a callable `f2` under one identifier gives the same registry as registering `f2` alone |
| History.UnregisterIdempotent | lib/Spy/Container.php:113-116 | removing twice gives the same registry as removing once |
| History.UnregisterUndoesRegister | lib/Spy/Container.php:53-116 | registering and then removing an identifier gives the same registry as removing it alone |
| History.DistinctIdentifiersCommute | lib/Spy/Container.php:53-116 | commands on different identifiers can be applied in either order |
| History.Run | lib/Spy/Container.php:53-116 | a container driven through any sequence of `set` and `remove` calls holds `Replay` of that sequence, so the history theorems describe the object |
| History.OverwriteThenGet | lib/Spy/Container.php:44-91 | `set(id, f1); set(id, f2); get(id, args)` invokes `f2` with `args` and nothing else, returns what `get` makes of that call, and leaves `f2` registered |
| History.RemoveThenGet | lib/Spy/Container.php:75-116 | after `remove(id)`, `has(id)` is false and `get(id)` fails with `UnknownIdentifier` without invoking anything |
| Spy.Outcome | lib/Spy/Container.php:83-90 | an object returned by the factory is the product; a non-object gives `InvalidProduct`; a thrown fault is passed through unchanged as `FactoryFault` |
| History.GetTwice | lib/Spy/Container.php:75-91 | two `get` calls on one identifier make two invocations, and each result is exactly `Outcome` of its own invocation: nothing is cached, so a factory that builds a fresh object per call yields two distinct objects |

## Left out

- The rules of PHP's `is_callable` (closures, function names, `[object, method]` arrays) are not modelled. Callability is the runtime's `isCallable` parameter. Two facts are assumed about it: `null` is not callable, and a value's callability is fixed for the life of the runtime, since `isCallable` is a constant. PHP does not guarantee the second: a function name becomes callable once a later `require` declares the function, and no single runtime of the model can represent that.
- Real execution of a factory through `call_user_func_array` is not modelled. It is the runtime's `behaviour` parameter. A factory that calls back into the container while `get` runs (a nested `get`, `set` or `remove`) is not modelled: the runtime's `calls` log records only the invocations the container itself makes, and `Get` promises an unchanged registry.
- The exception classes and message texts (including the `gettype` name in the unexpected-return message) are not modelled. Only the kind of error is kept.
- PHP's coercion of numeric-string array keys to integers is not modelled. Identifiers are plain strings, and PHP values other than strings are not accepted as identifiers.
- Floats and resources are not among the modelled PHP values. Neither is an object, so `get` refuses them as it refuses other non-objects.
- `$injections` has no initialiser in the source, so it starts as `null`, which PHP's `isset`, assignment and `unset` treat like an empty array. The model starts from an empty map.
- The lookup under the undefined `$className` at lib/Spy/Container.php:83 is not reproduced (see above).
