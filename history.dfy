/**
 * What a container holds after any sequence of `set` and `remove` calls,
 * and what callers can rely on when they combine the four operations.
 */
module History {
  import opened Php
  import opened Spy

  datatype Option<T> = None | Some(value: T)

  /** The factory registered under `id`, if any. */
  function Lookup(m: Injections, id: string): (r: Option<Value>) {
    if id in m then Some(m[id]) else None
  }

  /** The registry after the commands of `history`, oldest first; it only ever holds callables. */
  function Replay(m: Injections, history: seq<Command>, isCallable: Value -> bool): (r: Injections)
    ensures AllCallable(m, isCallable) ==> AllCallable(r, isCallable)
    decreases |history|
  {
    if history == [] then m
    else Apply(Replay(m, history[..|history| - 1], isCallable), history[|history| - 1], isCallable)
  }

  /**
   * What the latest command of `history` that had an effect on `id` left
   * there: `None` if no command did, `Some(None)` if it was a removal,
   * `Some(Some(f))` if it registered `f`. A `Register` of a value that is not
   * callable has no effect.
   */
  function LastEffect(history: seq<Command>, id: string, isCallable: Value -> bool): (r: Option<Option<Value>>)
    decreases |history|
  {
    if history == [] then None
    else
      var c := history[|history| - 1];
      if c.id == id && c.Unregister? then Some(None)
      else if c.id == id && isCallable(c.factory) then Some(Some(c.factory))
      else LastEffect(history[..|history| - 1], id, isCallable)
  }

  /** The commands of `history` that name `id`, in their order. */
  function About(history: seq<Command>, id: string): (r: seq<Command>)
    decreases |history|
  {
    if history == [] then []
    else
      var c := history[|history| - 1];
      About(history[..|history| - 1], id) + if c.id == id then [c] else []
  }

  /** The last effective `set` or `remove` of an identifier decides its entry. */
  lemma {:induction false} LastEffectWins(m: Injections, history: seq<Command>, isCallable: Value -> bool, id: string)
    ensures Lookup(Replay(m, history, isCallable), id) ==
      match LastEffect(history, id, isCallable)
      case None => Lookup(m, id)
      case Some(entry) => entry
    decreases |history|
  {
    if history != [] {
      LastEffectWins(m, history[..|history| - 1], isCallable, id);
    }
  }

  /** Dropping the commands about other identifiers does not change which command had the last effect. */
  lemma {:induction false} LastEffectAbout(history: seq<Command>, id: string, isCallable: Value -> bool)
    ensures LastEffect(About(history, id), id, isCallable) == LastEffect(history, id, isCallable)
    decreases |history|
  {
    if history != [] {
      var prefix, c := history[..|history| - 1], history[|history| - 1];
      LastEffectAbout(prefix, id, isCallable);
      if c.id == id {
        var about := About(history, id);
        assert about == About(prefix, id) + [c];
        assert about[..|about| - 1] == About(prefix, id);
      } else {
        assert About(history, id) == About(prefix, id) + [] == About(prefix, id);
      }
    }
  }

  /** Entries do not influence each other: only the commands naming `id` matter for `id`. */
  lemma OnlyOwnCommandsMatter(m: Injections, history: seq<Command>, isCallable: Value -> bool, id: string)
    ensures Lookup(Replay(m, history, isCallable), id) == Lookup(Replay(m, About(history, id), isCallable), id)
  {
    LastEffectAbout(history, id, isCallable);
    LastEffectWins(m, history, isCallable, id);
    LastEffectWins(m, About(history, id), isCallable, id);
  }

  /** Registering twice under one identifier keeps only the second factory. */
  lemma RegisterOverwrites(m: Injections, id: string, f1: Value, f2: Value, isCallable: Value -> bool)
    requires isCallable(f2)
    ensures Apply(Apply(m, Register(id, f1), isCallable), Register(id, f2), isCallable)
         == Apply(m, Register(id, f2), isCallable)
  {
  }

  /** Removing is idempotent. */
  lemma UnregisterIdempotent(m: Injections, id: string, isCallable: Value -> bool)
    ensures Apply(Apply(m, Unregister(id), isCallable), Unregister(id), isCallable)
         == Apply(m, Unregister(id), isCallable)
  {
  }

  /** Removing right after registering leaves no trace of the registration. */
  lemma UnregisterUndoesRegister(m: Injections, id: string, f: Value, isCallable: Value -> bool)
    ensures Apply(Apply(m, Register(id, f), isCallable), Unregister(id), isCallable)
         == Apply(m, Unregister(id), isCallable)
  {
  }

  /** Commands on different identifiers commute. */
  lemma DistinctIdentifiersCommute(m: Injections, c1: Command, c2: Command, isCallable: Value -> bool)
    requires c1.id != c2.id
    ensures Apply(Apply(m, c1, isCallable), c2, isCallable) == Apply(Apply(m, c2, isCallable), c1, isCallable)
  {
  }

  /** Driving a container through `history` leaves it holding `Replay` of that history. */
  method Run(c: Container, history: seq<Command>)
    requires c.Valid()
    modifies c
    ensures c.Valid()
    ensures c.injections == Replay(old(c.injections), history, c.runtime.isCallable)
  {
    var i := 0;
    while i < |history|
      invariant 0 <= i <= |history|
      invariant c.Valid()
      invariant c.injections == Replay(old(c.injections), history[..i], c.runtime.isCallable)
    {
      assert history[..i + 1][..i] == history[..i];
      match history[i] {
        case Register(id, f) =>
          var _ := c.Set(id, f);
        case Unregister(id) =>
          c.Remove(id);
      }
      i := i + 1;
    }
    assert history[..|history|] == history;
  }

  /** `set(id, f1); set(id, f2); get(id, args)` invokes `f2`, never `f1`. */
  method OverwriteThenGet(c: Container, id: string, f1: Value, f2: Value, args: seq<Value>) returns (r: Result<Value>)
    requires c.Valid() && c.runtime.isCallable(f1) && c.runtime.isCallable(f2)
    modifies c, c.runtime
    ensures c.Valid()
    ensures c.injections == old(c.injections)[id := f2]
    ensures c.runtime.calls == old(c.runtime.calls) + [Call(f2, args)]
    ensures r == Outcome(c.runtime.behaviour(f2, args, |old(c.runtime.calls)|))
  {
    var _ := c.Set(id, f1);
    var _ := c.Set(id, f2);
    r := c.Get(id, args);
  }

  /** `remove(id); has(id)` is false and `get(id)` fails without invoking anything. */
  method RemoveThenGet(c: Container, id: string, args: seq<Value>) returns (present: bool, r: Result<Value>)
    requires c.Valid()
    modifies c, c.runtime
    ensures !present && r == Err(UnknownIdentifier)
    ensures c.runtime.calls == old(c.runtime.calls)
  {
    c.Remove(id);
    present := c.Has(id);
    r := c.Get(id, args);
  }

  /** `get` caches nothing: two calls invoke the factory twice, and may yield distinct objects. */
  method GetTwice(c: Container, id: string, args: seq<Value>) returns (r1: Result<Value>, r2: Result<Value>)
    requires c.Valid() && id in c.injections
    modifies c.runtime
    ensures c.runtime.calls == old(c.runtime.calls) + [Call(c.injections[id], args), Call(c.injections[id], args)]
    ensures r1 == Outcome(c.runtime.behaviour(c.injections[id], args, |old(c.runtime.calls)|))
    ensures r2 == Outcome(c.runtime.behaviour(c.injections[id], args, |old(c.runtime.calls)| + 1))
  {
    r1 := c.Get(id, args);
    r2 := c.Get(id, args);
  }
}
