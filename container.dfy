/**
 * The container object `Phi` as it runs: its three tables are fields that
 * `bind`, `singleton`, `addResolver`, `flush` and `make` reassign, and
 * `buildArguments` fills its parameter slots with three loops over a pool of
 * caller arguments. Every method is proved to do exactly what the matching
 * function of `Resolution` or `Registry` says.
 */
module Container {
  import opened Types
  import opened Registry
  import opened Resolution
  import ResolutionLaws

  /** The inner loop of pass 1: the first parameter called `name`. */
  method FindParam(params: seq<Param>, name: string) returns (r: Option<nat>)
    ensures r == ParamIndex(params, name)
  {
    var q := 0;
    while q < |params|
      invariant 0 <= q <= |params|
      invariant forall k :: 0 <= k < q ==> params[k].name != name
    {
      if params[q].name == name {
        return Some(q);
      }
      q := q + 1;
    }
    return None;
  }

  /** The inner loop of pass 2: the first pooled object of class `t`. */
  method FindInstance(h: Host, pool: Args, t: string) returns (r: Option<nat>)
    ensures r == FirstInstance(h, pool, t)
  {
    var q := 0;
    while q < |pool|
      invariant 0 <= q <= |pool|
      invariant forall k :: 0 <= k < q ==> !InstanceOf(h, pool[k].1, t)
    {
      if InstanceOf(h, pool[q].1, t) {
        return Some(q);
      }
      q := q + 1;
    }
    return None;
  }

  /**
   * The dependency-injection container. `self` is the container seen as a
   * PHP object; `nextId` is the identity the next object allocated by
   * `new $class(...)` receives.
   */
  class Phi {
    const host: Host
    const self: Value
    var bindings: map<Alias, Value>
    var singletons: map<Alias, (Value, Args)>
    var resolvers: seq<Resolver>
    var nextId: nat

    /** The tables, as a value. */
    function Snapshot(): Tables
      reads this
    {
      Tables(bindings, singletons, resolvers, nextId)
    }

    /** The constructor binds the container to the `Ioc` class name. */
    constructor (host: Host)
      ensures this.host == host && self == Obj(0, PhiClass, [])
      ensures Snapshot() == Initial(self, 1)
    {
      this.host := host;
      self := Obj(0, PhiClass, []);
      bindings, singletons, resolvers, nextId := map[], map[], [], 1;
      new;
      Bind(IocClass, self);
    }

    /** `resolve`: the binding of the alias, or the alias itself as a string when it is unbound. */
    function Resolve(alias: Alias): (r: Value)
      reads this
      ensures alias in bindings ==> r == bindings[alias]
      ensures alias !in bindings ==> r == Str(alias)
    {
      Snapshot().Resolve(alias)
    }

    method Flush()
      modifies this
      ensures Snapshot() == old(Snapshot()).Flush()
    {
      bindings := map[];
      singletons := map[];
      resolvers := [];
    }

    method Bind(alias: Alias, binding: Value)
      modifies this
      ensures Snapshot() == old(Snapshot()).Bind(alias, binding)
    {
      bindings := bindings[alias := binding];
    }

    method Singleton(alias: Alias, binding: Value, args: Args)
      modifies this
      ensures Snapshot() == old(Snapshot()).Singleton(host, alias, binding, args)
    {
      if !binding.Obj? || host.callable(binding) {
        singletons := singletons[alias := (binding, args)];
      } else {
        Bind(alias, binding);
      }
    }

    method AddResolver(resolver: Resolver)
      modifies this
      ensures Snapshot() == old(Snapshot()).AddResolver(resolver)
    {
      resolvers := resolvers + [resolver];
    }

    /** The resolver loop of `make`: ask each resolver in order and stop at the first that does not defer. */
    method AskResolvers(alias: Alias, args: Args) returns (answer: Option<Value>)
      ensures answer == FirstAnswer(host, resolvers, alias, args)
    {
      var i := 0;
      while i < |resolvers|
        invariant 0 <= i <= |resolvers|
        invariant FirstAnswer(host, resolvers[i..], alias, args) == FirstAnswer(host, resolvers, alias, args)
      {
        assert resolvers[i..][1..] == resolvers[i + 1..];
        var a := host.ask(resolvers[i], alias, args);
        if a != Null {
          return Some(a);
        }
        i := i + 1;
      }
      return None;
    }

    method Make(alias: Alias, args: Args, fuel: nat) returns (r: Result<Value>)
      modifies this
      ensures (r, Snapshot()) == Resolution.Make(host, old(Snapshot()), alias, args, fuel)
      decreases fuel, 0, 2
    {
      ghost var st := Snapshot();
      if fuel == 0 {
        assert Resolution.Make(host, st, alias, args, fuel) == (Err(OutOfFuel), st);
        return Err(OutOfFuel);
      }
      var answer := AskResolvers(alias, args);
      if answer.Some? {
        assert Resolution.Make(host, st, alias, args, fuel) == (Ok(answer.value), st);
        return Ok(answer.value);
      }
      ResolutionLaws.RealizeFirst(host, st, alias, args, fuel);
      var realized := Realize(alias, fuel - 1);
      assert (realized, Snapshot()) == Resolution.Realize(host, st, alias, fuel - 1);
      if realized.Fail? {
        assert (Err(realized.error), Snapshot()) == Resolution.Make(host, st, alias, args, fuel);
        return Err(realized.error);
      }
      assert Resolution.Make(host, st, alias, args, fuel) == Resolution.Make(host, Snapshot(), alias, args, fuel);
      r := Lookup(alias, args, fuel);
    }

    /**
     * The rest of `make` once no resolver answered and the alias has no lazy
     * entry: dispatch on the bound value, or build the alias as a class.
     */
    method Lookup(alias: Alias, args: Args, fuel: nat) returns (r: Result<Value>)
      requires fuel > 0 && alias !in singletons && FirstAnswer(host, resolvers, alias, args).None?
      modifies this
      ensures (r, Snapshot()) == Resolution.Make(host, old(Snapshot()), alias, args, fuel)
      decreases fuel, 0, 1
    {
      if alias in bindings {
        r := Dispatch(alias, args, fuel);
      } else {
        r := BuildUnbound(alias, args, fuel);
      }
    }

    /** `make` on an alias with no binding: build the alias itself as a class. */
    method BuildUnbound(alias: Alias, args: Args, fuel: nat) returns (r: Result<Value>)
      requires fuel > 0 && alias !in singletons && FirstAnswer(host, resolvers, alias, args).None?
      requires alias !in bindings
      modifies this
      ensures (r, Snapshot()) == Resolution.Make(host, old(Snapshot()), alias, args, fuel)
      decreases fuel, 0, 0
    {
      ghost var st := Snapshot();
      r := BuildObject(Str(alias), args, fuel - 1);
      ResolutionLaws.UnboundResult(host, st, alias, args, fuel, r, Snapshot());
    }

    /** `make` on a bound alias: call a callable, return an object, follow a name. */
    method Dispatch(alias: Alias, args: Args, fuel: nat) returns (r: Result<Value>)
      requires fuel > 0 && alias !in singletons && FirstAnswer(host, resolvers, alias, args).None?
      requires alias in bindings
      modifies this
      ensures (r, Snapshot()) == Resolution.Make(host, old(Snapshot()), alias, args, fuel)
      decreases fuel, 0, 0
    {
      var binding := bindings[alias];
      ResolutionLaws.Dispatch(host, Snapshot(), alias, args, fuel);
      if host.callable(binding) {
        return Ok(host.invoke(binding, args));
      }
      if binding.Obj? {
        return Ok(binding);
      }
      if !binding.Str? {
        return Err(TypeError);
      }
      r := Make(binding.s, args, fuel - 1);
    }

    method Realize(alias: Alias, fuel: nat) returns (o: Outcome)
      modifies this
      ensures (o, Snapshot()) == Resolution.Realize(host, old(Snapshot()), alias, fuel)
      decreases fuel, 4, 0
    {
      if alias !in singletons {
        return Pass;
      }
      var (binding, stored) := singletons[alias];
      if host.callable(binding) {
        bindings := bindings[alias := host.invoke(binding, stored)];
      } else {
        var built := BuildObject(binding, stored, fuel);
        if built.Err? {
          return Fail(built.error);
        }
        bindings := bindings[alias := built.value];
      }
      singletons := singletons - {alias};
      return Pass;
    }

    method BuildObject(binding: Value, args: Args, fuel: nat) returns (r: Result<Value>)
      modifies this
      ensures (r, Snapshot()) == Resolution.BuildObject(host, old(Snapshot()), binding, args, fuel)
      decreases fuel, 3, 0
    {
      if !binding.Str? {
        return Err(TypeError);
      }
      if binding.s !in host.classes {
        return Err(ReflectionFailure(binding.s));
      }
      var info := host.classes[binding.s];
      if !info.instantiable {
        return Err(InvalidArgument(binding.s));
      }
      match info.ctor {
        case None =>
          r := Ok(Obj(nextId, binding.s, []));
          nextId := nextId + 1;
        case Some(params) =>
          var values := BuildArguments(params, args, fuel);
          if values.Err? {
            return Err(values.error);
          }
          r := Ok(Obj(nextId, binding.s, Spread(values.value, |params|)));
          nextId := nextId + 1;
      }
    }

    method Call(c: Value, args: Args, fuel: nat) returns (r: Result<Value>)
      modifies this
      ensures (r, Snapshot()) == Resolution.Call(host, old(Snapshot()), c, args, fuel)
    {
      if !host.callable(c) {
        return Err(TypeError);
      }
      var params := host.signature(c);
      var values := BuildArguments(params, args, fuel);
      if values.Err? {
        return Err(values.error);
      }
      r := Ok(host.invoke(c, Positional(Spread(values.value, |params|))));
    }

    method BuildArguments(params: seq<Param>, args: Args, fuel: nat) returns (r: Result<map<nat, Value>>)
      modifies this
      ensures (r, Snapshot()) == Resolution.BuildArguments(host, old(Snapshot()), params, args, fuel)
      decreases fuel, 2, 0
    {
      var pool: Args, values: map<nat, Value> := MatchNames(params, args);
      pool, values := MatchTypes(host, params, pool, values);

      // Pass 3: fill what is still empty.
      ghost var pool0, values0, st0 := pool, values, Snapshot();
      var p: nat := 0;
      while p < |params|
        invariant 0 <= p <= |params|
        invariant FillPass(host, Snapshot(), params, p, pool, values, fuel) ==
                  FillPass(host, st0, params, 0, pool0, values0, fuel)
      {
        if p !in values {
          match params[p].classType {
            case Some(t) =>
              if t !in host.classes {
                return Err(ReflectionFailure(t));
              }
              if host.classes[t].isValue {
                var (arg, rest) := Shift(pool);
                pool := rest;
                var made := Make(t, [(Pos(0), arg)], fuel);
                if made.Err? {
                  return Err(made.error);
                }
                values := values[p := made.value];
              } else if !params[p].optional {
                var made := Make(t, [], fuel);
                if made.Err? {
                  return Err(made.error);
                }
                values := values[p := made.value];
              }
            case None =>
              if |pool| != 0 {
                var (arg, rest) := Shift(pool);
                values := values[p := arg];
                pool := rest;
              }
          }
        }
        p := p + 1;
      }
      return Ok(values);
    }
  }

  /** Pass 1 of `buildArguments`: named entries go to the parameter of that name. */
  method MatchNames(params: seq<Param>, args: Args) returns (pool: Args, values: map<nat, Value>)
    ensures (pool, values) == NamePass(params, args, args, map[])
  {
    pool, values := args, map[];
    var i := 0;
    while i < |args|
      invariant 0 <= i <= |args|
      invariant NamePass(params, args[i..], pool, values) == NamePass(params, args, args, map[])
    {
      assert args[i..][1..] == args[i + 1..];
      var (key, arg) := args[i];
      if key.Named? {
        var hit := FindParam(params, key.name);
        if hit.Some? {
          values := values[hit.value := arg];
          pool := RemoveKey(pool, key);
        }
      }
      i := i + 1;
    }
  }

  /** Pass 2 of `buildArguments`: class-typed parameters take the first pooled object of their type. */
  method MatchTypes(h: Host, params: seq<Param>, pool0: Args, values0: map<nat, Value>)
    returns (pool: Args, values: map<nat, Value>)
    ensures (pool, values) == TypePass(h, params, 0, pool0, values0)
  {
    pool, values := pool0, values0;
    var p := 0;
    while p < |params|
      invariant 0 <= p <= |params|
      invariant TypePass(h, params, p, pool, values) == TypePass(h, params, 0, pool0, values0)
    {
      match params[p].classType {
        case Some(t) =>
          var j := FindInstance(h, pool, t);
          if j.Some? {
            values := values[p := pool[j.value].1];
            pool := RemoveKey(pool, pool[j.value].0);
          }
        case None =>
      }
      p := p + 1;
    }
  }

  /**
   * The process-wide `Ioc::$instance` slot and its lazy accessor. PHP keeps
   * it in a static field; here it is an object the caller holds.
   */
  class Ioc {
    const host: Host
    var instance: Phi?

    constructor (host: Host)
      ensures this.host == host && instance == null
    {
      this.host := host;
      instance := null;
    }

    /** `instance()`: construct the container on first use, then always return it. */
    method Instance() returns (phi: Phi)
      modifies this
      ensures instance == phi
      ensures old(instance) != null ==> phi == old(instance)
      ensures old(instance) == null ==> fresh(phi) && phi.host == host && phi.Snapshot() == Initial(phi.self, 1)
    {
      if instance == null {
        instance := new Phi(host);
      }
      phi := instance;
    }
  }
}
