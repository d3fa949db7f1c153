/**
 * What `make` promises, stated over the functional model: the registry
 * operations, resolver priority, realizing a lazy singleton exactly once,
 * dispatch on the bound value, redirect chains, building an unbound alias as
 * a class, and the container's binding of itself.
 */
module ResolutionLaws {
  import opened Types
  import opened Registry
  import opened Resolution

  /** A second `bind` of the same alias replaces the first one entirely. */
  lemma BindOverwrites(st: Tables, alias: Alias, first: Value, second: Value)
    ensures st.Bind(alias, first).Bind(alias, second) == st.Bind(alias, second)
  {
    assert st.Bind(alias, first).Bind(alias, second).bindings == st.Bind(alias, second).bindings;
  }

  /** Appending a resolver never changes an answer the earlier ones give; it only answers when they all defer. */
  lemma {:induction false} AddResolverConsultedLast(h: Host, rs: seq<Resolver>, last: Resolver, alias: Alias, args: Args)
    ensures FirstAnswer(h, rs + [last], alias, args) ==
              if FirstAnswer(h, rs, alias, args).Some? then FirstAnswer(h, rs, alias, args)
              else if h.ask(last, alias, args) != Null then Some(h.ask(last, alias, args))
              else None
  {
    if rs == [] {
      assert [last][1..] == [];
    } else {
      assert (rs + [last])[1..] == rs[1..] + [last];
      AddResolverConsultedLast(h, rs[1..], last, alias, args);
    }
  }

  /**
   * The first resolver that does not defer decides `make`: its answer is
   * returned and the tables are left exactly as they were.
   */
  lemma ResolverShortCircuit(h: Host, st: Tables, alias: Alias, args: Args, fuel: nat, i: nat)
    requires fuel > 0 && i < |st.resolvers|
    requires h.ask(st.resolvers[i], alias, args) != Null
    requires forall j :: 0 <= j < i ==> h.ask(st.resolvers[j], alias, args) == Null
    ensures Make(h, st, alias, args, fuel) == (Ok(h.ask(st.resolvers[i], alias, args)), st)
  {
    var answer := FirstAnswer(h, st.resolvers, alias, args);
    assert answer.Some?;
    var k :| 0 <= k < |st.resolvers| && h.ask(st.resolvers[k], alias, args) == answer.value &&
             forall j :: 0 <= j < k ==> h.ask(st.resolvers[j], alias, args) == Null;
    assert k == i;
  }

  /**
   * Dispatch on a bound value that has no lazy entry: a callable is invoked
   * with the caller's arguments (checked before anything else), an object is
   * returned as it is, a string is resolved again as an alias, anything else
   * fails the string parameter type of `make`.
   */
  lemma Dispatch(h: Host, st: Tables, alias: Alias, args: Args, fuel: nat)
    requires fuel > 0
    requires FirstAnswer(h, st.resolvers, alias, args).None?
    requires alias !in st.singletons && alias in st.bindings
    ensures var b := st.bindings[alias];
            Make(h, st, alias, args, fuel) ==
              if h.callable(b) then (Ok(h.invoke(b, args)), st)
              else if b.Obj? then (Ok(b), st)
              else if b.Str? then Make(h, st, b.s, args, fuel - 1)
              else (Err(TypeError), st)
  {
  }

  /** An alias with no binding, no lazy entry and no resolver answer is built as a class name. */
  lemma Unbound(h: Host, st: Tables, alias: Alias, args: Args, fuel: nat)
    requires fuel > 0
    requires FirstAnswer(h, st.resolvers, alias, args).None?
    requires alias !in st.singletons && alias !in st.bindings
    ensures Make(h, st, alias, args, fuel) == BuildObject(h, st, Str(alias), args, fuel - 1)
  {
  }

  /** The result of building an unbound alias as a class is the result of `make` on it. */
  lemma UnboundResult(h: Host, st: Tables, alias: Alias, args: Args, fuel: nat, r: Result<Value>, st1: Tables)
    requires fuel > 0
    requires FirstAnswer(h, st.resolvers, alias, args).None?
    requires alias !in st.singletons && alias !in st.bindings
    requires (r, st1) == BuildObject(h, st, Str(alias), args, fuel - 1)
    ensures (r, st1) == Make(h, st, alias, args, fuel)
  {
    Unbound(h, st, alias, args, fuel);
  }

  /**
   * When no resolver answers, `make` first realizes a lazy entry of the
   * alias: a failed realization is the result, and after a successful one
   * `make` behaves as it does on the realized tables.
   */
  lemma RealizeFirst(h: Host, st: Tables, alias: Alias, args: Args, fuel: nat)
    requires fuel > 0 && FirstAnswer(h, st.resolvers, alias, args).None?
    ensures var (realized, st1) := Realize(h, st, alias, fuel - 1);
            && (realized.Fail? ==> Make(h, st, alias, args, fuel) == (Err(realized.error), st1))
            && (realized.Pass? ==> Make(h, st, alias, args, fuel) == Make(h, st1, alias, args, fuel))
  {
    var (realized, st1) := Realize(h, st, alias, fuel - 1);
    if realized.Pass? {
      assert Realize(h, st1, alias, fuel - 1) == (Pass, st1);
    }
  }

  /** An alias bound to the name of another alias, with nothing lazy or callable in between. */
  predicate RedirectsTo(h: Host, st: Tables, from: Alias, to: Alias)
  {
    from !in st.singletons && from in st.bindings && st.bindings[from] == Str(to) && !h.callable(Str(to))
  }

  /**
   * A chain of redirects `a0 -> a1 -> ... -> an` resolves transitively:
   * making `a0` is making `an`, one unit of fuel spent per hop.
   */
  lemma {:induction false} RedirectChain(h: Host, st: Tables, path: seq<Alias>, args: Args, fuel: nat)
    requires |path| >= 1 && fuel >= |path| - 1
    requires forall i :: 0 <= i < |path| - 1 ==>
               RedirectsTo(h, st, path[i], path[i + 1]) && FirstAnswer(h, st.resolvers, path[i], args).None?
    ensures Make(h, st, path[0], args, fuel) == Make(h, st, path[|path| - 1], args, fuel - (|path| - 1))
  {
    if |path| > 1 {
      RedirectStep(h, st, path[0], path[1], args, fuel);
      var rest := path[1..];
      forall i | 0 <= i < |rest| - 1
        ensures RedirectsTo(h, st, rest[i], rest[i + 1]) && FirstAnswer(h, st.resolvers, rest[i], args).None?
      {
        assert rest[i] == path[i + 1] && rest[i + 1] == path[i + 2];
      }
      RedirectChain(h, st, rest, args, fuel - 1);
      var last, left := path[|path| - 1], fuel - (|path| - 1);
      assert rest[0] == path[1] && rest[|rest| - 1] == last && fuel - 1 - (|rest| - 1) == left;
      assert Make(h, st, path[1], args, fuel - 1) == Make(h, st, last, args, left);
    }
  }

  /** One redirect: making `from` is making `to` with one unit of fuel less. */
  lemma RedirectStep(h: Host, st: Tables, from: Alias, to: Alias, args: Args, fuel: nat)
    requires fuel > 0 && RedirectsTo(h, st, from, to) && FirstAnswer(h, st.resolvers, from, args).None?
    ensures Make(h, st, from, args, fuel) == Make(h, st, to, args, fuel - 1)
  {
    Dispatch(h, st, from, args, fuel);
  }

  /**
   * The first `make` of a lazy singleton builds it once, from the arguments
   * stored at registration (not the caller's), binds the result under the
   * alias and drops the lazy entry. When the result is a plain object, that
   * object is what `make` returns, now and on every later call whatever the
   * arguments, and later calls change nothing.
   */
  lemma SingletonRealizedOnce(h: Host, st: Tables, alias: Alias, args: Args, args2: Args, fuel: nat, fuel2: nat)
    requires fuel > 0 && fuel2 > 0 && alias in st.singletons
    requires FirstAnswer(h, st.resolvers, alias, args).None?
    requires FirstAnswer(h, st.resolvers, alias, args2).None?
    ensures var (r, st2) := Make(h, st, alias, args, fuel);
            var (binding, stored) := st.singletons[alias];
            r.Ok? ==>
              && alias !in st2.singletons && alias in st2.bindings
              && (h.callable(binding) ==> st2.bindings[alias] == h.invoke(binding, stored))
              && (!h.callable(binding) ==> BuildObject(h, st, binding, stored, fuel - 1).0 == Ok(st2.bindings[alias]))
              && (st2.bindings[alias].Obj? && !h.callable(st2.bindings[alias]) ==>
                    r.value == st2.bindings[alias] && Make(h, st2, alias, args2, fuel2) == (Ok(r.value), st2))
  {
    var (r, st2) := Make(h, st, alias, args, fuel);
    var (realized, st1) := Realize(h, st, alias, fuel - 1);
    if r.Ok? {
      assert realized.Pass? && alias in st1.bindings && alias !in st1.singletons;
      var cached := st1.bindings[alias];
      if !h.callable(cached) && cached.Obj? {
        assert st2 == st1;
      } else if !h.callable(cached) && cached.Str? {
        assert Evolves(st1, st2);
      }
      assert st2.bindings[alias] == cached;
      if st2.bindings[alias].Obj? && !h.callable(st2.bindings[alias]) {
        Dispatch(h, st2, alias, args2, fuel2);
      }
    }
  }

  /**
   * An alias with no binding, no lazy entry and no resolver answer is built
   * as a class: an unknown class fails reflection, an abstract class or
   * interface is rejected, and a class without a constructor gets a new
   * object built with no arguments, whatever the caller passed. No failure
   * changes the tables.
   */
  lemma BuildsUnboundAlias(h: Host, st: Tables, alias: Alias, args: Args, fuel: nat)
    requires fuel > 0
    requires FirstAnswer(h, st.resolvers, alias, args).None?
    requires alias !in st.singletons && alias !in st.bindings
    ensures alias !in h.classes ==> Make(h, st, alias, args, fuel) == (Err(ReflectionFailure(alias)), st)
    ensures alias in h.classes && !h.classes[alias].instantiable ==>
              Make(h, st, alias, args, fuel) == (Err(InvalidArgument(alias)), st)
    ensures alias in h.classes && h.classes[alias].instantiable && h.classes[alias].ctor.None? ==>
              Make(h, st, alias, args, fuel) == (Ok(Obj(st.nextId, alias, [])), st.Allocate())
  {
  }

  /**
   * Building an unbound alias always yields a new object of that class: it
   * differs from every object that existed before.
   */
  lemma BuildsNewObject(h: Host, st: Tables, alias: Alias, args: Args, fuel: nat, earlier: Value)
    requires fuel > 0
    requires FirstAnswer(h, st.resolvers, alias, args).None?
    requires alias !in st.singletons && alias !in st.bindings
    requires earlier.Obj? && earlier.id < st.nextId
    ensures var r := Make(h, st, alias, args, fuel).0;
            r.Ok? ==> r.value.Obj? && r.value.cls == alias && r.value != earlier
  {
  }

  /**
   * A singleton registered under one alias for a class, and a plain `make`
   * of that class afterwards, give two different objects.
   */
  lemma SingletonDiffersFromFreshInstance(h: Host, st: Tables, alias: Alias, cls: Alias, fuel: nat)
    requires fuel > 1 && alias != cls
    requires alias in st.singletons && st.singletons[alias].0 == Str(cls) && !h.callable(Str(cls))
    requires cls !in st.singletons && cls !in st.bindings
    requires FirstAnswer(h, st.resolvers, alias, []).None? && FirstAnswer(h, st.resolvers, cls, []).None?
    ensures var (first, st2) := Make(h, st, alias, [], fuel);
            var (second, st3) := Make(h, st2, cls, [], fuel);
            first.Ok? && second.Ok? && !h.callable(st2.bindings[alias]) ==> first.value != second.value
  {
    var (first, st2) := Make(h, st, alias, [], fuel);
    if first.Ok? {
      SingletonRealizedOnce(h, st, alias, [], [], fuel, fuel);
      var (built, st1) := BuildObject(h, st, Str(cls), st.singletons[alias].1, fuel - 1);
      assert built == Ok(st2.bindings[alias]);
      var (realized, st1') := Realize(h, st, alias, fuel - 1);
      assert st1' == st1.Cache(alias, built.value);
      if !h.callable(st2.bindings[alias]) {
        assert first.value == st2.bindings[alias];
        BuildsNewObject(h, st2, cls, [], fuel, first.value);
      }
    }
  }

  /**
   * `buildObject` constructs with what `buildArguments` made of the caller's
   * array: a class without a constructor gets no arguments; otherwise the
   * filled slots, spread in ascending order, and the tables `buildArguments`
   * left, with one more allocation. A failure of `buildArguments` is the
   * failure of the build.
   */
  lemma BuildObjectUsesArguments(h: Host, st: Tables, binding: Value, args: Args, fuel: nat)
    requires binding.Str? && binding.s in h.classes && h.classes[binding.s].instantiable
    ensures var r := BuildObject(h, st, binding, args, fuel);
            h.classes[binding.s].ctor.None? ==> r == (Ok(Obj(st.nextId, binding.s, [])), st.Allocate())
    ensures var r := BuildObject(h, st, binding, args, fuel);
            h.classes[binding.s].ctor.Some? ==>
              var ps := h.classes[binding.s].ctor.value;
              var built := BuildArguments(h, st, ps, args, fuel);
              && (built.0.Err? ==> r == (Err(built.0.error), built.1))
              && (built.0.Ok? ==> r == (Ok(Obj(built.1.nextId, binding.s, Spread(built.0.value, |ps|))), built.1.Allocate()))
  {
  }

  /**
   * A new container answers `make` of the `Ioc` class name with itself, and
   * after `flush` that name is no longer bound.
   */
  lemma ContainerBindsItself(h: Host, self: Value, nextId: nat, args: Args, fuel: nat)
    requires fuel > 0 && self.Obj? && !h.callable(self)
    ensures Make(h, Initial(self, nextId), IocClass, args, fuel) == (Ok(self), Initial(self, nextId))
    ensures IocClass !in Initial(self, nextId).Flush().bindings
    ensures Initial(self, nextId).Flush().Resolve(IocClass) == Str(IocClass)
  {
    Dispatch(h, Initial(self, nextId), IocClass, args, fuel);
  }
}
