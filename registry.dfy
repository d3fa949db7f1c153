/**
 * The container's state: the binding table (`$map`), the lazy singleton
 * table (`$singletons`), the ordered resolver list (`$resolvers`), plus the
 * counter the PHP heap uses to give each new object its identity. The
 * operations here are the ones that only rewrite the tables.
 */
module Registry {
  import opened Types

  /** The class name under which the container binds itself. */
  const IocClass: string := "BapCat\\Phi\\Ioc"

  /** The class of the container object itself. */
  const PhiClass: string := "BapCat\\Phi\\Phi"

  datatype Tables = Tables(
    bindings: map<Alias, Value>,
    singletons: map<Alias, (Value, Args)>,
    resolvers: seq<Resolver>,
    nextId: nat)
  {
    /** `resolve`: the bound value, or the alias itself when nothing is bound. */
    function Resolve(alias: Alias): Value
    {
      if alias in bindings then bindings[alias] else Str(alias)
    }

    /** `bind`: overwrite the binding for `alias`; nothing else changes. */
    function Bind(alias: Alias, binding: Value): (r: Tables)
      ensures r.Resolve(alias) == binding
      ensures forall a :: a != alias ==> r.Resolve(a) == Resolve(a)
      ensures r.singletons == singletons && r.resolvers == resolvers && r.nextId == nextId
    {
      this.(bindings := bindings[alias := binding])
    }

    /**
     * `singleton`: a non-object, or any callable, is stored lazily with the
     * arguments it is to be built with; a plain object is bound directly.
     */
    function Singleton(h: Host, alias: Alias, binding: Value, args: Args): (r: Tables)
      ensures !binding.Obj? || h.callable(binding) ==>
        r.singletons == singletons[alias := (binding, args)] && r.bindings == bindings
      ensures binding.Obj? && !h.callable(binding) ==>
        r.singletons == singletons && r.Resolve(alias) == binding
      ensures forall a :: a != alias ==> r.Resolve(a) == Resolve(a)
      ensures r.resolvers == resolvers && r.nextId == nextId
    {
      if !binding.Obj? || h.callable(binding) then
        this.(singletons := singletons[alias := (binding, args)])
      else
        Bind(alias, binding)
    }

    /** `addResolver`: append to the resolver chain. */
    function AddResolver(resolver: Resolver): (r: Tables)
      ensures |r.resolvers| == |resolvers| + 1
      ensures r.resolvers[..|resolvers|] == resolvers && r.resolvers[|resolvers|] == resolver
      ensures r.bindings == bindings && r.singletons == singletons && r.nextId == nextId
    {
      this.(resolvers := resolvers + [resolver])
    }

    /** `flush`: all three tables become empty. */
    function Flush(): (r: Tables)
      ensures r.bindings == map[] && forall a :: r.Resolve(a) == Str(a)
      ensures r.singletons == map[] && r.resolvers == []
      ensures r.nextId == nextId
    {
      Tables(map[], map[], [], nextId)
    }

    /** Record a realized singleton: bind it, then drop the lazy entry. */
    function Cache(alias: Alias, instance: Value): (r: Tables)
      ensures r.Resolve(alias) == instance && alias !in r.singletons
      ensures forall a :: a != alias ==> r.Resolve(a) == Resolve(a)
      ensures forall a :: a != alias ==> (a in r.singletons <==> a in singletons)
      ensures forall a :: a != alias && a in singletons ==> r.singletons[a] == singletons[a]
      ensures r.resolvers == resolvers && r.nextId == nextId
    {
      this.(bindings := bindings[alias := instance], singletons := singletons - {alias})
    }

    /** Account for one object allocation. */
    function Allocate(): (r: Tables)
      ensures r.nextId == nextId + 1
    {
      this.(nextId := nextId + 1)
    }
  }

  /**
   * The tables of a freshly constructed container whose own object is
   * `self`: the container is bound under the `Ioc` class name.
   */
  function Initial(self: Value, nextId: nat): (r: Tables)
    ensures r.Resolve(IocClass) == self
    ensures forall a :: a != IocClass ==> r.Resolve(a) == Str(a)
    ensures r.singletons == map[] && r.resolvers == []
  {
    Tables(map[], map[], [], nextId).Bind(IocClass, self)
  }

  /**
   * The first non-null answer of the resolvers, asked in order; None when
   * every resolver defers.
   */
  function FirstAnswer(h: Host, rs: seq<Resolver>, alias: Alias, args: Args): (r: Option<Value>)
    ensures r.Some? ==> r.value != Null
    ensures r.Some? ==>
              exists i :: 0 <= i < |rs| && h.ask(rs[i], alias, args) == r.value &&
                          forall j :: 0 <= j < i ==> h.ask(rs[j], alias, args) == Null
    ensures r.None? <==> forall i :: 0 <= i < |rs| ==> h.ask(rs[i], alias, args) == Null
  {
    if rs == [] then None
    else
      var answer := h.ask(rs[0], alias, args);
      if answer != Null then
        assert h.ask(rs[0], alias, args) == answer;
        Some(answer)
      else
        var rest := FirstAnswer(h, rs[1..], alias, args);
        if rest.Some? then
          var i :| 0 <= i < |rs[1..]| && h.ask(rs[1..][i], alias, args) == rest.value &&
            forall j :: 0 <= j < i ==> h.ask(rs[1..][j], alias, args) == Null;
          assert h.ask(rs[i + 1], alias, args) == rest.value;
          assert forall j :: 0 <= j < i + 1 ==> h.ask(rs[j], alias, args) == Null by {
            forall j | 0 <= j < i + 1 ensures h.ask(rs[j], alias, args) == Null {
              if j > 0 { assert rs[j] == rs[1..][j - 1]; }
            }
          }
          rest
        else
          assert forall i :: 0 <= i < |rs| ==> h.ask(rs[i], alias, args) == Null by {
            forall i | 0 <= i < |rs| ensures h.ask(rs[i], alias, args) == Null {
              if i > 0 { assert rs[i] == rs[1..][i - 1]; }
            }
          }
          rest
  }

  /**
   * How one resolution may change the tables: the resolver list never
   * changes, identities are only allocated, lazy entries only disappear (each
   * one leaving a binding behind), and bindings that had no lazy entry keep
   * their value.
   */
  ghost predicate Evolves(st: Tables, st': Tables)
  {
    && st'.resolvers == st.resolvers
    && st.nextId <= st'.nextId
    && (forall a :: a in st'.singletons ==> a in st.singletons && st'.singletons[a] == st.singletons[a])
    && (forall a :: a in st.singletons && a !in st'.singletons ==> a in st'.bindings)
    && (forall a :: a in st.bindings ==> a in st'.bindings)
    && (forall a :: a in st.bindings && a !in st.singletons ==> st'.bindings[a] == st.bindings[a])
    && (forall a :: a in st'.bindings && a !in st.bindings ==> a in st.singletons)
  }

  lemma EvolvesTransitive(st0: Tables, st1: Tables, st2: Tables)
    requires Evolves(st0, st1) && Evolves(st1, st2)
    ensures Evolves(st0, st2)
  {
  }
}
