/**
 * The resolution algorithm of `Phi` as functions over the container's
 * tables: `make`, the lazy-singleton realization inside it, `buildObject`,
 * `call` and the three passes of `buildArguments`. Each function returns its
 * result together with the tables as they are afterwards, since building a
 * dependency may realize singletons and allocate objects.
 *
 * PHP bounds none of this recursion (a redirect cycle or a cyclic constructor
 * dependency recurses until the stack is exhausted); here every `make` spends
 * one unit of `fuel` and reports `OutOfFuel` when none is left.
 */
module Resolution {
  import opened Types
  import opened Registry

  /** Every assigned slot belongs to a parameter. */
  predicate KeysBelow(values: map<nat, Value>, n: nat)
  {
    forall p :: p in values ==> p < n
  }

  /** The class `t` exists and extends the value-object base class. */
  predicate IsValueClass(h: Host, t: string)
  {
    t in h.classes && h.classes[t].isValue
  }

  /**
   * A parameter the third pass builds through `make` when the caller supplied
   * nothing for it: a value-object parameter, or a required class-typed one.
   */
  predicate Injected(h: Host, prm: Param)
  {
    prm.classType.Some? && (!prm.optional || IsValueClass(h, prm.classType.value))
  }

  /**
   * `make($alias, $arguments)`: resolvers first, then the lazy singleton,
   * then the binding (callable, object or redirect), else build the alias as
   * a class.
   */
  function Make(h: Host, st: Tables, alias: Alias, args: Args, fuel: nat): (r: (Result<Value>, Tables))
    ensures Evolves(st, r.1)
    ensures fuel > 0 && FirstAnswer(h, st.resolvers, alias, args).None? && r.0.Ok? ==>
              alias !in r.1.singletons
    decreases fuel, 0, 0
  {
    if fuel == 0 then (Err(OutOfFuel), st)
    else match FirstAnswer(h, st.resolvers, alias, args)
      case Some(answer) => (Ok(answer), st)
      case None =>
        var (realized, st1) := Realize(h, st, alias, fuel - 1);
        if realized.Fail? then (Err(realized.error), st1)
        else if alias in st1.bindings then
          var binding := st1.bindings[alias];
          if h.callable(binding) then (Ok(h.invoke(binding, args)), st1)
          else if binding.Obj? then (Ok(binding), st1)
          else if binding.Str? then
            var r := Make(h, st1, binding.s, args, fuel - 1);
            EvolvesTransitive(st, st1, r.1);
            r
          else (Err(TypeError), st1)
        else
          var r := BuildObject(h, st1, Str(alias), args, fuel - 1);
          EvolvesTransitive(st, st1, r.1);
          r
  }

  /**
   * The singleton step of `make`: a lazy entry is built once, with the
   * arguments stored at registration, bound under its alias and removed.
   */
  function Realize(h: Host, st: Tables, alias: Alias, fuel: nat): (r: (Outcome, Tables))
    ensures Evolves(st, r.1)
    ensures r.0.Pass? ==> alias !in r.1.singletons
    ensures alias !in st.singletons ==> r == (Pass, st)
    decreases fuel, 4, 0
  {
    if alias !in st.singletons then (Pass, st)
    else
      var (binding, stored) := st.singletons[alias];
      if h.callable(binding) then (Pass, st.Cache(alias, h.invoke(binding, stored)))
      else
        var (built, st1) := BuildObject(h, st, binding, stored, fuel);
        if built.Err? then (Fail(built.error), st1)
        else (Pass, st1.Cache(alias, built.value))
  }

  /**
   * `buildObject($binding, $arguments)`: instantiate a class, filling its
   * constructor's parameters with `buildArguments`.
   */
  function BuildObject(h: Host, st: Tables, binding: Value, args: Args, fuel: nat): (r: (Result<Value>, Tables))
    ensures Evolves(st, r.1)
    ensures r.0.Ok? ==> binding.Str? && r.0.value.Obj? && r.0.value.cls == binding.s
    ensures r.0.Ok? ==> st.nextId <= r.0.value.id < r.1.nextId
    decreases fuel, 3, 0
  {
    if !binding.Str? then (Err(TypeError), st)
    else if binding.s !in h.classes then (Err(ReflectionFailure(binding.s)), st)
    else
      var info := h.classes[binding.s];
      if !info.instantiable then (Err(InvalidArgument(binding.s)), st)
      else match info.ctor
        case None => (Ok(Obj(st.nextId, binding.s, [])), st.Allocate())
        case Some(params) =>
          var (values, st1) := BuildArguments(h, st, params, args, fuel);
          if values.Err? then (Err(values.error), st1)
          else (Ok(Obj(st1.nextId, binding.s, Spread(values.value, |params|))), st1.Allocate())
  }

  /**
   * `buildArguments`: fill the parameters by name, then by type, then by
   * injection and position; the result maps parameter indices to values.
   */
  function BuildArguments(h: Host, st: Tables, params: seq<Param>, args: Args, fuel: nat)
    : (r: (Result<map<nat, Value>>, Tables))
    ensures Evolves(st, r.1)
    ensures r.0.Ok? ==> KeysBelow(r.0.value, |params|)
    ensures r.0.Ok? ==> forall q :: 0 <= q < |params| && Injected(h, params[q]) ==> q in r.0.value
    decreases fuel, 2, 0
  {
    var (pool1, named) := NamePass(params, args, args, map[]);
    var (pool2, typed) := TypePass(h, params, 0, pool1, named);
    FillPass(h, st, params, 0, pool2, typed, fuel)
  }

  /**
   * Pass 1 over the caller's entries `rest` (a copy of the array): a named
   * entry goes to the first parameter of that name and leaves the pool.
   */
  function NamePass(params: seq<Param>, rest: Args, pool: Args, values: map<nat, Value>)
    : (r: (Args, map<nat, Value>))
    ensures multiset(r.0) <= multiset(pool)
    ensures forall e :: e in r.0 ==> e in pool
    ensures forall q :: q in values ==> q in r.1
    ensures forall q :: q in r.1 && q !in values ==>
              q < |params| && ParamIndex(params, params[q].name) == Some(q) &&
              exists e :: e in rest && e.0 == Named(params[q].name)
    decreases |rest|
  {
    if rest == [] then (pool, values)
    else
      var (key, arg) := rest[0];
      var hit := if key.Named? then ParamIndex(params, key.name) else None;
      if hit.Some? then NamePass(params, rest[1..], RemoveKey(pool, key), values[hit.value := arg])
      else NamePass(params, rest[1..], pool, values)
  }

  /**
   * Pass 2 over the parameters from index `p`: a class-typed parameter takes
   * the first pooled object of its type, whether or not pass 1 filled it.
   */
  function TypePass(h: Host, params: seq<Param>, p: nat, pool: Args, values: map<nat, Value>)
    : (r: (Args, map<nat, Value>))
    ensures multiset(r.0) <= multiset(pool)
    ensures forall e :: e in r.0 ==> e in pool
    ensures forall q :: q in values ==> q in r.1
    ensures forall q :: q in r.1 && (q in values ==> r.1[q] != values[q]) ==>
              p <= q < |params| && params[q].classType.Some? &&
              InstanceOf(h, r.1[q], params[q].classType.value)
    ensures forall q :: p <= q < |params| && params[q].classType.Some? ==>
              (q in r.1 && InstanceOf(h, r.1[q], params[q].classType.value)) ||
              (forall e :: e in r.0 ==> !InstanceOf(h, e.1, params[q].classType.value))
    decreases |params| - p
  {
    if p >= |params| then (pool, values)
    else
      var next := TypeStep(h, params[p], p, pool, values);
      TypePass(h, params, p + 1, next.0, next.1)
  }

  /** Pass 2 at parameter `p`: a class-typed parameter takes the first pooled instance of its type, which leaves the pool. */
  function TypeStep(h: Host, param: Param, p: nat, pool: Args, values: map<nat, Value>): (Args, map<nat, Value>)
  {
    match param.classType
    case Some(t) =>
      (match FirstInstance(h, pool, t)
        case Some(j) => (RemoveKey(pool, pool[j].0), values[p := pool[j].1])
        case None => (pool, values))
    case None => (pool, values)
  }

  /**
   * Pass 3 over the parameters from index `p` that are still empty: value
   * objects wrap the next pooled value, required class types are injected
   * with `make`, optional class types stay empty, untyped parameters take
   * the next pooled value if there is one.
   */
  function FillPass(h: Host, st: Tables, params: seq<Param>, p: nat, pool: Args,
                    values: map<nat, Value>, fuel: nat): (r: (Result<map<nat, Value>>, Tables))
    ensures Evolves(st, r.1)
    ensures r.0.Ok? ==> forall q :: q in values ==> q in r.0.value && r.0.value[q] == values[q]
    ensures r.0.Ok? ==> forall q :: q in r.0.value ==> q in values || p <= q < |params|
    ensures r.0.Ok? ==> forall q :: p <= q < |params| && Injected(h, params[q]) ==> q in r.0.value
    ensures r.0.Ok? ==>
              forall q :: (p <= q < |params| && q !in values && params[q].classType.Some? &&
                           params[q].optional && !IsValueClass(h, params[q].classType.value)) ==>
                          q !in r.0.value
    decreases fuel, 1, |params| - p
  {
    if p >= |params| then (Ok(values), st)
    else if p in values then FillPass(h, st, params, p + 1, pool, values, fuel)
    else match params[p].classType
      case Some(t) =>
        if t !in h.classes then (Err(ReflectionFailure(t)), st)
        else if h.classes[t].isValue then
          var (arg, rest) := Shift(pool);
          var (made, st1) := Make(h, st, t, [(Pos(0), arg)], fuel);
          if made.Err? then (Err(made.error), st1)
          else
            var r := FillPass(h, st1, params, p + 1, rest, values[p := made.value], fuel);
            EvolvesTransitive(st, st1, r.1);
            r
        else if !params[p].optional then
          var (made, st1) := Make(h, st, t, [], fuel);
          if made.Err? then (Err(made.error), st1)
          else
            var r := FillPass(h, st1, params, p + 1, pool, values[p := made.value], fuel);
            EvolvesTransitive(st, st1, r.1);
            r
        else FillPass(h, st, params, p + 1, pool, values, fuel)
      case None =>
        if |pool| != 0 then
          var (arg, rest) := Shift(pool);
          FillPass(h, st, params, p + 1, rest, values[p := arg], fuel)
        else FillPass(h, st, params, p + 1, pool, values, fuel)
  }

  /**
   * `call($call, $arguments)`: fill the callable's parameters like a
   * constructor's and invoke it with the result, spread positionally.
   */
  function Call(h: Host, st: Tables, c: Value, args: Args, fuel: nat): (r: (Result<Value>, Tables))
    ensures Evolves(st, r.1)
    ensures !h.callable(c) ==> r == (Err(TypeError), st)
    ensures h.callable(c) ==>
              var ps := h.signature(c);
              var built := BuildArguments(h, st, ps, args, fuel);
              && (built.0.Err? ==> r == (Err(built.0.error), built.1))
              && (built.0.Ok? ==> r == (Ok(h.invoke(c, Positional(Spread(built.0.value, |ps|)))), built.1))
  {
    if !h.callable(c) then (Err(TypeError), st)
    else
      var params := h.signature(c);
      var (values, st1) := BuildArguments(h, st, params, args, fuel);
      if values.Err? then (Err(values.error), st1)
      else (Ok(h.invoke(c, Positional(Spread(values.value, |params|)))), st1)
  }
}
