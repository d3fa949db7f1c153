/**
 * The value universe the container works on, and the host capabilities it
 * consumes without implementing: the class signature table (what PHP's
 * reflection reports), callability, invocation of callables and the answers
 * of custom resolvers.
 */
module Types {

  /** An alias: a symbolic name ("db.helper") or the name of a class. */
  type Alias = string

  /** A PHP array key. Integer-like strings are already normalised to `Pos`. */
  datatype Key = Pos(n: int) | Named(name: string)

  /**
   * A PHP value. Objects carry an identity `id` (two objects are the same
   * object exactly when their ids agree), their class and the argument list
   * their constructor received. Closures are objects of class "Closure".
   */
  datatype Value =
    | Null
    | Bool(b: bool)
    | Int(i: int)
    | Str(s: string)
    | Arr(entries: seq<(Key, Value)>)
    | Obj(id: nat, cls: string, ctorArgs: seq<Value>)

  /** An ordered PHP array of arguments, positional and named entries mixed. */
  type Args = seq<(Key, Value)>

  datatype Option<T> = None | Some(value: T)

  /** What can go wrong while resolving an alias. */
  datatype Error =
    | InvalidArgument(cls: string)   // the class is abstract or an interface
    | ReflectionFailure(name: string) // the class does not exist
    | TypeError                       // a strict-types parameter check failed
    | OutOfFuel                       // the recursion bound of the model was reached

  datatype Result<T> = Ok(value: T) | Err(error: Error)

  datatype Outcome = Pass | Fail(error: Error)

  /**
   * A constructor or function parameter as reflection reports it.
   * `classType` is the declared type when it is a named, non-builtin type.
   */
  datatype Param = Param(name: string, classType: Option<string>, optional: bool)

  /**
   * What reflection knows of a class: whether it can be instantiated, its
   * constructor's parameters (None when it has no constructor), whether it
   * is a subclass of the value-object base class, and the classes and
   * interfaces its instances conform to.
   */
  datatype ClassInfo = ClassInfo(
    instantiable: bool,
    ctor: Option<seq<Param>>,
    isValue: bool,
    supertypes: set<string>)

  /** A registered custom resolver, known only by its identity. */
  datatype Resolver = Resolver(id: nat)

  /**
   * The host environment: the class table, `is_callable`, calling a callable
   * with a spread argument array, a resolver's answer (Null means "defer")
   * and the parameter list reflection gives for a callable.
   */
  datatype Host = Host(
    classes: map<string, ClassInfo>,
    callable: Value -> bool,
    invoke: (Value, Args) -> Value,
    ask: (Resolver, Alias, Args) -> Value,
    signature: Value -> seq<Param>)

  /** `is_object(v) && v instanceof t`. */
  predicate InstanceOf(h: Host, v: Value, t: string)
  {
    v.Obj? && (v.cls == t || (v.cls in h.classes && t in h.classes[v.cls].supertypes))
  }

  /** PHP array keys are unique. */
  predicate DistinctKeys(a: Args)
  {
    forall i, j :: 0 <= i < j < |a| ==> a[i].0 != a[j].0
  }

  /** Dropping the first entry keeps the keys distinct. */
  lemma DistinctTail(a: Args)
    requires a != [] && DistinctKeys(a)
    ensures DistinctKeys(a[1..])
  {
    forall i, j | 0 <= i < j < |a[1..]| ensures a[1..][i].0 != a[1..][j].0 {
      assert a[1..][i] == a[i + 1] && a[1..][j] == a[j + 1];
    }
  }

  /** The keys of an array, as a set. */
  function KeySet(a: Args): set<Key>
  {
    set e | e in a :: e.0
  }

  /** Index of the first parameter called `name`. */
  function ParamIndex(params: seq<Param>, name: string): (r: Option<nat>)
    ensures r.Some? ==> r.value < |params| && params[r.value].name == name
    ensures r.Some? ==> forall q :: 0 <= q < r.value ==> params[q].name != name
    ensures r.None? <==> forall q :: 0 <= q < |params| ==> params[q].name != name
  {
    if params == [] then None
    else if params[0].name == name then Some(0)
    else match ParamIndex(params[1..], name)
      case None => None
      case Some(j) => Some(j + 1)
  }

  /** Index of the first entry of `pool` that is an object of type `t`. */
  function FirstInstance(h: Host, pool: Args, t: string): (r: Option<nat>)
    ensures r.Some? ==> r.value < |pool| && InstanceOf(h, pool[r.value].1, t)
    ensures r.Some? ==> forall q :: 0 <= q < r.value ==> !InstanceOf(h, pool[q].1, t)
    ensures r.None? <==> forall q :: 0 <= q < |pool| ==> !InstanceOf(h, pool[q].1, t)
  {
    if pool == [] then None
    else if InstanceOf(h, pool[0].1, t) then Some(0)
    else match FirstInstance(h, pool[1..], t)
      case None => None
      case Some(j) => Some(j + 1)
  }

  /** The entries of `pool` whose key is not in `drop`, in their order. */
  function Without(pool: Args, drop: set<Key>): (r: Args)
    ensures forall e :: e in r <==> e in pool && e.0 !in drop
    ensures |r| <= |pool|
  {
    if pool == [] then []
    else (if pool[0].0 in drop then [] else [pool[0]]) + Without(pool[1..], drop)
  }

  /** `unset($pool[$k])`: drop the entry with key `k`, keep the others in order. */
  function RemoveKey(pool: Args, k: Key): (r: Args)
    ensures forall e :: e in r <==> e in pool && e.0 != k
    ensures multiset(r) <= multiset(pool)
    ensures k in KeySet(pool) && DistinctKeys(pool) ==> |r| == |pool| - 1
    ensures k !in KeySet(pool) ==> r == pool
  {
    if pool == [] then []
    else
      assert pool == [pool[0]] + pool[1..];
      var rest := RemoveKey(pool[1..], k);
      if pool[0].0 == k then
        assert DistinctKeys(pool) ==> k !in KeySet(pool[1..]);
        rest
      else
        assert k in KeySet(pool) ==> k in KeySet(pool[1..]);
        [pool[0]] + rest
  }

  /** `unset` keeps exactly the entries with other keys, in their order. */
  lemma {:induction false} RemoveKeyInOrder(pool: Args, k: Key)
    ensures RemoveKey(pool, k) == Without(pool, {k})
  {
    if pool != [] {
      RemoveKeyInOrder(pool[1..], k);
    }
  }

  /** `unset` keeps the keys of a PHP array distinct. */
  lemma {:induction false} RemoveKeyDistinct(pool: Args, k: Key)
    requires DistinctKeys(pool)
    ensures DistinctKeys(RemoveKey(pool, k))
  {
    if pool != [] {
      DistinctTail(pool);
      RemoveKeyDistinct(pool[1..], k);
      var rest := RemoveKey(pool[1..], k);
      if pool[0].0 != k {
        assert RemoveKey(pool, k) == [pool[0]] + rest;
        HeadKeyFresh(pool, rest);
        ConsDistinct(pool[0], rest);
      }
    }
  }

  /** Entries drawn from the tail of a PHP array do not share the head's key. */
  lemma HeadKeyFresh(pool: Args, rest: Args)
    requires pool != [] && DistinctKeys(pool)
    requires forall e :: e in rest ==> e in pool[1..]
    ensures forall e :: e in rest ==> e.0 != pool[0].0
  {
    forall e | e in rest ensures e.0 != pool[0].0 {
      var i :| 0 <= i < |pool[1..]| && pool[1..][i] == e;
      assert pool[i + 1] == e;
    }
  }

  /** Prepending an entry with a fresh key keeps the keys distinct. */
  lemma ConsDistinct(d: (Key, Value), rest: Args)
    requires DistinctKeys(rest)
    requires forall e :: e in rest ==> e.0 != d.0
    ensures DistinctKeys([d] + rest)
  {
    var r := [d] + rest;
    forall i, j | 0 <= i < j < |r| ensures r[i].0 != r[j].0 {
      assert r[j] == rest[j - 1];
      if i > 0 {
        assert r[i] == rest[i - 1];
      } else {
        assert rest[j - 1] in rest;
      }
    }
  }

  /** In a PHP array a key names one entry. */
  lemma SameKey(pool: Args, e: (Key, Value), d: (Key, Value))
    requires DistinctKeys(pool) && e in pool && d in pool && e.0 == d.0
    ensures e == d
  {
    var i :| 0 <= i < |pool| && pool[i] == e;
    var j :| 0 <= j < |pool| && pool[j] == d;
    assert !(i < j) && !(j < i);
  }

  /** `array_shift($pool)`: the first value (Null when empty) and the rest. */
  function Shift(pool: Args): (r: (Value, Args))
    ensures pool != [] ==> r.0 == pool[0].1 && pool == [pool[0]] + r.1
    ensures pool == [] ==> r == (Null, [])
  {
    if pool == [] then (Null, []) else (pool[0].1, pool[1..])
  }

  /** The filled slots below `n`, in ascending order. */
  function FilledBelow(values: map<nat, Value>, n: nat): (r: seq<nat>)
    ensures forall i, j :: 0 <= i < j < |r| ==> r[i] < r[j]
    ensures forall p :: p in r <==> p in values && p < n
  {
    if n == 0 then []
    else
      var below := FilledBelow(values, n - 1);
      assert forall i :: 0 <= i < |below| ==> below[i] in below;
      below + (if n - 1 in values then [n - 1] else [])
  }

  /**
   * The values of a filled argument map in ascending key order, as PHP's
   * `...$values` spreads a `ksort`ed array: missing keys leave no gap.
   */
  function Spread(values: map<nat, Value>, n: nat): (r: seq<Value>)
    ensures |r| <= n
    ensures |r| == n <==> forall p :: 0 <= p < n ==> p in values
    ensures (forall p :: 0 <= p < n ==> p in values) ==> forall p :: 0 <= p < n ==> r[p] == values[p]
  {
    if n == 0 then []
    else Spread(values, n - 1) + (if n - 1 in values then [values[n - 1]] else [])
  }

  /**
   * With gaps, the spread holds one value per filled slot below `n`: the
   * i-th value is the value of the i-th filled slot in ascending order.
   */
  lemma {:induction false} SpreadInOrder(values: map<nat, Value>, n: nat)
    ensures |Spread(values, n)| == |FilledBelow(values, n)|
    ensures forall i :: 0 <= i < |Spread(values, n)| ==>
              FilledBelow(values, n)[i] in values && Spread(values, n)[i] == values[FilledBelow(values, n)[i]]
  {
    if n > 0 {
      SpreadInOrder(values, n - 1);
    }
  }

  /** A list of values as a positional PHP array. */
  function Positional(vs: seq<Value>): (r: Args)
    ensures |r| == |vs|
    ensures forall i :: 0 <= i < |vs| ==> r[i] == (Pos(i), vs[i])
  {
    seq(|vs|, i requires 0 <= i < |vs| => (Pos(i), vs[i]))
  }
}
