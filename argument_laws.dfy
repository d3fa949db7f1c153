/**
 * What the three passes of `buildArguments` promise, stated over the
 * functional model: where a named argument lands, what pass 1 leaves in the
 * pool, that pass 2 overrides pass 1, and that untyped parameters take the
 * leftover arguments in order. The last lemmas work the repository's own
 * usage examples through the model.
 */
module ArgumentLaws {
  import opened Types
  import opened Registry
  import opened Resolution
  import ResolutionLaws

  /** Pass 1 claims a key: it names a parameter of the list. */
  predicate Claimed(params: seq<Param>, k: Key)
  {
    k.Named? && ParamIndex(params, k.name).Some?
  }

  /** A slot pass 1 has filled keeps its value while no later entry names that parameter. */
  lemma {:induction false} NamePassKeeps(params: seq<Param>, rest: Args, pool: Args, values: map<nat, Value>, q: nat)
    requires q in values && q < |params|
    requires forall e :: e in rest ==> e.0 != Named(params[q].name)
    ensures q in NamePass(params, rest, pool, values).1
    ensures NamePass(params, rest, pool, values).1[q] == values[q]
    decreases |rest|
  {
    if rest != [] {
      var (key, arg) := rest[0];
      var hit := if key.Named? then ParamIndex(params, key.name) else None;
      if hit.Some? {
        assert hit.value != q;
        NamePassKeeps(params, rest[1..], RemoveKey(pool, key), values[hit.value := arg], q);
      } else {
        NamePassKeeps(params, rest[1..], pool, values, q);
      }
    }
  }

  /** A named entry of an array with distinct keys fills the first parameter of that name. */
  lemma {:induction false} NamedEntryLands(params: seq<Param>, rest: Args, pool: Args, values: map<nat, Value>, i: nat)
    requires DistinctKeys(rest) && i < |rest|
    requires Claimed(params, rest[i].0)
    ensures var q := ParamIndex(params, rest[i].0.name).value;
            var r := NamePass(params, rest, pool, values);
            q in r.1 && r.1[q] == rest[i].1
    decreases |rest|, 1
  {
    if i == 0 {
      NamedHeadLands(params, rest, pool, values);
    } else {
      NamedLaterLands(params, rest, pool, values, i);
    }
  }

  /** The first entry lands, and no later entry carries its key. */
  lemma NamedHeadLands(params: seq<Param>, rest: Args, pool: Args, values: map<nat, Value>)
    requires DistinctKeys(rest) && rest != []
    requires Claimed(params, rest[0].0)
    ensures var q := ParamIndex(params, rest[0].0.name).value;
            var r := NamePass(params, rest, pool, values);
            q in r.1 && r.1[q] == rest[0].1
  {
    var q := ParamIndex(params, rest[0].0.name).value;
    var (key, arg) := rest[0];
    forall e | e in rest[1..] ensures e.0 != Named(params[q].name) {
      var j :| 0 <= j < |rest[1..]| && rest[1..][j] == e;
      assert rest[j + 1] == e;
    }
    assert NamePass(params, rest, pool, values) == NamePass(params, rest[1..], RemoveKey(pool, key), values[q := arg]);
    NamePassKeeps(params, rest[1..], RemoveKey(pool, key), values[q := arg], q);
  }

  /** A later entry lands as it does in the tail of the walk. */
  lemma {:induction false} NamedLaterLands(params: seq<Param>, rest: Args, pool: Args, values: map<nat, Value>, i: nat)
    requires DistinctKeys(rest) && 0 < i < |rest|
    requires Claimed(params, rest[i].0)
    ensures var q := ParamIndex(params, rest[i].0.name).value;
            var r := NamePass(params, rest, pool, values);
            q in r.1 && r.1[q] == rest[i].1
    decreases |rest|, 0
  {
    var (key, arg) := rest[0];
    var hit := if key.Named? then ParamIndex(params, key.name) else None;
    DistinctTail(rest);
    assert rest[1..][i - 1] == rest[i];
    if hit.Some? {
      assert NamePass(params, rest, pool, values) == NamePass(params, rest[1..], RemoveKey(pool, key), values[hit.value := arg]);
      NamedEntryLands(params, rest[1..], RemoveKey(pool, key), values[hit.value := arg], i - 1);
    } else {
      assert NamePass(params, rest, pool, values) == NamePass(params, rest[1..], pool, values);
      NamedEntryLands(params, rest[1..], pool, values, i - 1);
    }
  }

  /** Pass 1 never removes an entry whose key names no parameter. */
  lemma {:induction false} NamePassKeepsUnclaimed(params: seq<Param>, rest: Args, pool: Args, values: map<nat, Value>, e: (Key, Value))
    requires e in pool && !Claimed(params, e.0)
    ensures e in NamePass(params, rest, pool, values).0
    decreases |rest|
  {
    if rest != [] {
      var (key, arg) := rest[0];
      var hit := if key.Named? then ParamIndex(params, key.name) else None;
      if hit.Some? {
        NamePassKeepsUnclaimed(params, rest[1..], RemoveKey(pool, key), values[hit.value := arg], e);
      } else {
        NamePassKeepsUnclaimed(params, rest[1..], pool, values, e);
      }
    }
  }

  /** Pass 1 removes every entry carrying a key it claims from the entries it walks. */
  lemma {:induction false} NamePassRemovesClaimed(params: seq<Param>, rest: Args, pool: Args, values: map<nat, Value>, k: Key)
    requires Claimed(params, k) && exists e :: e in rest && e.0 == k
    ensures forall e :: e in NamePass(params, rest, pool, values).0 ==> e.0 != k
    decreases |rest|
  {
    var (key, arg) := rest[0];
    var hit := if key.Named? then ParamIndex(params, key.name) else None;
    if key == k {
      assert hit.Some?;
    } else {
      var e :| e in rest && e.0 == k;
      assert e in rest[1..];
      if hit.Some? {
        NamePassRemovesClaimed(params, rest[1..], RemoveKey(pool, key), values[hit.value := arg], k);
      } else {
        NamePassRemovesClaimed(params, rest[1..], pool, values, k);
      }
    }
  }

  /** The keys of `rest` that pass 1 claims. */
  function ClaimedKeys(params: seq<Param>, rest: Args): set<Key>
  {
    set e | e in rest && Claimed(params, e.0) :: e.0
  }

  /** Filtering twice is filtering once by both key sets. */
  lemma {:induction false} WithoutWithout(pool: Args, first: set<Key>, second: set<Key>)
    ensures Without(Without(pool, first), second) == Without(pool, first + second)
  {
    if pool != [] {
      WithoutWithout(pool[1..], first, second);
      if pool[0].0 in first {
        assert Without(pool, first) == Without(pool[1..], first);
      } else {
        assert Without(pool, first) == [pool[0]] + Without(pool[1..], first);
        assert Without(pool, first)[1..] == Without(pool[1..], first);
      }
    }
  }

  /** Pass 1 leaves the pool filtered, in order, by the keys it claims from the entries it walks. */
  lemma {:induction false} NamePassFilters(params: seq<Param>, rest: Args, pool: Args, values: map<nat, Value>)
    ensures NamePass(params, rest, pool, values).0 == Without(pool, ClaimedKeys(params, rest))
    decreases |rest|
  {
    if rest == [] {
      assert ClaimedKeys(params, rest) == {};
      WithoutNothing(pool);
    } else {
      var (key, arg) := rest[0];
      var hit := if key.Named? then ParamIndex(params, key.name) else None;
      if hit.Some? {
        assert ClaimedKeys(params, rest) == {key} + ClaimedKeys(params, rest[1..]) by {
          assert forall e :: e in rest <==> e == rest[0] || e in rest[1..];
        }
        NamePassFilters(params, rest[1..], RemoveKey(pool, key), values[hit.value := arg]);
        RemoveKeyInOrder(pool, key);
        WithoutWithout(pool, {key}, ClaimedKeys(params, rest[1..]));
      } else {
        assert ClaimedKeys(params, rest) == ClaimedKeys(params, rest[1..]) by {
          assert forall e :: e in rest <==> e == rest[0] || e in rest[1..];
        }
        NamePassFilters(params, rest[1..], pool, values);
      }
    }
  }

  /** Filtering by no keys changes nothing. */
  lemma {:induction false} WithoutNothing(pool: Args)
    ensures Without(pool, {}) == pool
  {
    if pool != [] {
      WithoutNothing(pool[1..]);
    }
  }

  /**
   * After pass 1 the pool is the caller's array with the claimed entries
   * removed and the rest in their original order: positional entries and
   * unmatched named ones.
   */
  lemma PoolAfterNames(params: seq<Param>, args: Args)
    ensures NamePass(params, args, args, map[]).0 == Without(args, ClaimedKeys(params, args))
    ensures forall e :: e in NamePass(params, args, args, map[]).0 <==> e in args && !Claimed(params, e.0)
  {
    NamePassFilters(params, args, args, map[]);
    var pool := NamePass(params, args, args, map[]).0;
    forall e | e in args
      ensures e in pool <==> !Claimed(params, e.0)
    {
      if Claimed(params, e.0) {
        NamePassRemovesClaimed(params, args, args, map[], e.0);
      } else {
        NamePassKeepsUnclaimed(params, args, args, map[], e);
      }
    }
  }

  lemma TypePassStep(h: Host, params: seq<Param>, p: nat, pool: Args, values: map<nat, Value>)
    requires p < |params|
    ensures var next := TypeStep(h, params[p], p, pool, values);
            TypePass(h, params, p, pool, values) == TypePass(h, params, p + 1, next.0, next.1)
  {
  }

  /**
   * Pass 2 over `params` from `p` is pass 2 up to parameter `q` followed by
   * pass 2 from `q`: the pool and slots pass 2 has when it reaches parameter
   * `q` are those of the prefix run.
   */
  lemma {:induction false} TypePassSplit(h: Host, params: seq<Param>, p: nat, q: nat, pool: Args, values: map<nat, Value>)
    requires p <= q <= |params|
    ensures var before := TypePass(h, params[..q], p, pool, values);
            TypePass(h, params, p, pool, values) == TypePass(h, params, q, before.0, before.1)
  {
    TypePassPrefix(h, params[..q], params, p, pool, values);
  }

  /** `TypePassSplit` with the prefix as a list of its own. */
  lemma {:induction false} TypePassPrefix(h: Host, pre: seq<Param>, params: seq<Param>, p: nat, pool: Args,
                                          values: map<nat, Value>)
    requires p <= |pre| <= |params| && forall i :: 0 <= i < |pre| ==> pre[i] == params[i]
    ensures var before := TypePass(h, pre, p, pool, values);
            TypePass(h, params, p, pool, values) == TypePass(h, params, |pre|, before.0, before.1)
    decreases |pre| - p, 1
  {
    if p < |pre| {
      TypePassPrefixStep(h, pre, params, p, pool, values);
    } else {
      TypePassEnd(h, pre, params, p, pool, values);
    }
  }

  /** The base case of `TypePassPrefix`: a run over an exhausted prefix leaves pool and slots alone. */
  lemma TypePassEnd(h: Host, pre: seq<Param>, params: seq<Param>, p: nat, pool: Args, values: map<nat, Value>)
    requires p == |pre|
    ensures var before := TypePass(h, pre, p, pool, values);
            TypePass(h, params, p, pool, values) == TypePass(h, params, |pre|, before.0, before.1)
  {
    assert TypePass(h, pre, p, pool, values) == (pool, values);
  }

  /** The inductive step of `TypePassPrefix`: both runs take the same first step. */
  lemma TypePassPrefixStep(h: Host, pre: seq<Param>, params: seq<Param>, p: nat, pool: Args, values: map<nat, Value>)
    requires p < |pre| <= |params| && forall i :: 0 <= i < |pre| ==> pre[i] == params[i]
    ensures var before := TypePass(h, pre, p, pool, values);
            TypePass(h, params, p, pool, values) == TypePass(h, params, |pre|, before.0, before.1)
    decreases |pre| - p, 0
  {
    var next := TypeStep(h, params[p], p, pool, values);
    TypePassPrefix(h, pre, params, p + 1, next.0, next.1);
    assert pre[p] == params[p];
    TypePassStep(h, pre, p, pool, values);
    TypePassStep(h, params, p, pool, values);
  }


  /**
   * When pass 2 reaches a class-typed parameter `q`, it takes the first
   * entry of the pool as it is then that is an instance of the type: the slot
   * holds that entry's value, the entry came from the caller's pool, and its
   * key is gone from the final pool. With no such entry the slot keeps what
   * it had. Pass 2 leaves the pool filtered, in order, by the keys it took.
   */
  lemma TypePassTakesFirst(h: Host, params: seq<Param>, p: nat, q: nat, pool: Args, values: map<nat, Value>)
    requires p <= q < |params| && params[q].classType.Some?
    ensures var before := TypePass(h, params[..q], p, pool, values);
            var r := TypePass(h, params, p, pool, values);
            match FirstInstance(h, before.0, params[q].classType.value)
            case Some(j) =>
              && q in r.1 && r.1[q] == before.0[j].1 && before.0[j] in pool
              && (forall e :: e in r.0 ==> e.0 != before.0[j].0)
            case None =>
              (q in r.1 <==> q in values) && (q in values ==> r.1[q] == values[q])
  {
    TypePassSplit(h, params, p, q, pool, values);
    var before := TypePass(h, params[..q], p, pool, values);
    TypePassStep(h, params, q, before.0, before.1);
  }

  /** Pass 2 leaves the pool filtered, in order: every entry whose key survives keeps its place. */
  lemma {:induction false} TypePassFilters(h: Host, params: seq<Param>, p: nat, pool: Args, values: map<nat, Value>)
    ensures var r := TypePass(h, params, p, pool, values);
            r.0 == Without(pool, KeySet(pool) - KeySet(r.0))
    decreases |params| - p
  {
    var r := TypePass(h, params, p, pool, values);
    if p >= |params| {
      WithoutNothing(pool);
      assert KeySet(pool) - KeySet(r.0) == {};
    } else {
      match params[p].classType
      case Some(t) =>
        match FirstInstance(h, pool, t) {
          case Some(j) =>
            var k := pool[j].0;
            var pool' := RemoveKey(pool, k);
            RemoveKeyInOrder(pool, k);
            TypePassFilters(h, params, p + 1, pool', values[p := pool[j].1]);
            FilterStep(pool, k, r.0);
          case None =>
            TypePassFilters(h, params, p + 1, pool, values);
        }
      case None =>
        TypePassFilters(h, params, p + 1, pool, values);
    }
  }

  /**
   * Which entries pass 2 removes: an entry of a pool with distinct keys either
   * stays, or it was taken by a class-typed parameter `q >= p` whose type it
   * is an instance of, and its value sits in slot `q` at the end of pass 2.
   */
  lemma {:induction false} TypePassRemovedLands(h: Host, params: seq<Param>, p: nat, pool: Args,
                                                values: map<nat, Value>, e: (Key, Value))
    requires DistinctKeys(pool) && e in pool
    ensures var r := TypePass(h, params, p, pool, values);
            || e in r.0
            || exists q :: p <= q < |params| && params[q].classType.Some? &&
                 InstanceOf(h, e.1, params[q].classType.value) && q in r.1 && r.1[q] == e.1
    decreases |params| - p
  {
    if p < |params| {
      var r := TypePass(h, params, p, pool, values);
      TypePassStep(h, params, p, pool, values);
      match params[p].classType
      case Some(t) =>
        match FirstInstance(h, pool, t) {
          case Some(j) =>
            var k := pool[j].0;
            var pool' := RemoveKey(pool, k);
            var values' := values[p := pool[j].1];
            assert r == TypePass(h, params, p + 1, pool', values');
            if e.0 == k {
              SameKey(pool, e, pool[j]);
              assert p in values' && values'[p] == e.1;
              assert r.1[p] == e.1;
            } else {
              RemoveKeyDistinct(pool, k);
              TypePassRemovedLands(h, params, p + 1, pool', values', e);
            }
          case None =>
            TypePassRemovedLands(h, params, p + 1, pool, values, e);
        }
      case None =>
        TypePassRemovedLands(h, params, p + 1, pool, values, e);
    }
  }

  /** An entry that is an instance of no class type from `p` on stays in pass 2's pool. */
  lemma TypePassKeepsUnmatched(h: Host, params: seq<Param>, p: nat, pool: Args,
                               values: map<nat, Value>, e: (Key, Value))
    requires DistinctKeys(pool) && e in pool
    requires forall q :: p <= q < |params| && params[q].classType.Some? ==>
               !InstanceOf(h, e.1, params[q].classType.value)
    ensures e in TypePass(h, params, p, pool, values).0
  {
    TypePassRemovedLands(h, params, p, pool, values, e);
  }

  /** Scalars, arrays and `null` are never taken by pass 2: they stay in its pool. */
  lemma TypePassKeepsNonObjects(h: Host, params: seq<Param>, p: nat, pool: Args,
                                values: map<nat, Value>, e: (Key, Value))
    requires DistinctKeys(pool) && e in pool && !e.1.Obj?
    ensures e in TypePass(h, params, p, pool, values).0
  {
    TypePassKeepsUnmatched(h, params, p, pool, values, e);
  }

  /** One `unset` of `k` followed by a filter is a single filter of the original pool. */
  lemma FilterStep(pool: Args, k: Key, out: Args)
    requires forall e :: e in out ==> e in Without(pool, {k})
    requires out == Without(Without(pool, {k}), KeySet(Without(pool, {k})) - KeySet(out))
    ensures out == Without(pool, KeySet(pool) - KeySet(out))
  {
    var pool' := Without(pool, {k});
    WithoutWithout(pool, {k}, KeySet(pool') - KeySet(out));
    forall e | e in pool
      ensures e.0 in {k} + (KeySet(pool') - KeySet(out)) <==> e.0 in KeySet(pool) - KeySet(out)
    {
      assert e.0 in KeySet(pool);
      if e.0 != k {
        assert e in pool';
        assert e.0 in KeySet(pool');
      }
    }
    WithoutSameKeys(pool, {k} + (KeySet(pool') - KeySet(out)), KeySet(pool) - KeySet(out));
  }

  /** Two key sets that agree on the keys of `pool` filter it alike. */
  lemma {:induction false} WithoutSameKeys(pool: Args, first: set<Key>, second: set<Key>)
    requires forall e :: e in pool ==> (e.0 in first <==> e.0 in second)
    ensures Without(pool, first) == Without(pool, second)
  {
    if pool != [] {
      WithoutSameKeys(pool[1..], first, second);
    }
  }

  /**
   * Parameter `q` takes a value from the pool in pass 3: it is still empty
   * and is untyped or a value object (a value object shifts even an empty
   * pool, getting null).
   */
  predicate Consumes(h: Host, params: seq<Param>, q: nat, values: map<nat, Value>)
    requires q < |params|
  {
    q !in values && (params[q].classType.None? || IsValueClass(h, params[q].classType.value))
  }

  /** How many parameters in `[p, q)` take a value from the pool in pass 3. */
  function Consumers(h: Host, params: seq<Param>, p: nat, q: nat, values: map<nat, Value>): nat
    requires q <= |params|
    decreases q - p
  {
    if p >= q then 0
    else (if Consumes(h, params, p, values) then 1 else 0) + Consumers(h, params, p + 1, q, values)
  }

  /** The count depends only on which slots in its range are filled. */
  lemma {:induction false} ConsumersAgree(h: Host, params: seq<Param>, p: nat, q: nat, values: map<nat, Value>,
                                          values': map<nat, Value>)
    requires q <= |params|
    requires forall k :: p <= k < q ==> (k in values <==> k in values')
    ensures Consumers(h, params, p, q, values) == Consumers(h, params, p, q, values')
    decreases q - p
  {
    if p < q {
      ConsumersAgree(h, params, p + 1, q, values, values');
    }
  }

  /** `v` is what `make(t, args)` returned in some state the tables reached from `st`. */
  ghost predicate MadeIn(h: Host, st: Tables, t: Alias, args: Args, fuel: nat, v: Value)
  {
    exists st' :: Evolves(st, st') && Make(h, st', t, args, fuel).0 == Ok(v)
  }

  lemma MadeInEarlier(h: Host, st: Tables, st1: Tables, t: Alias, args: Args, fuel: nat, v: Value)
    requires Evolves(st, st1) && MadeIn(h, st1, t, args, fuel, v)
    ensures MadeIn(h, st, t, args, fuel, v)
  {
    var st' :| Evolves(st1, st') && Make(h, st', t, args, fuel).0 == Ok(v);
    EvolvesTransitive(st, st1, st');
  }

  /**
   * What pass 3 run from `p` put in the empty slot `q` of `out`, where `c`
   * pool-consuming parameters come before `q`: an untyped parameter holds
   * `pool[c]` when there is one and stays empty otherwise; a value object
   * holds what `make(t, [pool[c] or null])` returned; a required class-typed
   * parameter holds what `make(t)` returned.
   */
  ghost predicate FilledByPass3(h: Host, st: Tables, params: seq<Param>, p: nat, pool: Args,
                                values: map<nat, Value>, fuel: nat, out: map<nat, Value>, q: nat)
    requires p <= q < |params|
  {
    var c := Consumers(h, params, p, q, values);
    var next := if c < |pool| then pool[c].1 else Null;
    match params[q].classType
    case None =>
      (q in out <==> c < |pool|) && (c < |pool| ==> q in out && out[q] == next)
    case Some(t) =>
      && (IsValueClass(h, t) ==> q in out && MadeIn(h, st, t, [(Pos(0), next)], fuel, out[q]))
      && (!IsValueClass(h, t) && !params[q].optional ==> q in out && MadeIn(h, st, t, [], fuel, out[q]))
  }

  /** One step of pass 3 moves the description of a later slot back to the earlier start. */
  lemma Pass3Step(h: Host, st: Tables, st1: Tables, params: seq<Param>, p: nat, q: nat, pool: Args, pool1: Args,
                  values: map<nat, Value>, values1: map<nat, Value>, fuel: nat, out: map<nat, Value>)
    requires p < q < |params|
    requires Evolves(st, st1)
    requires pool1 == if Consumes(h, params, p, values) then Shift(pool).1 else pool
    requires forall k :: p < k < q ==> (k in values <==> k in values1)
    requires FilledByPass3(h, st1, params, p + 1, pool1, values1, fuel, out, q)
    ensures FilledByPass3(h, st, params, p, pool, values, fuel, out, q)
  {
    ConsumersAgree(h, params, p + 1, q, values, values1);
    var c1 := Consumers(h, params, p + 1, q, values1);
    var c := Consumers(h, params, p, q, values);
    assert c == (if Consumes(h, params, p, values) then 1 else 0) + c1;
    if Consumes(h, params, p, values) && pool != [] {
      assert c1 < |pool1| ==> pool1[c1] == pool[c];
    }
    match params[q].classType {
      case None =>
      case Some(t) =>
        var next1 := if c1 < |pool1| then pool1[c1].1 else Null;
        if IsValueClass(h, t) {
          MadeInEarlier(h, st, st1, t, [(Pos(0), next1)], fuel, out[q]);
        } else if !params[q].optional {
          MadeInEarlier(h, st, st1, t, [], fuel, out[q]);
        }
    }
  }

  /** `Pass3Step` for every later empty slot at once. */
  lemma Pass3StepAll(h: Host, st: Tables, st1: Tables, params: seq<Param>, p: nat, pool: Args, pool1: Args,
                     values: map<nat, Value>, values1: map<nat, Value>, fuel: nat, out: map<nat, Value>)
    requires p < |params|
    requires Evolves(st, st1)
    requires pool1 == if Consumes(h, params, p, values) then Shift(pool).1 else pool
    requires forall k :: p < k ==> (k in values <==> k in values1)
    requires forall q :: p + 1 <= q < |params| && q !in values1 ==>
               FilledByPass3(h, st1, params, p + 1, pool1, values1, fuel, out, q)
    ensures forall q :: p < q < |params| && q !in values ==>
              FilledByPass3(h, st, params, p, pool, values, fuel, out, q)
  {
    forall q | p < q < |params| && q !in values
      ensures FilledByPass3(h, st, params, p, pool, values, fuel, out, q)
    {
      Pass3Step(h, st, st1, params, p, q, pool, pool1, values, values1, fuel, out);
    }
  }

  /** The description of the slots from `p` on, for a successful pass 3 run from `p`. */
  ghost predicate FillsInOrder(h: Host, st: Tables, params: seq<Param>, p: nat, pool: Args,
                               values: map<nat, Value>, fuel: nat)
    requires p <= |params|
  {
    var r := FillPass(h, st, params, p, pool, values, fuel);
    r.0.Ok? ==>
      forall q :: p <= q < |params| && q !in values ==>
        FilledByPass3(h, st, params, p, pool, values, fuel, r.0.value, q)
  }

  /**
   * Pass 3 fills every still-empty parameter from `p` on as the source's
   * third loop does: the pool-consuming parameters take the pooled values in
   * order, value objects wrapping theirs with `make`, and required
   * class-typed parameters are injected with `make`.
   */
  lemma {:induction false} FillPassTakesInOrder(h: Host, st: Tables, params: seq<Param>, p: nat, pool: Args,
                                                values: map<nat, Value>, fuel: nat)
    requires p <= |params|
    ensures var r := FillPass(h, st, params, p, pool, values, fuel);
            r.0.Ok? ==>
              forall q :: p <= q < |params| && q !in values ==>
                FilledByPass3(h, st, params, p, pool, values, fuel, r.0.value, q)
    decreases |params| - p, 1
  {
    if p < |params| {
      if p in values {
        FillSkipInOrder(h, st, params, p, pool, values, fuel);
      } else if params[p].classType.None? {
        FillUntypedInOrder(h, st, params, p, pool, values, fuel);
      } else if params[p].classType.value in h.classes {
        var t := params[p].classType.value;
        if h.classes[t].isValue {
          FillValueObjectInOrder(h, st, params, p, pool, values, fuel);
        } else if !params[p].optional {
          FillRequiredInOrder(h, st, params, p, pool, values, fuel);
        } else {
          FillSkipInOrder(h, st, params, p, pool, values, fuel);
        }
      }
    }
  }

  lemma FillSkipInOrder(h: Host, st: Tables, params: seq<Param>, p: nat, pool: Args,
                        values: map<nat, Value>, fuel: nat)
    requires p < |params|
    requires || p in values
             || (&& params[p].classType.Some? && params[p].optional
                 && params[p].classType.value in h.classes && !h.classes[params[p].classType.value].isValue)
    ensures FillsInOrder(h, st, params, p, pool, values, fuel)
    decreases |params| - p, 0
  {
    FillPassTakesInOrder(h, st, params, p + 1, pool, values, fuel);
    var r := FillPass(h, st, params, p, pool, values, fuel);
    assert r == FillPass(h, st, params, p + 1, pool, values, fuel);
    if r.0.Ok? {
      Pass3StepAll(h, st, st, params, p, pool, pool, values, values, fuel, r.0.value);
    }
  }

  lemma FillUntypedInOrder(h: Host, st: Tables, params: seq<Param>, p: nat, pool: Args,
                           values: map<nat, Value>, fuel: nat)
    requires p < |params| && p !in values && params[p].classType.None?
    ensures FillsInOrder(h, st, params, p, pool, values, fuel)
    decreases |params| - p, 0
  {
    var r := FillPass(h, st, params, p, pool, values, fuel);
    var (arg, rest) := Shift(pool);
    var values1 := if |pool| != 0 then values[p := arg] else values;
    FillPassTakesInOrder(h, st, params, p + 1, rest, values1, fuel);
    if r.0.Ok? {
      Pass3StepAll(h, st, st, params, p, pool, rest, values, values1, fuel, r.0.value);
    }
  }

  lemma FillValueObjectInOrder(h: Host, st: Tables, params: seq<Param>, p: nat, pool: Args,
                               values: map<nat, Value>, fuel: nat)
    requires p < |params| && p !in values && params[p].classType.Some?
    requires params[p].classType.value in h.classes && h.classes[params[p].classType.value].isValue
    ensures FillsInOrder(h, st, params, p, pool, values, fuel)
    decreases |params| - p, 0
  {
    var t := params[p].classType.value;
    var r := FillPass(h, st, params, p, pool, values, fuel);
    var (arg, rest) := Shift(pool);
    var (made, st1) := Make(h, st, t, [(Pos(0), arg)], fuel);
    if made.Ok? {
      var values1 := values[p := made.value];
      FillPassTakesInOrder(h, st1, params, p + 1, rest, values1, fuel);
      if r.0.Ok? {
        assert r.0.value[p] == made.value;
        assert Evolves(st, st) && Make(h, st, t, [(Pos(0), arg)], fuel).0 == Ok(r.0.value[p]);
        Pass3StepAll(h, st, st1, params, p, pool, rest, values, values1, fuel, r.0.value);
      }
    }
  }

  lemma FillRequiredInOrder(h: Host, st: Tables, params: seq<Param>, p: nat, pool: Args,
                            values: map<nat, Value>, fuel: nat)
    requires p < |params| && p !in values && params[p].classType.Some? && !params[p].optional
    requires params[p].classType.value in h.classes && !h.classes[params[p].classType.value].isValue
    ensures FillsInOrder(h, st, params, p, pool, values, fuel)
    decreases |params| - p, 0
  {
    var t := params[p].classType.value;
    var r := FillPass(h, st, params, p, pool, values, fuel);
    var (made, st1) := Make(h, st, t, [], fuel);
    if made.Ok? {
      var values1 := values[p := made.value];
      FillPassTakesInOrder(h, st1, params, p + 1, pool, values1, fuel);
      if r.0.Ok? {
        assert r.0.value[p] == made.value;
        assert Evolves(st, st) && Make(h, st, t, [], fuel).0 == Ok(r.0.value[p]);
        Pass3StepAll(h, st, st1, params, p, pool, pool, values, values1, fuel, r.0.value);
      }
    }
  }

  /** Pass 3 at an empty untyped parameter shifts the pool into it, when there is anything to shift. */
  lemma FillUntypedStep(h: Host, st: Tables, params: seq<Param>, p: nat, pool: Args,
                        values: map<nat, Value>, fuel: nat)
    requires p < |params| && p !in values && params[p].classType.None?
    ensures FillPass(h, st, params, p, pool, values, fuel) ==
              if pool == [] then FillPass(h, st, params, p + 1, pool, values, fuel)
              else FillPass(h, st, params, p + 1, pool[1..], values[p := pool[0].1], fuel)
  {
  }

  /** Over a run of empty untyped parameters, every parameter takes from the pool. */
  lemma {:induction false} UntypedAllConsume(h: Host, params: seq<Param>, p: nat, q: nat, values: map<nat, Value>)
    requires p <= q <= |params|
    requires forall k :: p <= k < |params| ==> params[k].classType.None? && k !in values
    ensures Consumers(h, params, p, q, values) == q - p
    decreases q - p
  {
    if p < q {
      UntypedAllConsume(h, params, p + 1, q, values);
    }
  }

  /** Pass 3 over empty untyped parameters builds nothing, cannot fail and leaves the tables alone. */
  lemma {:induction false} UntypedKeepsTables(h: Host, st: Tables, params: seq<Param>, p: nat, pool: Args,
                                              values: map<nat, Value>, fuel: nat)
    requires p <= |params|
    requires forall q :: p <= q < |params| ==> params[q].classType.None? && q !in values
    ensures var r := FillPass(h, st, params, p, pool, values, fuel);
            r.1 == st && r.0.Ok?
    decreases |params| - p
  {
    if p < |params| {
      FillUntypedStep(h, st, params, p, pool, values, fuel);
      if pool == [] {
        UntypedKeepsTables(h, st, params, p + 1, pool, values, fuel);
      } else {
        UntypedKeepsTables(h, st, params, p + 1, pool[1..], values[p := pool[0].1], fuel);
      }
    }
  }

  /**
   * From parameter `p` on, a run of untyped, still-empty parameters takes the
   * pooled values in order, one each, until the pool runs out; the rest stay
   * empty and no dependency is built.
   */
  lemma UntypedTakePoolInOrder(h: Host, st: Tables, params: seq<Param>, p: nat, pool: Args,
                               values: map<nat, Value>, fuel: nat)
    requires p <= |params|
    requires forall q :: p <= q < |params| ==> params[q].classType.None? && q !in values
    ensures var r := FillPass(h, st, params, p, pool, values, fuel);
            && r.1 == st && r.0.Ok?
            && (forall q :: p <= q < |params| ==> (q in r.0.value <==> q - p < |pool|))
            && (forall q :: p <= q < |params| && q - p < |pool| ==> r.0.value[q] == pool[q - p].1)
  {
    UntypedKeepsTables(h, st, params, p, pool, values, fuel);
    UntypedSlots(h, st, params, p, pool, values, fuel, FillPass(h, st, params, p, pool, values, fuel).0.value);
  }

  /** The slots an all-untyped pass 3 filled, read off the general law one slot at a time. */
  lemma UntypedSlots(h: Host, st: Tables, params: seq<Param>, p: nat, pool: Args,
                     values: map<nat, Value>, fuel: nat, out: map<nat, Value>)
    requires p <= |params|
    requires forall q :: p <= q < |params| ==> params[q].classType.None? && q !in values
    requires FillPass(h, st, params, p, pool, values, fuel).0 == Ok(out)
    ensures forall q :: p <= q < |params| ==> (q in out <==> q - p < |pool|)
    ensures forall q :: p <= q < |params| && q - p < |pool| ==> out[q] == pool[q - p].1
  {
    FillPassTakesInOrder(h, st, params, p, pool, values, fuel);
    forall q | p <= q < |params|
      ensures q in out <==> q - p < |pool|
      ensures q - p < |pool| ==> out[q] == pool[q - p].1
    {
      UntypedAllConsume(h, params, p, q, values);
      UntypedSlot(h, st, params, p, pool, values, fuel, out, q);
    }
  }

  /** An untyped slot reached after `q - p` consumers holds the pooled value at that position, if any. */
  lemma UntypedSlot(h: Host, st: Tables, params: seq<Param>, p: nat, pool: Args,
                    values: map<nat, Value>, fuel: nat, out: map<nat, Value>, q: nat)
    requires p <= q < |params| && params[q].classType.None?
    requires Consumers(h, params, p, q, values) == q - p
    requires FilledByPass3(h, st, params, p, pool, values, fuel, out, q)
    ensures q in out <==> q - p < |pool|
    ensures q - p < |pool| ==> out[q] == pool[q - p].1
  {
  }

  /** A host with one class `B` and nothing callable; it is all the examples below need. */
  function ExampleHost(): (h: Host)
    ensures "B" in h.classes && !h.classes["B"].isValue
  {
    Host(map["B" := ClassInfo(true, None, false, {})], v => false, (c, a) => Null, (r, a, x) => Null, c => [])
  }

  function Untyped(name: string): Param
  {
    Param(name, None, false)
  }

  /** Two untyped parameters filled positionally, whatever the host: `['a', 'b']` gives `val1 = 'a'`, `val2 = 'b'`. */
  lemma ScalarParameters(h: Host, st: Tables, fuel: nat)
    ensures var params := [Untyped("val1"), Untyped("val2")];
            var r := BuildArguments(h, st, params, [(Pos(0), Str("a")), (Pos(1), Str("b"))], fuel);
            r == (Ok(map[0 := Str("a"), 1 := Str("b")]), st) && Spread(r.0.value, 2) == [Str("a"), Str("b")]
  {
    var params := [Untyped("val1"), Untyped("val2")];
    var args := [(Pos(0), Str("a")), (Pos(1), Str("b"))];
    var r := BuildArguments(h, st, params, args, fuel);
    ScalarPasses(h);
    ScalarFill(h, st, fuel);
    var m := map[0 := Str("a"), 1 := Str("b")];
    assert r == (Ok(m), st);
    assert 0 in m && 1 in m && |Spread(m, 2)| == 2;
  }

  /** Pass 3 of the positional example: each parameter takes its pooled value. */
  lemma ScalarFill(h: Host, st: Tables, fuel: nat)
    ensures FillPass(h, st, [Untyped("val1"), Untyped("val2")], 0, [(Pos(0), Str("a")), (Pos(1), Str("b"))],
                     map[], fuel) ==
            (Ok(map[0 := Str("a"), 1 := Str("b")]), st)
  {
    var params := [Untyped("val1"), Untyped("val2")];
    var args := [(Pos(0), Str("a")), (Pos(1), Str("b"))];
    UntypedTakePoolInOrder(h, st, params, 0, args, map[], fuel);
    var out := FillPass(h, st, params, 0, args, map[], fuel).0.value;
    assert 0 in out && 1 in out && out[0] == Str("a") && out[1] == Str("b");
    assert out == map[0 := Str("a"), 1 := Str("b")];
  }

  /** Passes 1 and 2 of the positional example leave everything in the pool. */
  lemma ScalarPasses(h: Host)
    ensures var params := [Untyped("val1"), Untyped("val2")];
            var args := [(Pos(0), Str("a")), (Pos(1), Str("b"))];
            NamePass(params, args, args, map[]) == (args, map[]) &&
            TypePass(h, params, 0, args, map[]) == (args, map[])
  {
    var params := [Untyped("val1"), Untyped("val2")];
    var args := [(Pos(0), Str("a")), (Pos(1), Str("b"))];
    assert NamePass(params, args[2..], args, map[]) == (args, map[]);
    assert NamePass(params, args[1..], args, map[]) == (args, map[]);
    assert TypePass(h, params, 1, args, map[]) == (args, map[]);
  }

  /**
   * The positional example at object level: a class whose constructor takes
   * `$val1, $val2`, built with `['a', 'b']`, is a new object constructed with
   * `'a'` then `'b'`, drawing the next id. With `ResolutionLaws.Unbound` this
   * is what `make` returns for such a class when it is unbound.
   */
  lemma ScalarBuild(h: Host, st: Tables, c: Alias, fuel: nat)
    requires c in h.classes && h.classes[c].instantiable
    requires h.classes[c].ctor == Some([Untyped("val1"), Untyped("val2")])
    ensures BuildObject(h, st, Str(c), [(Pos(0), Str("a")), (Pos(1), Str("b"))], fuel) ==
              (Ok(Obj(st.nextId, c, [Str("a"), Str("b")])), st.Allocate())
  {
    var params := [Untyped("val1"), Untyped("val2")];
    var args := [(Pos(0), Str("a")), (Pos(1), Str("b"))];
    ScalarParameters(h, st, fuel);
    var built := BuildArguments(h, st, params, args, fuel);
    assert built.0.Ok? && built.1 == st && Spread(built.0.value, |params|) == [Str("a"), Str("b")];
    ResolutionLaws.BuildObjectUsesArguments(h, st, Str(c), args, fuel);
  }

  /**
   * Keys outrank positions: `['val2' => 'test1', 'test2']` gives
   * `val1 = 'test2'`, `val2 = 'test1'`.
   */
  lemma KeyedInjection(st: Tables, fuel: nat)
    ensures var params := [Untyped("val1"), Untyped("val2")];
            var r := BuildArguments(ExampleHost(), st, params, [(Named("val2"), Str("test1")), (Pos(0), Str("test2"))], fuel);
            r == (Ok(map[0 := Str("test2"), 1 := Str("test1")]), st)
  {
    var h := ExampleHost();
    var params := [Untyped("val1"), Untyped("val2")];
    var pool := [(Pos(0), Str("test2"))];
    var named := map[1 := Str("test1")];
    KeyedNames();
    assert TypePass(h, params, 1, pool, named) == (pool, named);
    assert TypePass(h, params, 0, pool, named) == (pool, named);
    KeyedFill(st, fuel);
  }

  /** Pass 3 of the keyed example: the empty `val1` takes the positional entry. */
  lemma KeyedFill(st: Tables, fuel: nat)
    ensures FillPass(ExampleHost(), st, [Untyped("val1"), Untyped("val2")], 0, [(Pos(0), Str("test2"))],
                     map[1 := Str("test1")], fuel) ==
            (Ok(map[0 := Str("test2"), 1 := Str("test1")]), st)
  {
    var h := ExampleHost();
    var params := [Untyped("val1"), Untyped("val2")];
    var pool := [(Pos(0), Str("test2"))];
    var filled := map[1 := Str("test1")][0 := Str("test2")];
    assert FillPass(h, st, params, 2, [], filled, fuel) == (Ok(filled), st);
    assert FillPass(h, st, params, 1, [], filled, fuel) == (Ok(filled), st);
    assert Shift(pool) == (Str("test2"), []);
    assert filled == map[0 := Str("test2"), 1 := Str("test1")];
  }

  /** Pass 1 of the keyed example: `val2` is claimed, the positional entry is left. */
  lemma KeyedNames()
    ensures var args := [(Named("val2"), Str("test1")), (Pos(0), Str("test2"))];
            NamePass([Untyped("val1"), Untyped("val2")], args, args, map[]) ==
              ([(Pos(0), Str("test2"))], map[1 := Str("test1")])
  {
    var params := [Untyped("val1"), Untyped("val2")];
    var args := [(Named("val2"), Str("test1")), (Pos(0), Str("test2"))];
    var pool := [(Pos(0), Str("test2"))];
    var named := map[1 := Str("test1")];
    assert ParamIndex(params[1..], "val2") == Some(0);
    assert ParamIndex(params, "val2") == Some(1);
    assert RemoveKey(args, Named("val2")) == pool by {
      assert RemoveKey(args[1..], Named("val2")) == pool;
    }
    assert NamePass(params, args[2..], pool, named) == (pool, named);
    assert NamePass(params, args[1..], pool, named) == (pool, named);
  }

  /** In that example pass 1 puts `$b1` in the slot of `b` and leaves `$b2` in the pool. */
  lemma OverrideNames(b1: Value, b2: Value)
    ensures var params := [Param("b", Some("B"), false)];
            var args := [(Named("b"), b1), (Pos(0), b2)];
            NamePass(params, args, args, map[]) == ([(Pos(0), b2)], map[0 := b1])
  {
    var params := [Param("b", Some("B"), false)];
    var args := [(Named("b"), b1), (Pos(0), b2)];
    var pool := [(Pos(0), b2)];
    assert ParamIndex(params, "b") == Some(0);
    assert RemoveKey(args[1..], Named("b")) == pool;
    assert RemoveKey(args, Named("b")) == pool;
    assert NamePass(params, args[2..], pool, map[0 := b1]) == (pool, map[0 := b1]);
    assert NamePass(params, args[1..], pool, map[0 := b1]) == (pool, map[0 := b1]);
  }

  /** In that example pass 2 replaces `$b1` with the pooled `$b2`, which leaves the pool. */
  lemma OverrideTypes(b1: Value, b2: Value)
    requires b2 == Obj(2, "B", [])
    ensures TypePass(ExampleHost(), [Param("b", Some("B"), false)], 0, [(Pos(0), b2)], map[0 := b1]) ==
              ([], map[0 := b2])
  {
    var h := ExampleHost();
    var params := [Param("b", Some("B"), false)];
    var pool := [(Pos(0), b2)];
    assert InstanceOf(h, b2, "B");
    assert FirstInstance(h, pool, "B") == Some(0);
    assert RemoveKey(pool[1..], Pos(0)) == [];
    assert RemoveKey(pool, Pos(0)) == [];
    assert map[0 := b1][0 := b2] == map[0 := b2];
    assert TypePass(h, params, 1, [], map[0 := b2]) == ([], map[0 := b2]);
  }

  /**
   * Pass 2 overrides pass 1: for `(B $b)` called with `['b' => $b1, $b2]`,
   * both objects of class `B`, the parameter ends up holding `$b2`.
   */
  lemma TypeMatchOverridesName(st: Tables, fuel: nat, b1: Value, b2: Value)
    requires b1 == Obj(1, "B", []) && b2 == Obj(2, "B", [])
    ensures var params := [Param("b", Some("B"), false)];
            BuildArguments(ExampleHost(), st, params, [(Named("b"), b1), (Pos(0), b2)], fuel) == (Ok(map[0 := b2]), st)
  {
    var h := ExampleHost();
    var params := [Param("b", Some("B"), false)];
    OverrideNames(b1, b2);
    OverrideTypes(b1, b2);
    assert FillPass(h, st, params, 1, [], map[0 := b2], fuel) == (Ok(map[0 := b2]), st);
    assert FillPass(h, st, params, 0, [], map[0 := b2], fuel) == (Ok(map[0 := b2]), st);
  }
}
