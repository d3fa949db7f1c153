# Phi dependency-injection container, modelled in Dafny

This project models the core of BapCat's `Phi` container for PHP:

- The container keeps three tables: bindings (`$map`), lazy singletons and an ordered list of custom resolvers.
- `make` resolves an alias. It asks the resolvers first. Then it realizes a lazy singleton. Then it dispatches on the bound value. When nothing is bound, it builds the alias as a class.
- `buildObject` and `call` fill a constructor's or callable's parameters with `buildArguments`. That function runs three passes: by name, by type, and by injection or position.
- `Ioc` provides the lazily created process-wide instance. Its constructor binds the container to the `Ioc` class name.
- `InstantiationException` and `InstantiationError` build their message by walking the chain of causes.

Layout:

- `types.dfy` (`Types`) defines PHP values, argument arrays, reflection's view of a class (the `Host` signature table) and small array helpers.
- `registry.dfy` (`Registry`) holds the tables as a value. It defines the operations that only rewrite them and the `Evolves` invariant, which says how one resolution may change the tables.
- `resolution.dfy` (`Resolution`) gives `make`, singleton realization, `buildObject`, the three passes and `call` as functions. Each function returns the result together with the tables afterwards.
- `container.dfy` (`Container`) holds the `Phi` class, whose fields are the tables, and the `Ioc` accessor. Their methods run the source's loops and are proved equal to the functions of `Resolution` and `Registry`.
- `resolution_laws.dfy` and `argument_laws.dfy` hold the properties of `make` and of `buildArguments`.
- `failure.dfy` (`Failure`) holds the cause chain, the message functions and the two throwable classes.

Every object the container itself constructs (`new $binding` in `buildObject`) carries an identity drawn from its allocation counter `nextId`. Among those objects, two are the same object (`assertSame`) exactly when their ids agree. Objects that come from outside the container carry whatever id they came with: the results of factory and singleton callables (`Host.invoke`) and the objects a caller passes in its argument array. The model makes no identity claim about them. Recursion through `make` spends one unit of `fuel` per level and reports `OutOfFuel` when none is left. The PHP code has no bound at all.

Pass 2 of `buildArguments` runs for every class-typed parameter, including one that pass 1 already filled by name. A pooled instance of the parameter's type therefore overrides the named argument. `TypeMatchOverridesName` shows this.

## Model

| member | source | states |
|---|---|---|
| Registry.Tables.Bind | src/Phi.php:36-38 | after `bind`, the alias resolves to the new binding, every other alias resolves as before, and the singletons and resolvers are unchanged |
| ResolutionLaws.BindOverwrites | src/Phi.php:36-38 | a second `bind` of the same alias leaves the same tables as that `bind` alone |
| Registry.Tables.Singleton | src/Phi.php:43-50 | a non-object or callable binding is stored lazily with its arguments and the bindings are untouched; a plain object is bound directly and the singletons are untouched; other aliases resolve as before |
| Registry.Tables.AddResolver | src/Phi.php:66-68 | the resolver list grows by one, the new resolver is last, and the earlier ones keep their order |
| Registry.Tables.Flush | src/Phi.php:27-31 | after `flush` there are no bindings, so every alias resolves to itself; there are no singletons and no resolvers; the allocation counter is kept |
| Registry.Tables.Cache | src/Phi.php:90-95 | a realized singleton is bound under its alias and its lazy entry is gone; every other alias resolves as before and keeps its lazy entry, and the resolvers are unchanged |
| Registry.Initial | src/Ioc.php:29-31 | a new container resolves the `Ioc` class name to itself and every other alias to itself as a string |
| Registry.FirstAnswer | src/Phi.php:75-83 | the answer is the first non-null answer of the resolvers, in order; there is none exactly when every resolver defers |
| ResolutionLaws.AddResolverConsultedLast | src/Phi.php:66-68 | an appended resolver is asked only when every earlier one defers |
| ResolutionLaws.ResolverShortCircuit | src/Phi.php:75-83 | when resolver i is the first that does not defer, `make` returns its answer and leaves the tables unchanged |
| ResolutionLaws.RealizeFirst | src/Phi.php:85-96 | when no resolver answers, a failed realization of the lazy entry is the result of `make`; after a successful one `make` behaves as it does on the realized tables |
| ResolutionLaws.Unbound | src/Phi.php:115-116 | when no resolver answers and the alias has neither a binding nor a lazy entry, `make` builds the alias itself as a class |
| Resolution.Make | src/Phi.php:73-117 | one `make` changes the tables only as `Evolves` allows; a successful `make` that no resolver answered leaves the alias without a lazy entry |
| Resolution.Realize | src/Phi.php:86-96 | realization changes the tables only as `Evolves` allows; it removes the lazy entry when it succeeds and does nothing when there is none |
| ResolutionLaws.Dispatch | src/Phi.php:99-113 | a callable binding is invoked with the caller's arguments before anything else is tried; otherwise an object is returned as is, a string is made again as an alias, and any other value is a type error |
| ResolutionLaws.RedirectStep | src/Phi.php:112 | an alias bound to the name of another alias is made exactly as that alias, with one level of recursion spent |
| ResolutionLaws.RedirectChain | src/Phi.php:112 | a chain of bindings `a0 -> a1 -> ... -> an` makes `a0` exactly as it makes `an` |
| ResolutionLaws.SingletonRealizedOnce | src/Phi.php:86-96 | the first `make` of a lazy alias builds it from the stored arguments, binds it and drops the lazy entry; when the result is a plain object, every later `make` returns that same object, whatever its arguments, and changes nothing |
| ResolutionLaws.SingletonDiffersFromFreshInstance | src/Phi.php:86-96 | a singleton of class C and a later plain `make` of C are different objects |
| ResolutionLaws.BuildsUnboundAlias | src/Phi.php:116-144 | an unbound alias is built as a class: an unknown class fails reflection, a non-instantiable class raises the invalid-argument error and changes nothing, and a class without a constructor gets a new object built with no arguments |
| ResolutionLaws.BuildsNewObject | src/Phi.php:129-150 | building an unbound alias yields a new object of that class, different from every object that existed before |
| ResolutionLaws.ContainerBindsItself | src/Ioc.php:29-31 | a new container's `make` of the `Ioc` class name returns the container and changes nothing; after `flush` that name has no binding and resolves to itself |
| Resolution.BuildObject | src/Phi.php:129-150 | a successful build returns a new object of the named class, with an id not used before, and the tables change only as `Evolves` allows |
| ResolutionLaws.BuildObjectUsesArguments | src/Phi.php:139-149 | a class without a constructor is built with no arguments and the next id; otherwise the constructor receives what `buildArguments` makes of the caller's arguments for the constructor's parameters, spread in ascending slot order, and a failure to build them is returned unchanged |
| Resolution.Call | src/Phi.php:155-161 | a non-callable is a type error and changes nothing; otherwise the callable is invoked on what `buildArguments` makes of the caller's arguments for its signature, spread positionally in ascending slot order; a failure to build the arguments is returned unchanged; the tables afterwards are those argument building left |
| Resolution.BuildArguments | src/Phi.php:171-276 | every filled slot is a parameter index, and every required class-typed or value-object parameter is filled |
| Resolution.NamePass | src/Phi.php:222-232 | the pool only loses entries; slots already filled stay filled; a slot filled here is the first parameter of the name of some caller entry |
| Resolution.TypePass | src/Phi.php:235-249 | the pool only loses entries; a slot changed here holds an instance of its parameter's type; each class-typed parameter either holds an instance of its type or the final pool holds none |
| Resolution.FillPass | src/Phi.php:252-271 | slots filled earlier keep their values; only parameter slots are added; every injected parameter is filled; an empty optional class-typed parameter stays empty |
| ArgumentLaws.NamePassKeeps | src/Phi.php:222-232 | a slot filled by name keeps its value while no later entry carries that parameter's name |
| ArgumentLaws.NamedEntryLands | src/Phi.php:222-232 | with distinct keys, a named entry ends in the slot of the first parameter with that name |
| ArgumentLaws.NamePassKeepsUnclaimed | src/Phi.php:222-232 | pass 1 never removes an entry whose key names no parameter |
| ArgumentLaws.NamePassRemovesClaimed | src/Phi.php:222-232 | pass 1 removes from the pool every entry whose key names a parameter |
| ArgumentLaws.NamePassFilters | src/Phi.php:222-232 | pass 1 leaves the pool filtered by the keys it claimed, with the surviving entries in their original order |
| ArgumentLaws.PoolAfterNames | src/Phi.php:222-232 | after pass 1 the pool is the caller's array, in its original order, without the entries whose key names a parameter; an entry stays exactly when its key names no parameter |
| ArgumentLaws.TypePassSplit | src/Phi.php:235-249 | pass 2 over all parameters is pass 2 over the parameters before `q` followed by pass 2 from `q` |
| ArgumentLaws.TypePassTakesFirst | src/Phi.php:235-249 | a class-typed parameter takes the value of the first entry of the pool as it is at that parameter that is an instance of its type, and that entry's key is gone from the final pool; with no such entry the slot keeps what pass 1 put there, or stays empty |
| ArgumentLaws.TypePassFilters | src/Phi.php:235-249 | pass 2 leaves the pool filtered, with the surviving entries in their original order |
| ArgumentLaws.TypePassRemovedLands | src/Phi.php:235-249 | with distinct keys, an entry leaves the pool in pass 2 only when a class-typed parameter took it: the entry is an instance of that parameter's type, and its value sits in that parameter's slot at the end of pass 2 |
| ArgumentLaws.TypePassKeepsUnmatched | src/Phi.php:235-249 | with distinct keys, an entry that is an instance of no class type from the current parameter on stays in the pool |
| ArgumentLaws.TypePassKeepsNonObjects | src/Phi.php:235-249 | with distinct keys, scalars, arrays and `null` always stay in the pool through pass 2 |
| ArgumentLaws.FillPassTakesInOrder | src/Phi.php:252-271 | in a successful pass 3, the empty untyped parameter that comes k-th among the pool-consuming parameters holds `pool[k]`, or stays empty when the pool has run out; a value-object parameter holds what `make` of its class returned on `[pool[k]]`, or on `[null]` when the pool has run out; a required class-typed parameter holds what `make` of its class returned with no arguments and takes nothing from the pool |
| ArgumentLaws.UntypedTakePoolInOrder | src/Phi.php:267-269 | empty untyped parameters take the pooled values in order, one each, until the pool runs out; nothing is built and the tables are unchanged |
| ArgumentLaws.ScalarParameters | src/Phi.php:252-275 | for any host, `['a', 'b']` fills two untyped parameters with `'a'` then `'b'` |
| ArgumentLaws.ScalarBuild | src/Phi.php:139-149 | a class whose constructor takes two untyped parameters, built with `['a', 'b']`, is a new object with the next id, constructed with `'a'` then `'b'` |
| ArgumentLaws.KeyedInjection | src/Phi.php:222-271 | `['val2' => 'test1', 'test2']` gives `val1 = 'test2'` and `val2 = 'test1'` |
| ArgumentLaws.KeyedNames | src/Phi.php:222-232 | in that example pass 1 claims `val2` and leaves the positional entry in the pool |
| ArgumentLaws.KeyedFill | src/Phi.php:252-271 | in that example pass 3 gives the empty `val1` the positional entry |
| ArgumentLaws.TypeMatchOverridesName | src/Phi.php:222-249 | for `(B $b)` called with `['b' => $b1, $b2]`, pass 2 replaces `$b1` with `$b2` |
| Types.ParamIndex | src/Phi.php:224-229 | the index of the first parameter with the given name, or none when no parameter has that name |
| Types.FirstInstance | src/Phi.php:238-245 | the index of the first pooled value that is an instance of the type, or none when there is no such value |
| Types.RemoveKey | src/Phi.php:227 | `unset` keeps exactly the entries with other keys and only loses entries; with distinct keys it removes exactly one entry when the key is present, and it changes nothing when the key is absent |
| Types.RemoveKeyInOrder | src/Phi.php:227 | `unset` keeps the other entries in their original order |
| Types.RemoveKeyDistinct | src/Phi.php:227 | `unset` keeps the keys of a PHP array distinct |
| Types.Shift | src/Phi.php:268 | `array_shift` yields the first value and the rest, or null and an empty pool |
| Types.Spread | src/Phi.php:273-275 | the spread is no longer than the parameter list; it has one value per parameter exactly when every slot is filled, and then the i-th value is slot i's |
| Types.FilledBelow | src/Phi.php:273 | the filled slots below n, strictly ascending, as `ksort` orders them |
| Types.SpreadInOrder | src/Phi.php:273-275 | with gaps, the spread has one value per filled slot, and the i-th value belongs to the i-th filled slot in ascending order |
| Container.FindParam | src/Phi.php:224-230 | the inner loop of pass 1 returns the index `ParamIndex` specifies |
| Container.FindInstance | src/Phi.php:238-247 | the inner loop of pass 2 returns the index `FirstInstance` specifies |
| Container.MatchNames | src/Phi.php:222-232 | the pass-1 loop computes `NamePass` |
| Container.MatchTypes | src/Phi.php:235-249 | the pass-2 loop computes `TypePass` |
| Container.Phi.constructor | src/Ioc.php:29-31 | a new container's tables are the initial tables, with the container bound under the `Ioc` class name |
| Container.Phi.Flush | src/Phi.php:27-31 | the new tables are the old tables flushed |
| Container.Phi.Bind | src/Phi.php:36-38 | the new tables are the old tables with the binding written |
| Container.Phi.Singleton | src/Phi.php:43-50 | the new tables are the old tables after `Singleton` |
| Container.Phi.AddResolver | src/Phi.php:66-68 | the new tables are the old tables with the resolver appended |
| Container.Phi.Resolve | src/Phi.php:55-61 | a bound alias resolves to its binding, and an unbound alias resolves to itself as a string |
| Container.Phi.AskResolvers | src/Phi.php:75-83 | the resolver loop returns the first non-null answer, or none, as `FirstAnswer` specifies |
| Container.Phi.Make | src/Phi.php:73-117 | the result and the new tables are those `Resolution.Make` gives |
| Container.Phi.Lookup | src/Phi.php:98-116 | once no resolver answered and the alias has no lazy entry, the result and the new tables are those `Resolution.Make` gives |
| Container.Phi.Dispatch | src/Phi.php:99-113 | for a bound alias, the result and the new tables are those `Resolution.Make` gives |
| Container.Phi.BuildUnbound | src/Phi.php:115-116 | for an unbound alias, the result and the new tables are those `Resolution.Make` gives |
| Container.Phi.Realize | src/Phi.php:86-96 | the outcome and the new tables are those `Resolution.Realize` gives |
| Container.Phi.BuildObject | src/Phi.php:129-150 | the result and the new tables are those `Resolution.BuildObject` gives |
| Container.Phi.Call | src/Phi.php:155-161 | the result and the new tables are those `Resolution.Call` gives |
| Container.Phi.BuildArguments | src/Phi.php:171-276 | the result and the new tables are those `Resolution.BuildArguments` gives |
| Container.Ioc.constructor | src/Ioc.php:10-11 | the instance slot starts empty |
| Container.Ioc.Instance | src/Ioc.php:18-24 | the first call constructs a fresh container with the initial tables; every call returns the one in the slot |
| Failure.Terminal | src/InstantiationException.php:15-19 | the walk ends at a cause that is not a node of the walking class |
| Failure.WalkVisitsPath | src/InstantiationException.php:15-17 | following `getPrevious()` k times from the cause visits the k-th alias of the path, and after the whole path reaches the terminal cause |
| Failure.WalkChain | src/InstantiationException.php:13-17 | the loop appends `" -> alias"` for each node of the path, in order, and stops at the terminal cause |
| Failure.MessageExtends | src/InstantiationException.php:13-19 | wrapping a node in another of the same class splices `" -> "` and the outer alias in after the prefix and keeps the terminal cause |
| Failure.TwoLevelChain | src/InstantiationException.php:13-19 | "X" wrapping "Y" wrapping a foreign cause reads `prefix + "X -> Y: " + cause message` |
| Failure.InstantiationException.constructor | src/InstantiationException.php:9-31 | `getAlias` and `getArgs` return the constructor's arguments, the message is the exception prefix, the alias, the alias path and the terminal cause's message, and file and line are the terminal cause's |
| Failure.InstantiationError.constructor | src/InstantiationError.php:9-31 | the same for the `Error` hierarchy, with the error prefix |

## Left out

- PHP reflection (`ReflectionClass`, `ReflectionNamedType`, `CallableReflection`) is a given signature table in `Host`: instantiable flag, constructor parameters, value-object flag and supertypes. Builtin parameter types appear as untyped parameters.
- `is_callable`, calling a callable, a resolver's answer and a callable's parameter list are opaque functions of `Host`. Their side effects and exceptions are not modelled. This covers a factory that itself calls back into the container.
- `new $class(...$values)` is modelled as a fresh `Obj` recording the class and the constructor's argument values. The constructor body does not run.
- The `BapCat\Values` library is reduced to the value-object flag of a class.
- `src/Resolver.php` and `src/PhiThrowable.php` are interfaces with no logic. A resolver is reduced to its identity and `Host.ask`; a null answer means "defer".
- Resolution.Make: unbounded recursion (redirect cycles, cyclic constructor dependencies) is replaced by a fuel bound that reports `OutOfFuel`. PHP would exhaust its stack instead.
- Container.Phi.Make: the model cannot observe that later resolvers are not asked. The loop returns at the first answer, but the fact is not stated as a contract.
- Errors are values (`Err`, `Fail`) rather than thrown exceptions. PHP's string-keyed spread into named arguments is not distinguished from positional spreading.
- `make` and `call` never wrap failures in `InstantiationException` or `InstantiationError`. Those classes are modelled on their own.
- `Failure.InstantiationException.constructor`: `$e instanceof static` is modelled as "an instantiation node of the same hierarchy". Subclasses of the two classes are not modelled.
- Process-wide static state: `Ioc::$instance` is a field of an explicitly constructed `Ioc` object.
- Resolution.BuildObject: construction never fails. PHP's `new` at src/Phi.php:143 and src/Phi.php:149 throws `ArgumentCountError` or `TypeError` when the filled values do not suit the constructor: too few values for its required parameters, or a value of the wrong type. The model returns a new object in every such case, because the constructor's checks belong to PHP itself.
- Object identity: the ids of objects a container constructs come from its own counter, and every `Phi` object records id 0 for itself. Objects created by two different containers are therefore not told apart. Within one container, the ids it allocates are distinct. Objects that a factory or singleton callable returns, or that the caller passes in, do not draw from the counter. Their ids are whatever `Host.invoke` or the caller chose, so they may coincide with ids the container allocates.
