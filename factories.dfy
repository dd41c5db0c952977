/**
 * The dependency-injection container and the executor factory built on it.
 *
 * A container keeps two maps: the providers (how to build the value for a
 * key, and whether to cache what was built) and the cache of singleton
 * instances.  A key is registered when it appears in either map.  Every
 * factory callable in the repository builds a new executor object, so a
 * provider is modelled by the behaviour of the executors it builds.
 */
module Factories {
  import opened Base
  import opened Spec
  import opened Executors

  /** `_Provider`: what a key's factory builds and whether the result is cached. */
  datatype Provider = Provider(factory: Behaviour, singleton: bool)

  /** `ServiceContainer`. */
  class ServiceContainer {
    var providers: map<string, Provider>
    var singletons: map<string, Executor>

    /**
     * A key that is both cached and provided was cached by its own provider:
     * the provider is a singleton one and the cached executor is what it builds.
     */
    ghost predicate Valid()
      reads this
    {
      forall k :: k in singletons && k in providers ==>
        providers[k].singleton && singletons[k].behaviour == providers[k].factory
    }

    constructor ()
      ensures providers == map[] && singletons == map[]
      ensures Valid()
    {
      providers := map[];
      singletons := map[];
    }

    /** `is_registered(key)`. */
    predicate IsRegistered(key: string)
      reads this
    {
      key in providers || key in singletons
    }

    /** What resolving `key` yields, up to object identity; None when it would raise. */
    ghost function Answer(key: string): Option<Behaviour>
      reads this
    {
      if key in singletons then Some(singletons[key].behaviour)
      else if key in providers then Some(providers[key].factory)
      else None
    }

    /**
     * `_set_provider`: refuses an already registered key unless `override`;
     * otherwise drops any cached instance for the key and installs `provider`.
     */
    method SetProvider(key: string, provider: Provider, override: bool) returns (raised: Option<Error>)
      requires Valid()
      modifies this
      ensures Valid()
      ensures raised.Some? <==> !override && old(IsRegistered(key))
      ensures raised.Some? ==> raised.value == AlreadyRegistered(key)
      ensures raised.Some? ==> providers == old(providers) && singletons == old(singletons)
      ensures raised.None? ==> providers == old(providers)[key := provider]
      ensures raised.None? ==> singletons == old(singletons) - {key}
      ensures raised.None? ==> Answer(key) == Some(provider.factory)
    {
      if !override && IsRegistered(key) {
        return Some(AlreadyRegistered(key));
      }
      singletons := singletons - {key};
      providers := providers[key := provider];
      raised := None;
    }

    /** `register_factory`: a provider that builds a new executor on every resolve. */
    method RegisterFactory(key: string, factory: Behaviour, override: bool) returns (raised: Option<Error>)
      requires Valid()
      modifies this
      ensures Valid()
      ensures raised.Some? <==> !override && old(IsRegistered(key))
      ensures raised.Some? ==> raised.value == AlreadyRegistered(key)
      ensures raised.Some? ==> providers == old(providers) && singletons == old(singletons)
      ensures raised.None? ==> providers == old(providers)[key := Provider(factory, false)]
      ensures raised.None? ==> singletons == old(singletons) - {key}
    {
      raised := SetProvider(key, Provider(factory, false), override);
    }

    /** `register_singleton`: a provider whose first result is cached. */
    method RegisterSingleton(key: string, factory: Behaviour, override: bool) returns (raised: Option<Error>)
      requires Valid()
      modifies this
      ensures Valid()
      ensures raised.Some? <==> !override && old(IsRegistered(key))
      ensures raised.Some? ==> raised.value == AlreadyRegistered(key)
      ensures raised.Some? ==> providers == old(providers) && singletons == old(singletons)
      ensures raised.None? ==> providers == old(providers)[key := Provider(factory, true)]
      ensures raised.None? ==> singletons == old(singletons) - {key}
    {
      raised := SetProvider(key, Provider(factory, true), override);
    }

    /**
     * `register_instance`: refuses an already registered key unless
     * `override`; otherwise forgets the key's provider and caches `instance`.
     */
    method RegisterInstance(key: string, instance: Executor, override: bool) returns (raised: Option<Error>)
      requires Valid()
      modifies this
      ensures Valid()
      ensures raised.Some? <==> !override && old(IsRegistered(key))
      ensures raised.Some? ==> raised.value == AlreadyRegistered(key)
      ensures raised.Some? ==> providers == old(providers) && singletons == old(singletons)
      ensures raised.None? ==> providers == old(providers) - {key}
      ensures raised.None? ==> singletons == old(singletons)[key := instance]
    {
      if !override && IsRegistered(key) {
        return Some(AlreadyRegistered(key));
      }
      providers := providers - {key};
      singletons := singletons[key := instance];
      raised := None;
    }

    /**
     * `resolve(key)`: a cached instance is returned as is; otherwise the
     * provider builds a new executor, which is cached when the provider is a
     * singleton one; a key with neither raises a lookup error.  Resolving
     * never changes what any key resolves to, and never evicts the cache.
     */
    method Resolve(key: string) returns (r: Result<Executor>)
      requires Valid()
      modifies this
      ensures Valid()
      ensures r.Success? <==> old(IsRegistered(key))
      ensures r.Failure? ==> r.error == NotRegistered(key)
      ensures r.Success? ==> old(Answer(key)) == Some(r.value.behaviour)
      ensures key in old(singletons) ==> r == Success(old(singletons)[key])
      ensures key in old(singletons) || key !in old(providers) ==>
        providers == old(providers) && singletons == old(singletons)
      ensures key !in old(singletons) && key in old(providers) ==>
        r.Success? && fresh(r.value) && providers == old(providers) &&
        singletons == if old(providers)[key].singleton then old(singletons)[key := r.value] else old(singletons)
      ensures forall k :: Answer(k) == old(Answer(k))
      ensures forall k :: k in old(singletons) ==> k in singletons && singletons[k] == old(singletons)[k]
    {
      if key in singletons {
        return Success(singletons[key]);
      }
      if key !in providers {
        return Failure(NotRegistered(key));
      }
      var provider := providers[key];
      var instance := new Executor(provider.factory);
      if provider.singleton {
        singletons := singletons[key := instance];
      }
      r := Success(instance);
    }

    /** `clear_singletons`: empties the cache and keeps every provider. */
    method ClearSingletons()
      requires Valid()
      modifies this
      ensures Valid()
      ensures providers == old(providers) && singletons == map[]
      ensures forall k :: IsRegistered(k) <==> k in old(providers)
    {
      singletons := map[];
    }
  }

  /** `ExecutorFactory`: executors keyed by step kind in a container. */
  class ExecutorFactory {
    const container: ServiceContainer

    /** `ExecutorFactory()`: a factory over a new, empty container. */
    constructor ()
      ensures fresh(container)
      ensures container.providers == map[] && container.singletons == map[]
      ensures container.Valid()
    {
      container := new ServiceContainer();
    }

    /** `ExecutorFactory(container)`: a factory over an existing container. */
    constructor Sharing(c: ServiceContainer)
      ensures container == c
    {
      container := c;
    }

    /** `_key(kind)`: the container key of a step kind. */
    static function Key(kind: StepKind): (k: string)
      ensures |k| > |KeyPrefix| && k[..|KeyPrefix|] == KeyPrefix
      ensures ParseKind(k[|KeyPrefix|..]) == Some(kind)
    {
      var k := KeyPrefix + KindValue(kind);
      assert k[|KeyPrefix|..] == KindValue(kind);
      k
    }

    /** `is_registered(kind)`. */
    predicate IsRegistered(kind: StepKind)
      reads this, container
    {
      container.IsRegistered(Key(kind))
    }

    /** What `create(kind)` yields, up to object identity; None when it would raise. */
    ghost function Answer(kind: StepKind): Option<Behaviour>
      reads this, container
    {
      container.Answer(Key(kind))
    }

    /** The executor object cached for a kind, if any. */
    function Cached(kind: StepKind): Option<Executor>
      reads this, container
    {
      if Key(kind) in container.singletons then Some(container.singletons[Key(kind)]) else None
    }

    method RegisterFactory(kind: StepKind, builder: Behaviour, override: bool) returns (raised: Option<Error>)
      requires container.Valid()
      modifies container
      ensures container.Valid()
      ensures raised.Some? <==> !override && old(IsRegistered(kind))
      ensures raised.Some? ==> raised.value == AlreadyRegistered(Key(kind))
      ensures raised.Some? ==> container.providers == old(container.providers) && container.singletons == old(container.singletons)
      ensures raised.None? ==> container.providers == old(container.providers)[Key(kind) := Provider(builder, false)]
      ensures raised.None? ==> container.singletons == old(container.singletons) - {Key(kind)}
    {
      raised := container.RegisterFactory(Key(kind), builder, override);
    }

    method RegisterSingleton(kind: StepKind, builder: Behaviour, override: bool) returns (raised: Option<Error>)
      requires container.Valid()
      modifies container
      ensures container.Valid()
      ensures raised.Some? <==> !override && old(IsRegistered(kind))
      ensures raised.Some? ==> raised.value == AlreadyRegistered(Key(kind))
      ensures raised.Some? ==> container.providers == old(container.providers) && container.singletons == old(container.singletons)
      ensures raised.None? ==> container.providers == old(container.providers)[Key(kind) := Provider(builder, true)]
      ensures raised.None? ==> container.singletons == old(container.singletons) - {Key(kind)}
      ensures raised.None? ==> Answer(kind) == Some(builder) && Cached(kind) == None
      ensures forall k :: k != kind ==> Answer(k) == old(Answer(k)) && Cached(k) == old(Cached(k))
    {
      raised := container.RegisterSingleton(Key(kind), builder, override);
      forall k | k != kind ensures Key(k) != Key(kind) {
        KeyInjective(k, kind);
      }
    }

    method RegisterInstance(kind: StepKind, executor: Executor, override: bool) returns (raised: Option<Error>)
      requires container.Valid()
      modifies container
      ensures container.Valid()
      ensures raised.Some? <==> !override && old(IsRegistered(kind))
      ensures raised.Some? ==> raised.value == AlreadyRegistered(Key(kind))
      ensures raised.Some? ==> container.providers == old(container.providers) && container.singletons == old(container.singletons)
      ensures raised.None? ==> container.providers == old(container.providers) - {Key(kind)}
      ensures raised.None? ==> container.singletons == old(container.singletons)[Key(kind) := executor]
      ensures raised.None? ==> Answer(kind) == Some(executor.behaviour) && Cached(kind) == Some(executor)
      ensures forall k :: k != kind ==> Answer(k) == old(Answer(k)) && Cached(k) == old(Cached(k))
    {
      raised := container.RegisterInstance(Key(kind), executor, override);
      forall k | k != kind ensures Key(k) != Key(kind) {
        KeyInjective(k, kind);
      }
    }

    /**
     * `create(kind)`: resolves the kind's key, turning the container's lookup
     * error into one that names the step kind.
     */
    method Create(kind: StepKind) returns (r: Result<Executor>)
      requires container.Valid()
      modifies container
      ensures container.Valid()
      ensures r.Success? <==> old(IsRegistered(kind))
      ensures r.Failure? ==> r.error == NoExecutorForKind(KindValue(kind))
      ensures r.Success? ==> old(Answer(kind)) == Some(r.value.behaviour)
      ensures old(Cached(kind)).Some? ==> r == Success(old(Cached(kind)).value)
      ensures Key(kind) !in old(container.singletons) && Key(kind) in old(container.providers) ==>
        r.Success? && fresh(r.value) &&
        container.singletons == if old(container.providers)[Key(kind)].singleton
                                then old(container.singletons)[Key(kind) := r.value]
                                else old(container.singletons)
      ensures Key(kind) in old(container.singletons) || Key(kind) !in old(container.providers) ==>
        container.singletons == old(container.singletons)
      ensures container.providers == old(container.providers)
      ensures forall k :: container.Answer(k) == old(container.Answer(k))
      ensures forall k :: k in old(container.singletons) ==>
        k in container.singletons && container.singletons[k] == old(container.singletons)[k]
      ensures forall k :: Answer(k) == old(Answer(k))
      ensures forall k :: old(Cached(k)).Some? ==> Cached(k) == old(Cached(k))
    {
      var resolved := container.Resolve(Key(kind));
      if resolved.Failure? {
        return Failure(NoExecutorForKind(KindValue(kind)));
      }
      r := resolved;
    }

    /** `ExecutorFactory.default()`: a new factory whose only registration is the LLM stand-in, as a singleton. */
    static method Default() returns (f: ExecutorFactory)
      ensures fresh(f) && fresh(f.container)
      ensures f.container.providers == DefaultProviders() && f.container.singletons == map[]
      ensures f.container.Valid()
    {
      f := new ExecutorFactory();
      var raised := f.RegisterSingleton(LLM, LLMStandIn, false);
      assert raised.None?;
    }
  }

  const KeyPrefix: string := "executor:"

  /** The providers of a default factory. */
  function DefaultProviders(): map<string, Provider> {
    map[ExecutorFactory.Key(LLM) := Provider(LLMStandIn, true)]
  }

  /** Distinct kinds have distinct keys, so registrations for two kinds never interfere. */
  lemma KeyInjective(a: StepKind, b: StepKind)
    ensures ExecutorFactory.Key(a) == ExecutorFactory.Key(b) <==> a == b
  {
    if ExecutorFactory.Key(a) == ExecutorFactory.Key(b) {
      assert ParseKind(ExecutorFactory.Key(a)[|KeyPrefix|..]) == Some(b);
    }
  }

  /** A default factory has the LLM kind registered and no other. */
  lemma DefaultRegistersOnlyLLM(kind: StepKind)
    ensures ExecutorFactory.Key(kind) in DefaultProviders() <==> kind == LLM
    ensures kind == LLM ==> DefaultProviders()[ExecutorFactory.Key(kind)] == Provider(LLMStandIn, true)
  {
    KeyInjective(kind, LLM);
  }
}
