/**
 * The tracer cache of the trace generator (fakeTracerStore behind
 * fakeTracer): a map from service name to a lazily created tracer. Only its
 * sequential lookup-or-insert meaning is modelled; `created` records every
 * tracer construction, in order, so that "at most one construction per
 * service" can be stated.
 */
module Tracers {

  datatype SamplerConfig = SamplerConfig(samplerType: string, param: int)

  /** The jaeger client configuration fakeTracer builds for a service. */
  datatype TracerConfig = TracerConfig(serviceName: string, sampler: SamplerConfig, rpcMetrics: bool)

  /** A tracer handle: the process-wide global tracer, or one constructed for a service. */
  datatype Tracer = GlobalTracer | ServiceTracer(config: TracerConfig)

  /** The configuration: the service name, a "const" sampler with parameter 100, RPC metrics on. */
  function NewTracerConfig(service: string): TracerConfig {
    TracerConfig(service, SamplerConfig("const", 100), true)
  }

  /** The tracer fakeTracer constructs for a service. */
  function TracerFor(service: string): Tracer {
    ServiceTracer(NewTracerConfig(service))
  }

  /** The store after looking up each of `names` in turn. */
  function Cached(store: map<string, Tracer>, names: seq<string>): map<string, Tracer>
    decreases |names|
  {
    if names == [] then store
    else
      var n := names[|names| - 1];
      Cached(store, names[..|names| - 1])[n := TracerFor(n)]
  }

  /** Looking the names up adds exactly them to the store, each with its configured tracer. */
  lemma {:induction false} CachedKeys(store: map<string, Tracer>, names: seq<string>)
    ensures Cached(store, names).Keys == store.Keys + set n | n in names
    ensures forall n :: n in names ==> Cached(store, names)[n] == TracerFor(n)
    ensures forall s :: s in store && s !in names ==> Cached(store, names)[s] == store[s]
    decreases |names|
  {
    if names != [] {
      var m := |names| - 1;
      CachedKeys(store, names[..m]);
      assert names == names[..m] + [names[m]];
      assert (set n | n in names) == (set n | n in names[..m]) + {names[m]};
    }
  }

  /** A store that already holds the configured tracer of every name is left as it is. */
  lemma {:induction false} CachedHit(store: map<string, Tracer>, names: seq<string>)
    requires forall n :: n in names ==> n in store && store[n] == TracerFor(n)
    ensures Cached(store, names) == store
    decreases |names|
  {
    if names != [] {
      var m := |names| - 1;
      assert forall n :: n in names[..m] ==> n in names;
      CachedHit(store, names[..m]);
      assert names[m] in names;
    }
  }

  /** Looking the same names up a second time changes nothing. */
  lemma CachedIdempotent(store: map<string, Tracer>, names: seq<string>)
    ensures Cached(Cached(store, names), names) == Cached(store, names)
  {
    CachedKeys(store, names);
    CachedHit(Cached(store, names), names);
  }

  class TracerRegistry {
    /** fakeTracerStore: service name to its tracer. */
    var store: map<string, Tracer>
    /** The services for which a tracer was constructed, in construction order. */
    var created: seq<string>

    /**
     * Every cached tracer is the one configured for its key, every key was
     * constructed exactly once, and nothing else was constructed.
     */
    ghost predicate Valid()
      reads this
    {
      && (forall s :: s in store ==> store[s] == TracerFor(s))
      && (forall i :: 0 <= i < |created| ==> created[i] in store)
      && (forall s :: s in store ==> s in created)
      && (forall i, j :: 0 <= i < j < |created| ==> created[i] != created[j])
    }

    /** The store starts empty. */
    constructor ()
      ensures Valid()
      ensures store == map[] && created == []
    {
      store := map[];
      created := [];
    }

    /**
     * fakeTracer(service): the cached tracer when there is one; otherwise a
     * new tracer is constructed, stored and returned. A construction failure
     * is fatal to the process in the source and is not modelled.
     */
    method Get(service: string) returns (t: Tracer)
      requires Valid()
      modifies this
      ensures Valid()
      ensures t == TracerFor(service)
      ensures service in old(store) ==> t == old(store)[service]
      ensures store == old(store)[service := t]
      ensures created == if service in old(store) then old(created) else old(created) + [service]
    {
      if service in store {
        t := store[service];
        return;
      }
      t := TracerFor(service);
      store := store[service := t];
      created := created + [service];
    }
  }
}
