/**
 * The service registry of core/ioc/ioc.go: named providers registered once
 * and looked up by name, held in a counted map, behind a lazily created
 * process-wide container. A panic is returned as a failure with its message.
 */
module Ioc {
  import opened Wrappers
  import SyncMap

  /** The panic messages of Register and Get. */
  function AlreadyRegistered(name: string): string {
    "provider " + name + " already registered"
  }

  function NotFound(name: string): string {
    "provider " + name + " not found"
  }

  class IoCContainer<S> {
    /** The registered providers by name. */
    const services: SyncMap.CountedMap<string, S>

    ghost predicate Valid()
      reads this, services
    {
      services.Valid()
    }

    /** An empty container; `zero` stands for the nil provider a missed lookup yields. */
    constructor (zero: S)
      ensures Valid() && fresh(services)
      ensures services.m == map[] && services.zero == zero
    {
      services := new SyncMap.CountedMap(zero);
    }

    /** Register: a name is bound once; binding it again fails and keeps the first provider. */
    method Register(name: string, provider: S) returns (r: Outcome<string>)
      requires Valid()
      modifies services
      ensures Valid()
      ensures r.Pass? <==> name !in old(services.m)
      ensures r.Pass? ==> services.m == old(services.m)[name := provider]
      ensures r.Fail? ==> services.m == old(services.m) && r.error == AlreadyRegistered(name)
    {
      var _, loaded := services.LoadOrStore(name, provider);
      if loaded {
        return Fail(AlreadyRegistered(name));
      }
      r := Pass;
    }

    /** Get: the provider bound to the name, or a failure when none is. */
    method Get(name: string) returns (r: Result<S, string>)
      ensures r.Success? <==> name in services.m
      ensures r.Success? ==> r.value == services.m[name]
      ensures r.Failure? ==> r.error == NotFound(name)
    {
      var provider, ok := services.Load(name);
      if !ok {
        return Failure(NotFound(name));
      }
      r := Success(provider);
    }
  }

  /** The process-wide `instance` variable behind Ioc(). */
  class IocRoot<S> {
    var instance: Option<IoCContainer<S>>
    const zero: S

    /** A container, once created, stays a valid registry. */
    ghost predicate Valid()
      reads this, if instance.Some? then {instance.value} else {}
      reads if instance.Some? then {instance.value.services} else {}
    {
      instance.Some? ==> instance.value.Valid()
    }

    constructor (zero: S)
      ensures Valid()
      ensures instance == None && this.zero == zero
    {
      instance := None;
      this.zero := zero;
    }

    /** Ioc: creates the container on first use and returns that same container on every call. */
    method Ioc() returns (c: IoCContainer<S>)
      requires Valid()
      modifies this
      ensures Valid() && c.Valid()
      ensures instance == Some(c)
      ensures old(instance).Some? ==> c == old(instance).value
      ensures old(instance).None? ==> fresh(c) && fresh(c.services) && c.services.m == map[]
    {
      if instance.None? {
        var container := new IoCContainer(zero);
        instance := Some(container);
      }
      c := instance.value;
    }
  }

  /**
   * Registering then looking up: the provider comes back under its name,
   * a second registration of the name fails, another name stays unbound,
   * and a later call of Ioc() yields the same, still usable container.
   */
  method RegisterThenGet(zero: int, provider: int, other: int)
      returns (sameContainer: bool, first: Outcome<string>, second: Outcome<string>,
               got: Result<int, string>, unbound: Result<int, string>)
    ensures sameContainer
    ensures first == Pass && second == Fail(AlreadyRegistered("port"))
    ensures got == Success(provider)
    ensures unbound == Failure(NotFound("machine"))
  {
    var root := new IocRoot(zero);
    var c1 := root.Ioc();
    first := c1.Register("port", provider);
    var c2 := root.Ioc();
    sameContainer := c1 == c2;
    second := c2.Register("port", other);
    got := c2.Get("port");
    unbound := c2.Get("machine");
  }
}
