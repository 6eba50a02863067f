/**
 * The in-process server manager of core/server_manager.go: one local server
 * per subdomain, each on its own port found by probing upwards from the last
 * port handed out. Whether a port can be bound, whether the data directory
 * can be created and how the health endpoint answers are parameters; the
 * server itself is reduced to its port.
 */
module ServerManagement {
  import opened Wrappers

  const FirstPort := 10000
  const MaxPort := 12000
  const HealthTries := 100
  const NoPortsError := "no available ports in range 10000-12000"

  /** A started server: only its port is modelled. */
  datatype Instance = Instance(port: int)

  /**
   * allocatePort's loop: the first port of [from, MaxPort) that `bindable`
   * accepts, or None when it accepts none of them.
   */
  method ProbePorts(from: int, bindable: int -> bool) returns (r: Option<int>)
    ensures r.Some? ==> from <= r.value < MaxPort && bindable(r.value)
    ensures r.Some? ==> forall p :: from <= p < r.value ==> !bindable(p)
    ensures r.None? ==> forall p :: from <= p < MaxPort ==> !bindable(p)
  {
    var port := from;
    while port < MaxPort
      invariant from <= port
      invariant forall p :: from <= p < port ==> !bindable(p)
      decreases MaxPort - port
    {
      if bindable(port) {
        return Some(port);
      }
      port := port + 1;
    }
    return None;
  }

  /**
   * The readiness poll: at most HealthTries health checks, stopping at the
   * first that answers 200. `healthy(k)` says whether the k-th check (from 1)
   * does; `checks` is how many were made.
   */
  method PollHealth(healthy: nat -> bool) returns (ready: bool, checks: nat)
    ensures 1 <= checks <= HealthTries
    ensures ready ==> healthy(checks) && forall k :: 1 <= k < checks ==> !healthy(k)
    ensures !ready ==> checks == HealthTries && forall k :: 1 <= k <= HealthTries ==> !healthy(k)
  {
    var triesRemaining := HealthTries;
    checks := 0;
    while triesRemaining > 0
      invariant 0 <= triesRemaining <= HealthTries && checks == HealthTries - triesRemaining
      invariant forall k :: 1 <= k <= checks ==> !healthy(k)
      decreases triesRemaining
    {
      triesRemaining := triesRemaining - 1;
      checks := checks + 1;
      if healthy(checks) {
        return true, checks;
      }
    }
    ready := false;
  }

  class ServerManager {
    var instances: map<string, Instance>
    var nextPort: int

    /** Every cached server's port lies in [FirstPort, nextPort), and no two cached servers share a port. */
    ghost predicate Valid()
      reads this
    {
      FirstPort <= nextPort &&
      (forall s :: s in instances ==> FirstPort <= instances[s].port < nextPort) &&
      (forall s, t :: s in instances && t in instances && s != t ==> instances[s].port != instances[t].port)
    }

    /** NewServerManager. */
    constructor ()
      ensures Valid() && instances == map[] && nextPort == FirstPort
    {
      instances := map[];
      nextPort := FirstPort;
    }

    /** allocatePort: the first bindable port from nextPort on, after which the probe resumes. */
    method AllocatePort(bindable: int -> bool) returns (r: Result<int, string>)
      modifies this`nextPort
      ensures r.Success? ==> old(nextPort) <= r.value < MaxPort && bindable(r.value) && nextPort == r.value + 1
      ensures r.Success? ==> forall p :: old(nextPort) <= p < r.value ==> !bindable(p)
      ensures r.Failure? ==> nextPort == old(nextPort) && r.error == NoPortsError
      ensures r.Failure? ==> forall p :: old(nextPort) <= p < MaxPort ==> !bindable(p)
    {
      var found := ProbePorts(nextPort, bindable);
      if found.None? {
        return Failure(NoPortsError);
      }
      nextPort := found.value + 1;
      r := Success(found.value);
    }

    /**
     * The data directory of a subdomain, "data" joined with the subdomain;
     * `ensureDir` answers whether that directory could be created.
     */
    static function SubdomainDir(subdomain: string): string {
      "data/" + subdomain
    }

    /**
     * GetOrCreateInstance: a cached server is returned as it is; otherwise a
     * port is allocated, the data directory created and the server started,
     * and only a server that became healthy is cached. A failure after the
     * allocation still uses up the port.
     */
    method GetOrCreateInstance(subdomain: string, bindable: int -> bool, ensureDir: string -> Option<string>,
                               healthy: nat -> bool) returns (r: Result<Instance, string>)
      requires Valid()
      modifies this
      ensures Valid()
      ensures subdomain in old(instances) ==>
                r == Success(old(instances)[subdomain]) && instances == old(instances) && nextPort == old(nextPort)
      ensures subdomain !in old(instances) && r.Failure? ==> instances == old(instances)
      ensures subdomain !in old(instances) && r.Success? ==>
                old(nextPort) <= r.value.port < MaxPort && bindable(r.value.port) &&
                nextPort == r.value.port + 1 && instances == old(instances)[subdomain := r.value]
      ensures subdomain !in old(instances) ==>
                (nextPort == old(nextPort) <==> forall p :: old(nextPort) <= p < MaxPort ==> !bindable(p))
      ensures subdomain !in old(instances) && nextPort != old(nextPort) ==>
                old(nextPort) < nextPort <= MaxPort && bindable(nextPort - 1) &&
                forall p :: old(nextPort) <= p < nextPort - 1 ==> !bindable(p)
      ensures subdomain !in old(instances) && nextPort == old(nextPort) ==>
                r == Failure("failed to allocate port: " + NoPortsError)
      ensures subdomain !in old(instances) && nextPort != old(nextPort) && ensureDir(SubdomainDir(subdomain)).Some? ==>
                r == Failure("failed to create subdomain directory: " + ensureDir(SubdomainDir(subdomain)).value)
      ensures subdomain !in old(instances) && nextPort != old(nextPort) && ensureDir(SubdomainDir(subdomain)).None? ==>
                (r.Success? <==> exists k :: 1 <= k <= HealthTries && healthy(k)) &&
                (r.Failure? ==> r.error == "Timeout waiting to start")
    {
      if subdomain in instances {
        return Success(instances[subdomain]);
      }
      var port := AllocatePort(bindable);
      if port.Failure? {
        return Failure("failed to allocate port: " + port.error);
      }
      var dirError := ensureDir(SubdomainDir(subdomain));
      if dirError.Some? {
        return Failure("failed to create subdomain directory: " + dirError.value);
      }
      var ready, checks := PollHealth(healthy);
      if !ready {
        return Failure("Timeout waiting to start");
      }
      var instance := Instance(port.value);
      instances := instances[subdomain := instance];
      r := Success(instance);
    }
  }

  /** Two subdomains asked for in turn get different ports, and asking again for the first returns its cached server. */
  method TwoSubdomains(bindable: int -> bool, healthy: nat -> bool)
      returns (a: Result<Instance, string>, b: Result<Instance, string>, again: Result<Instance, string>)
    ensures a.Success? && b.Success? ==> a.value.port < b.value.port
    ensures a.Success? ==> again == a
  {
    var sm := new ServerManager();
    var noDirError := (s: string) => None;
    a := sm.GetOrCreateInstance("a", bindable, noDirError, healthy);
    b := sm.GetOrCreateInstance("b", bindable, noDirError, healthy);
    again := sm.GetOrCreateInstance("a", bindable, noDirError, healthy);
  }
}
