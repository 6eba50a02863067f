/**
 * The deployment provider of core/providers/deployment/ubermax/provider.go:
 * a host name is resolved to a deployment by joining the instance serving
 * that host with its owner and its machine, stopping at the first failed
 * lookup. The central database is a parameter; the queries it is asked are
 * returned alongside the result.
 */
module DeploymentProvider {
  import opened Wrappers
  import opened Models

  /** The three lookups of the central database client, with their answers. */
  datatype CentralDb = CentralDb(
    instanceByHostHeader: string -> Result<Instance, string>,
    userById: string -> Result<User, string>,
    machineById: string -> Result<Machine, string>)

  datatype Query = InstanceByHost(host: string) | UserById(userId: string) | MachineById(machineId: string)

  /** The error the database answers `q` with, if any. */
  function QueryError(db: CentralDb, q: Query): Option<string> {
    match q
    case InstanceByHost(h) => if db.instanceByHostHeader(h).Failure? then Some(db.instanceByHostHeader(h).error) else None
    case UserById(u) => if db.userById(u).Failure? then Some(db.userById(u).error) else None
    case MachineById(m) => if db.machineById(m).Failure? then Some(db.machineById(m).error) else None
  }

  datatype Deployment = Deployment(instance: Instance, user: User, machine: Machine)
  {
    /** The provider's deployments cannot yet say where they are served. */
    function Url(): (r: Result<string, string>)
      ensures r.Failure? && r.error == "not implemented"
    {
      Failure("not implemented")
    }
  }

  datatype Resolution = Resolution(result: Result<Deployment, string>, queries: seq<Query>)

  /**
   * GetDeploymentByHost: the instance serving `host`, then its owner by the
   * instance's user id, then its machine by the instance's machine id; the
   * first error is returned as it is and ends the resolution.
   */
  function GetDeploymentByHost(db: CentralDb, host: string): (r: Resolution)
    ensures 1 <= |r.queries| <= 3 && r.queries[0] == InstanceByHost(host)
    ensures |r.queries| >= 2 ==>
              (db.instanceByHostHeader(host).Success? &&
               r.queries[1] == UserById(db.instanceByHostHeader(host).value.UserId()))
    ensures |r.queries| == 3 ==> r.queries[2] == MachineById(db.instanceByHostHeader(host).value.MachineId())
    ensures forall i :: 0 <= i < |r.queries| - 1 ==> QueryError(db, r.queries[i]).None?
    ensures r.result.Failure? <==> QueryError(db, r.queries[|r.queries| - 1]).Some?
    ensures r.result.Failure? ==> r.result.error == QueryError(db, r.queries[|r.queries| - 1]).value
    ensures r.result.Success? ==>
              (|r.queries| == 3 &&
               var instance := db.instanceByHostHeader(host).value;
               db.userById(instance.UserId()).Success? && db.machineById(instance.MachineId()).Success? &&
               r.result.value == Deployment(instance, db.userById(instance.UserId()).value, db.machineById(instance.MachineId()).value))
  {
    var q1 := InstanceByHost(host);
    match db.instanceByHostHeader(host)
    case Failure(e) => Resolution(Failure(e), [q1])
    case Success(instance) =>
      var q2 := UserById(instance.UserId());
      match db.userById(instance.UserId())
      case Failure(e) => Resolution(Failure(e), [q1, q2])
      case Success(user) =>
        var q3 := MachineById(instance.MachineId());
        match db.machineById(instance.MachineId())
        case Failure(e) => Resolution(Failure(e), [q1, q2, q3])
        case Success(machine) => Resolution(Success(Deployment(instance, user, machine)), [q1, q2, q3])
  }
}
