/**
 * The stand-in deployment service of core/services/ubermax: every identifier
 * resolves to a deployment of an empty instance record, whose user and
 * instance checks are fixed to "allowed".
 */
module Ubermax {
  import opened Wrappers
  import Models

  /** The deployment of one instance record; the record has the shape of the mirrored instance record. */
  datatype Deployment = Deployment(instance: Models.InstanceRec)
  {
    /** Legacy exactly when the instance has no machine. */
    predicate IsLegacy()
      ensures IsLegacy() <==> MachineId() == ""
    {
      instance.machineId == ""
    }

    function InstanceId(): string {
      instance.id
    }

    function MachineId(): string {
      instance.machineId
    }

    predicate IsUserVerified() {
      true
    }

    predicate IsUserSuspended() {
      false
    }

    predicate IsInstanceSuspended() {
      false
    }

    predicate IsInstancePoweredOn() {
      true
    }

    function InstanceSuspendedReason(): string {
      ""
    }

    function UserSuspendedReason(): string {
      ""
    }

    /** The private URL is never known: nil. */
    function PrivateUrl(): Option<string> {
      None
    }
  }

  /** The instance record with every field at its zero value. */
  const EmptyInstance := Models.InstanceRec("", "", "", false, false, 0, false, "", "", map[], "", "", "", false, "", "", "", "")

  /**
   * GetDeploymentByIdentifier: never fails, ignores the identifier, and
   * returns a deployment whose instance has no machine, hence a legacy one.
   */
  function GetDeploymentByIdentifier(identifier: string): (r: Result<Deployment, string>)
    ensures r.Success? && r.value.IsLegacy()
    ensures r.value.InstanceId() == ""
  {
    Success(Deployment(EmptyInstance))
  }

  /** The resolved deployment is the same whatever the identifier. */
  lemma IdentifierIgnored(a: string, b: string)
    ensures GetDeploymentByIdentifier(a) == GetDeploymentByIdentifier(b)
  {
  }
}
