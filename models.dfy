/**
 * The mirrored record kinds of core/providers/deployment/ubermax/models:
 * instance, user and machine records, the fields each is indexed under in the
 * cache, and the routing predicates read off them.
 */
module Models {
  import opened Wrappers
  import opened IndexedCaching

  datatype InstanceRec = InstanceRec(
    id: string,
    machineId: string,
    cname: string,
    cnameActive: bool,
    dev: bool,
    idleTtl: int,
    power: bool,
    region: string,
    s3: string,
    secrets: map<string, string>,
    status: string,
    subdomain: string,
    suspension: string,
    syncAdmin: bool,
    uid: string,
    updated: string,
    version: string,
    volume: string)

  datatype Instance = Instance(rec: InstanceRec)
  {
    function SuspendedReason(): string {
      rec.suspension
    }

    /** Suspended exactly when a suspension reason is recorded. */
    predicate IsSuspended()
      ensures IsSuspended() <==> SuspendedReason() != ""
    {
      rec.suspension != ""
    }

    predicate IsPoweredOn() {
      rec.power
    }

    function MachineId(): string {
      rec.machineId
    }

    function UserId(): string {
      rec.uid
    }

    function Cname(): string {
      rec.cname
    }

    function Subdomain(): string {
      rec.subdomain
    }

    /** An instance is indexed by id, custom domain name and subdomain, and by nothing else. */
    function GetFieldMap(): (m: FieldMap)
      ensures m.Keys == {"id", "cname", "subdomain"}
      ensures m["id"] == rec.id && m["cname"] == Cname() && m["subdomain"] == Subdomain()
    {
      map["id" := rec.id, "cname" := rec.cname, "subdomain" := rec.subdomain]
    }
  }

  datatype S3Config = S3Config(key: string, secret: string)

  datatype UserRec = UserRec(
    id: string,
    email: string,
    passwordHash: string,
    s3: S3Config,
    subscription: string,
    subscriptionInterval: string,
    tokenKey: string,
    unsubscribe: bool,
    updated: string,
    username: string,
    verified: bool,
    suspension: string,
    doubleVerified: bool)

  datatype User = User(rec: UserRec)
  {
    predicate IsVerified() {
      rec.verified
    }

    function SuspendedReason(): string {
      rec.suspension
    }

    /** Suspended exactly when a suspension reason is recorded. */
    predicate IsSuspended()
      ensures IsSuspended() <==> SuspendedReason() != ""
    {
      rec.suspension != ""
    }

    /** A user is indexed by id, email and username, and by nothing else. */
    function GetFieldMap(): (m: FieldMap)
      ensures m.Keys == {"id", "email", "username"}
      ensures m["id"] == rec.id && m["email"] == rec.email && m["username"] == rec.username
    {
      map["id" := rec.id, "email" := rec.email, "username" := rec.username]
    }
  }

  datatype MachineRec = MachineRec(id: string, uuid: string, name: string, region: string, privateUrl: string)

  datatype Machine = Machine(rec: MachineRec)
  {
    /** A machine is indexed by id, name, uuid and private URL; its region is not indexed. */
    function GetFieldMap(): (m: FieldMap)
      ensures m.Keys == {"id", "name", "uuid", "privateUrl"} && "region" !in m
      ensures m["id"] == rec.id && m["name"] == rec.name && m["uuid"] == rec.uuid && m["privateUrl"] == rec.privateUrl
    {
      map["id" := rec.id, "name" := rec.name, "uuid" := rec.uuid, "privateUrl" := rec.privateUrl]
    }
  }

  /** Instance.GetFieldMap as a function value, the form the cache's field-map parameter takes. */
  function InstanceFields(i: Instance): FieldMap { i.GetFieldMap() }

  /**
   * Once upserted into a cache of instances, an instance is found by its
   * subdomain and by its custom domain name, whenever those are non-empty.
   */
  lemma InstanceFoundByHostNames(R: Registries<Instance>, i: Instance)
    ensures i.Subdomain() != "" ==> Lookup(Upserted(R, InstanceFields, i), "subdomain", i.Subdomain()) == Some(i)
    ensures i.Cname() != "" ==> Lookup(Upserted(R, InstanceFields, i), "cname", i.Cname()) == Some(i)
  {
    UpsertedLookupAt(R, InstanceFields, i, "subdomain", i.Subdomain());
    UpsertedLookupAt(R, InstanceFields, i, "cname", i.Cname());
  }

  /** Two instances with the same non-empty subdomain cannot both stay cached: the newer one evicts the older. */
  lemma InstanceSubdomainEvicts(R: Registries<Instance>, older: Instance, newer: Instance, g: string, w: string)
    requires older.Subdomain() != "" && older.Subdomain() == newer.Subdomain()
    ensures Lookup(Upserted(R, InstanceFields, newer), g, w) != Some(older) || older == newer
  {
    UpsertedLookupAt(R, InstanceFields, newer, g, w);
    if Lookup(Upserted(R, InstanceFields, newer), g, w) == Some(older) && older != newer {
      assert IsPair(older.GetFieldMap(), "subdomain", newer.GetFieldMap()["subdomain"]);
      assert SharesPair(older.GetFieldMap(), newer.GetFieldMap());
    }
  }
}
