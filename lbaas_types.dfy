/**
 * The load-balancer entities the hosting-device driver receives from the
 * lbaas plugin, reduced to the fields the driver reads.
 */
module LbaasTypes {
  import opened Wrappers

  /** A 36-character identifier of a neutron resource. */
  type Id = string

  /** neutron.plugins.common.constants statuses. */
  datatype Status = Active | Down | Created | PendingCreate | PendingUpdate | PendingDelete | Inactive | Error

  /** The service type tag the driver schedules and boots devices for. */
  const LOADBALANCER: string := "LOADBALANCER"

  /** Pool statuses under which update_pool keeps the pool configured (_ACTIVE_PENDING). */
  const ActivePending: set<Status> := {Active, PendingCreate, PendingUpdate}

  datatype Vip = Vip(id: Id, name: string, subnetId: Id, portId: Id, poolId: Id, status: Status)

  /** A pool; vipId is None while no VIP fronts it. */
  datatype Pool = Pool(id: Id, subnetId: Id, vipId: Option<Id>, status: Status)

  datatype Member = Member(id: Id, poolId: Id, status: Status)

  datatype HealthMonitor = HealthMonitor(id: Id)

  /** A row of the lbaas database a callback can touch: a VIP, a pool, a member or a pool/monitor association. */
  datatype Record =
    | VipRecord(vipId: Id)
    | PoolRecord(poolId: Id)
    | MemberRecord(memberId: Id)
    | MonitorRecord(monitorId: Id, poolId: Id)

  /** Exceptions a lifecycle call can raise synchronously. */
  datatype Error =
    | PoolNotFound(poolId: Id)              // get_pool on an id the lbaas store does not hold
    | TemplateNotFound(serviceType: string) // choose_device_template found nothing
    | RowNotFound(rec: Record)              // update_status, update_pool_health_monitor or _delete_db_* on a missing row
    | DeviceCreateFailed(templateId: Id)    // create_device_sync raised
    | InstanceCreateFailed(vipId: Id)       // create_service_instance_by_type raised
}
