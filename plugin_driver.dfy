/**
 * HostingDevicePluginDriver: turns each lbaas lifecycle event into a
 * management dispatch routed to a VIP, and resolves each dispatch into a
 * status change or a row deletion in the lbaas store.
 */
module PluginDriver {
  import opened Wrappers
  import opened LbaasTypes
  import opened LbaasStore
  import opened ServiceContext
  import opened MgmtCommands
  import opened DispatchLog

  /**
   * The hosting-device scheduler's schedule(device_plugin, context,
   * service_type, id, name, service_context): a device of the registry, or
   * None when no existing device fits.
   */
  type Scheduler = (seq<Device>, string, Id, string, seq<ContextEntry>) -> Option<nat>

  class HostingDevicePluginDriver {
    /** The lbaas plugin's rows (self._plugin). */
    var store: Store
    /** The device plugin's devices and service instances. */
    var devices: seq<Device>
    var instances: seq<ServiceInstance>
    /** Every dispatch handed to the device plugin, in issue order. */
    var log: seq<Dispatch>
    /** For each resolved dispatch, whether it succeeded. */
    var outcomes: map<nat, bool>

    /** Collaborators fixed at construction (self._device_scheduler, device plugin lookups). */
    const scheduler: Scheduler
    const chooseDeviceTemplate: string -> Option<Id>
    const subnetIdToNetworkId: Id -> Id
    /** Whether create_device_sync and create_service_instance_by_type raise for a request. */
    const createDeviceFails: Device -> bool
    const createInstanceFails: ServiceInstance -> bool

    ghost predicate Valid()
      reads this
    {
      && (forall i :: i in outcomes ==> i < |log|)
      && (forall i :: 0 <= i < |log| ==> WellFormed(log[i]))
      && (forall k :: 0 <= k < |instances| ==>
            && instances[k].device < |devices|
            && instances[k].serviceType == LOADBALANCER
            && IsTwoLeg(devices[instances[k].device].context))
    }

    constructor (store: Store, devices: seq<Device>, scheduler: Scheduler,
                 chooseDeviceTemplate: string -> Option<Id>, subnetIdToNetworkId: Id -> Id,
                 createDeviceFails: Device -> bool, createInstanceFails: ServiceInstance -> bool)
      ensures Valid()
      ensures this.store == store && this.devices == devices
      ensures instances == [] && log == [] && outcomes == map[]
      ensures this.scheduler == scheduler && this.chooseDeviceTemplate == chooseDeviceTemplate
      ensures this.subnetIdToNetworkId == subnetIdToNetworkId
      ensures this.createDeviceFails == createDeviceFails && this.createInstanceFails == createInstanceFails
    {
      this.store := store;
      this.devices := devices;
      this.instances := [];
      this.log := [];
      this.outcomes := map[];
      this.scheduler := scheduler;
      this.chooseDeviceTemplate := chooseDeviceTemplate;
      this.subnetIdToNetworkId := subnetIdToNetworkId;
      this.createDeviceFails := createDeviceFails;
      this.createInstanceFails := createInstanceFails;
    }

    /** Only the log grew, by exactly `d`. */
    twostate predicate Issued(d: Dispatch)
      reads this
    {
      && store == old(store) && devices == old(devices) && instances == old(instances)
      && outcomes == old(outcomes) && log == old(log) + [d]
    }

    /** The new state and outcome after _mgmt_pool_call(pool, kwargs, callback, errorback). */
    twostate predicate RoutedThroughPool(pool: Pool, kwargs: Kwargs, callback: Option<StoreOp>,
                                         errorback: Option<Callback>, new r: Outcome<Error>)
      reads this
    {
      && r == PoolCallOutcome(old(store), pool, callback)
      && devices == old(devices) && instances == old(instances) && outcomes == old(outcomes)
      && log == old(log) + PoolCall(pool, kwargs, callback, errorback)
      && store == PoolCallStore(old(store), pool, callback)
    }

    /** The new state and outcome after _mgmt_pool_id_call(pool_id, kwargs, callback, errorback). */
    twostate predicate RoutedThroughPoolId(poolId: Id, kwargs: Kwargs, callback: Option<StoreOp>,
                                           errorback: Option<Callback>, new r: Outcome<Error>)
      reads this
    {
      && (poolId !in old(store).pools ==> r == Fail(PoolNotFound(poolId)) && unchanged(this))
      && (poolId in old(store).pools ==>
            RoutedThroughPool(old(store).pools[poolId], kwargs, callback, errorback, r))
    }

    /**
     * _mgmt_pool_call: dispatch to the pool's VIP, or run the callback at once
     * when it has none; a callback run at once on a missing row raises.
     */
    method MgmtPoolCall(pool: Pool, kwargs: Kwargs, callback: Option<StoreOp>, errorback: Option<Callback>)
      returns (r: Outcome<Error>)
      requires Valid() && WellTyped(kwargs)
      requires errorback.Some? && errorback.value.ResendPoolUpdate? ==> errorback.value.pool.vipId == pool.vipId
      modifies this
      ensures Valid()
      ensures RoutedThroughPool(pool, kwargs, callback, errorback, r)
    {
      if pool.vipId.None? {
        // the pool may have no VIP yet: nothing to configure
        if callback.Some? {
          if !IsLive(store, callback.value.rec) {
            return Fail(RowNotFound(callback.value.rec));
          }
          store := Apply(store, callback.value);
        }
        return Pass;
      }
      log := log + [Dispatch(UpdateInstance, pool.vipId.value, kwargs, callback, errorback)];
      r := Pass;
    }

    /** _mgmt_pool_id_call: look the pool up, then route through it. */
    method MgmtPoolIdCall(poolId: Id, kwargs: Kwargs, callback: Option<StoreOp>, errorback: Option<Callback>)
      returns (r: Outcome<Error>)
      requires Valid() && WellTyped(kwargs)
      requires errorback.Some? ==> errorback.value.StoreUpdate?
      modifies this
      ensures Valid()
      ensures RoutedThroughPoolId(poolId, kwargs, callback, errorback, r)
    {
      var pool := GetPool(store, poolId);
      if pool.Failure? {
        return Fail(pool.error);
      }
      r := MgmtPoolCall(pool.value, kwargs, callback, errorback);
    }

    ///////////////////////////////////////////////////////////////////////////
    // vip

    /**
     * _schedule_vip: ask the scheduler for an existing device serving both
     * the VIP's network and its pool's network. Raises PoolNotFound when the
     * VIP's pool is not in the store.
     */
    function ScheduleVip(vip: Vip): (r: Result<Option<nat>, Error>)
      reads this
      ensures r.Failure? <==> vip.poolId !in store.pools
      ensures r.Failure? ==> r.error == PoolNotFound(vip.poolId)
      ensures r.Success? ==>
        var request := ScheduleContext(subnetIdToNetworkId(vip.subnetId), subnetIdToNetworkId(store.pools[vip.poolId].subnetId));
        r.value == scheduler(devices, LOADBALANCER, vip.id, vip.name, request)
    {
      var pool := GetPool(store, vip.poolId);
      if pool.Failure? then Failure(pool.error)
      else
        var serviceContext := ScheduleContext(subnetIdToNetworkId(vip.subnetId), subnetIdToNetworkId(pool.value.subnetId));
        Success(scheduler(devices, LOADBALANCER, vip.id, vip.name, serviceContext))
    }

    /** The device row _boot_device asks create_device_sync for. */
    ghost function BootedDevice(vip: Vip): (d: Device)
      reads this
      requires chooseDeviceTemplate(LOADBALANCER).Some? && vip.poolId in store.pools
    {
      var pool := store.pools[vip.poolId];
      Device(chooseDeviceTemplate(LOADBALANCER).value, map[],
             BootContext(subnetIdToNetworkId(vip.subnetId), vip.subnetId, vip.portId,
                         subnetIdToNetworkId(pool.subnetId), pool.subnetId))
    }

    /** The service instance _boot_device asks create_service_instance_by_type for. */
    function BootedInstance(vip: Vip): (i: ServiceInstance)
      reads this
    {
      ServiceInstance(|devices|, vip.name, LOADBALANCER, vip.id)
    }

    /**
     * _boot_device: pick a LOADBALANCER template (NotFound when there is
     * none), look up the VIP's pool, then create the device and a service
     * instance bound to it for the VIP. Nothing undoes the device when the
     * instance cannot be created: that failure leaves a device with no
     * instance bound to it.
     */
    method BootDevice(vip: Vip) returns (r: Result<(nat, nat), Error>)
      requires Valid()
      modifies this
      ensures Valid()
      ensures store == old(store) && log == old(log) && outcomes == old(outcomes)
      ensures chooseDeviceTemplate(LOADBALANCER).None? ==>
        r == Failure(TemplateNotFound(LOADBALANCER)) && unchanged(this)
      ensures chooseDeviceTemplate(LOADBALANCER).Some? && vip.poolId !in old(store).pools ==>
        r == Failure(PoolNotFound(vip.poolId)) && unchanged(this)
      ensures chooseDeviceTemplate(LOADBALANCER).Some? && vip.poolId in old(store).pools ==>
        && (createDeviceFails(old(BootedDevice(vip))) ==>
              r == Failure(DeviceCreateFailed(chooseDeviceTemplate(LOADBALANCER).value)) && unchanged(this))
        && (!createDeviceFails(old(BootedDevice(vip))) ==>
              && devices == old(devices) + [old(BootedDevice(vip))]
              && (createInstanceFails(old(BootedInstance(vip))) ==>
                    r == Failure(InstanceCreateFailed(vip.id)) && instances == old(instances))
              && (!createInstanceFails(old(BootedInstance(vip))) ==>
                    r == Success((|old(devices)|, |old(instances)|))
                    && instances == old(instances) + [old(BootedInstance(vip))]))
    {
      var template := chooseDeviceTemplate(LOADBALANCER);
      if template.None? {
        return Failure(TemplateNotFound(LOADBALANCER));
      }
      var networkId := subnetIdToNetworkId(vip.subnetId);
      var pool := GetPool(store, vip.poolId);
      if pool.Failure? {
        return Failure(pool.error);
      }
      var poolNetworkId := subnetIdToNetworkId(pool.value.subnetId);
      var serviceContext := BootContext(networkId, vip.subnetId, vip.portId, poolNetworkId, pool.value.subnetId);
      // create_device_sync
      var deviceRequest := Device(template.value, map[], serviceContext);
      if createDeviceFails(deviceRequest) {
        return Failure(DeviceCreateFailed(template.value));
      }
      var device := |devices|;
      devices := devices + [deviceRequest];
      // create_service_instance_by_type
      var instanceRequest := ServiceInstance(device, vip.name, LOADBALANCER, vip.id);
      if createInstanceFails(instanceRequest) {
        return Failure(InstanceCreateFailed(vip.id));
      }
      var instance := |instances|;
      instances := instances + [instanceRequest];
      r := Success((device, instance));
    }

    /** _update_vip: dispatch to the VIP itself; ACTIVE on success, ERROR on failure. */
    method UpdateVipCall(vip: Vip, kwargs: Kwargs)
      requires Valid() && WellTyped(kwargs)
      modifies this
      ensures Valid()
      ensures Issued(Dispatch(UpdateInstance, vip.id, kwargs, Activate(VipRecord(vip.id)), MarkError(VipRecord(vip.id))))
    {
      log := log + [Dispatch(UpdateInstance, vip.id, kwargs, Activate(VipRecord(vip.id)), MarkError(VipRecord(vip.id)))];
    }

    /**
     * create_vip: schedule onto an existing device, boot a new one only when
     * the scheduler finds none, then dispatch 'create_vip' to the VIP.
     */
    method CreateVip(vip: Vip) returns (r: Outcome<Error>)
      requires Valid()
      modifies this
      ensures Valid()
      ensures old(ScheduleVip(vip)).Failure? ==> r == Fail(PoolNotFound(vip.poolId)) && unchanged(this)
      ensures old(ScheduleVip(vip)) == Success(None) && chooseDeviceTemplate(LOADBALANCER).None? ==>
        r == Fail(TemplateNotFound(LOADBALANCER)) && unchanged(this)
      ensures store == old(store) && outcomes == old(outcomes)
      ensures r.Fail? ==> log == old(log)
      ensures r.Pass? ==>
        log == old(log) + [Dispatch(UpdateInstance, vip.id, Command(Action.CreateVip, VipArgs(vip)),
                                    Activate(VipRecord(vip.id)), MarkError(VipRecord(vip.id)))]
      ensures old(ScheduleVip(vip)).Success? && old(ScheduleVip(vip)).value.Some? ==>
        r == Pass && devices == old(devices) && instances == old(instances)
      ensures old(ScheduleVip(vip)) == Success(None) && chooseDeviceTemplate(LOADBALANCER).Some? ==>
        && (createDeviceFails(old(BootedDevice(vip))) ==>
              r == Fail(DeviceCreateFailed(chooseDeviceTemplate(LOADBALANCER).value)) && unchanged(this))
        && (!createDeviceFails(old(BootedDevice(vip))) ==>
              && devices == old(devices) + [old(BootedDevice(vip))]
              && (createInstanceFails(old(BootedInstance(vip))) ==>
                    r == Fail(InstanceCreateFailed(vip.id)) && instances == old(instances))
              && (!createInstanceFails(old(BootedInstance(vip))) ==>
                    r == Pass && instances == old(instances) + [old(BootedInstance(vip))]))
    {
      var scheduled := ScheduleVip(vip);
      if scheduled.Failure? {
        return Fail(scheduled.error);
      }
      if scheduled.value.None? {
        // no device found, so try to create one
        var booted := BootDevice(vip);
        if booted.Failure? {
          return Fail(booted.error);
        }
      }
      UpdateVipCall(vip, Command(Action.CreateVip, VipArgs(vip)));
      r := Pass;
    }

    /** update_vip: dispatch 'update_vip' with the old and the new VIP. */
    method UpdateVip(oldVip: Vip, vip: Vip)
      requires Valid()
      modifies this
      ensures Valid()
      ensures Issued(Dispatch(UpdateInstance, vip.id, Command(Action.UpdateVip, VipUpdateArgs(oldVip, vip)),
                              Activate(VipRecord(vip.id)), MarkError(VipRecord(vip.id))))
    {
      UpdateVipCall(vip, Command(Action.UpdateVip, VipUpdateArgs(oldVip, vip)));
    }

    /** delete_vip: dispatch 'delete_vip' on the delete channel; the row goes on success, ERROR on failure. */
    method DeleteVip(vip: Vip)
      requires Valid()
      modifies this
      ensures Valid()
      ensures Issued(Dispatch(DeleteInstance, vip.id, Command(Action.DeleteVip, VipArgs(vip)),
                              Some(DeleteRecord(VipRecord(vip.id))), MarkError(VipRecord(vip.id))))
    {
      log := log + [Dispatch(DeleteInstance, vip.id, Command(Action.DeleteVip, VipArgs(vip)),
                             Some(DeleteRecord(VipRecord(vip.id))), MarkError(VipRecord(vip.id)))];
    }

    ///////////////////////////////////////////////////////////////////////////
    // pool

    /** _update_pool: route through the pool; ACTIVE on success, ERROR on failure. */
    method UpdatePoolCall(pool: Pool, kwargs: Kwargs) returns (r: Outcome<Error>)
      requires Valid() && WellTyped(kwargs)
      modifies this
      ensures Valid()
      ensures RoutedThroughPool(pool, kwargs, Activate(PoolRecord(pool.id)), MarkError(PoolRecord(pool.id)), r)
    {
      r := MgmtPoolCall(pool, kwargs, Activate(PoolRecord(pool.id)), MarkError(PoolRecord(pool.id)));
    }

    method CreatePool(pool: Pool) returns (r: Outcome<Error>)
      requires Valid()
      modifies this
      ensures Valid()
      ensures RoutedThroughPool(pool, Command(Action.CreatePool, PoolArgs(pool)),
                                Activate(PoolRecord(pool.id)), MarkError(PoolRecord(pool.id)), r)
    {
      r := UpdatePoolCall(pool, Command(Action.CreatePool, PoolArgs(pool)));
    }

    /** update_pool: 'update_pool' while the pool is active or pending, 'delete_pool' otherwise. */
    method UpdatePool(oldPool: Pool, pool: Pool) returns (r: Outcome<Error>)
      requires Valid()
      modifies this
      ensures Valid()
      ensures RoutedThroughPool(pool, UpdatePoolCommand(oldPool, pool),
                                Activate(PoolRecord(pool.id)), MarkError(PoolRecord(pool.id)), r)
    {
      r := UpdatePoolCall(pool, UpdatePoolCommand(oldPool, pool));
    }

    /**
     * delete_pool: the row goes on success; on failure _update_pool runs
     * again with the bare status ERROR as its kwargs.
     */
    method DeletePool(pool: Pool) returns (r: Outcome<Error>)
      requires Valid()
      modifies this
      ensures Valid()
      ensures RoutedThroughPool(pool, Command(Action.DeletePool, PoolArgs(pool)),
                                Some(DeleteRecord(PoolRecord(pool.id))), Some(ResendPoolUpdate(pool)), r)
    {
      r := MgmtPoolCall(pool, Command(Action.DeletePool, PoolArgs(pool)),
                        Some(DeleteRecord(PoolRecord(pool.id))), Some(ResendPoolUpdate(pool)));
    }

    ///////////////////////////////////////////////////////////////////////////
    // member

    /** _update_member: route `action` through the member's pool; ACTIVE on success, ERROR on failure. */
    method UpdateMemberCall(action: Action, member: Member) returns (r: Outcome<Error>)
      requires Valid()
      requires action == Action.CreateMember || action == Action.UpdateMember
      modifies this
      ensures Valid()
      ensures RoutedThroughPoolId(member.poolId, Command(action, MemberArgs(member)),
                                  Activate(MemberRecord(member.id)), MarkError(MemberRecord(member.id)), r)
    {
      r := MgmtPoolIdCall(member.poolId, Command(action, MemberArgs(member)),
                          Activate(MemberRecord(member.id)), MarkError(MemberRecord(member.id)));
    }

    method CreateMember(member: Member) returns (r: Outcome<Error>)
      requires Valid()
      modifies this
      ensures Valid()
      ensures RoutedThroughPoolId(member.poolId, Command(Action.CreateMember, MemberArgs(member)),
                                  Activate(MemberRecord(member.id)), MarkError(MemberRecord(member.id)), r)
    {
      r := UpdateMemberCall(Action.CreateMember, member);
    }

    /**
     * update_member: within one pool, a single 'update_member'; when the
     * member moved, first 'delete_member' with the old member through the old
     * pool and no callbacks, then 'create_member' through the new pool.
     */
    method UpdateMember(oldMember: Member, member: Member) returns (r: Outcome<Error>)
      requires Valid()
      modifies this
      ensures Valid()
      ensures member.poolId == oldMember.poolId ==>
        RoutedThroughPoolId(member.poolId, Command(Action.UpdateMember, MemberArgs(member)),
                            Activate(MemberRecord(member.id)), MarkError(MemberRecord(member.id)), r)
      ensures member.poolId != oldMember.poolId && oldMember.poolId !in old(store).pools ==>
        r == Fail(PoolNotFound(oldMember.poolId)) && unchanged(this)
      ensures member.poolId != oldMember.poolId && oldMember.poolId in old(store).pools ==>
        var deleteOld := PoolCall(old(store).pools[oldMember.poolId], Command(Action.DeleteMember, MemberArgs(oldMember)), None, None);
        && devices == old(devices) && instances == old(instances) && outcomes == old(outcomes)
        && (member.poolId !in old(store).pools ==>
              r == Fail(PoolNotFound(member.poolId)) && store == old(store) && log == old(log) + deleteOld)
        && (member.poolId in old(store).pools ==>
              var newPool := old(store).pools[member.poolId];
              && r == PoolCallOutcome(old(store), newPool, Activate(MemberRecord(member.id)))
              && log == old(log) + deleteOld
                        + PoolCall(newPool, Command(Action.CreateMember, MemberArgs(member)),
                                   Activate(MemberRecord(member.id)), MarkError(MemberRecord(member.id)))
              && store == PoolCallStore(old(store), newPool, Activate(MemberRecord(member.id))))
    {
      // the member may have changed pool
      if member.poolId != oldMember.poolId {
        r := MgmtPoolIdCall(oldMember.poolId, Command(Action.DeleteMember, MemberArgs(oldMember)), None, None);
        if r.Fail? {
          return;
        }
        r := UpdateMemberCall(Action.CreateMember, member);
      } else {
        r := UpdateMemberCall(Action.UpdateMember, member);
      }
    }

    /** delete_member: the row goes on success, ERROR on failure. */
    method DeleteMember(member: Member) returns (r: Outcome<Error>)
      requires Valid()
      modifies this
      ensures Valid()
      ensures RoutedThroughPoolId(member.poolId, Command(Action.DeleteMember, MemberArgs(member)),
                                  Some(DeleteRecord(MemberRecord(member.id))), MarkError(MemberRecord(member.id)), r)
    {
      r := MgmtPoolIdCall(member.poolId, Command(Action.DeleteMember, MemberArgs(member)),
                          Some(DeleteRecord(MemberRecord(member.id))), MarkError(MemberRecord(member.id)));
    }

    ///////////////////////////////////////////////////////////////////////////
    // health monitor

    /** _update_pool_health_monitor: the pool/monitor association becomes ACTIVE or ERROR. */
    method UpdatePoolHealthMonitorCall(monitor: HealthMonitor, poolId: Id, kwargs: Kwargs) returns (r: Outcome<Error>)
      requires Valid() && WellTyped(kwargs)
      modifies this
      ensures Valid()
      ensures RoutedThroughPoolId(poolId, kwargs, Activate(MonitorRecord(monitor.id, poolId)),
                                  MarkError(MonitorRecord(monitor.id, poolId)), r)
    {
      r := MgmtPoolIdCall(poolId, kwargs, Activate(MonitorRecord(monitor.id, poolId)),
                          MarkError(MonitorRecord(monitor.id, poolId)));
    }

    method CreatePoolHealthMonitor(monitor: HealthMonitor, poolId: Id) returns (r: Outcome<Error>)
      requires Valid()
      modifies this
      ensures Valid()
      ensures RoutedThroughPoolId(poolId, Command(Action.CreatePoolHealthMonitor, MonitorArgs(monitor, poolId)),
                                  Activate(MonitorRecord(monitor.id, poolId)),
                                  MarkError(MonitorRecord(monitor.id, poolId)), r)
    {
      r := UpdatePoolHealthMonitorCall(monitor, poolId, Command(Action.CreatePoolHealthMonitor, MonitorArgs(monitor, poolId)));
    }

    method UpdatePoolHealthMonitor(oldMonitor: HealthMonitor, monitor: HealthMonitor, poolId: Id)
      returns (r: Outcome<Error>)
      requires Valid()
      modifies this
      ensures Valid()
      ensures RoutedThroughPoolId(poolId, Command(Action.UpdatePoolHealthMonitor, MonitorUpdateArgs(oldMonitor, monitor, poolId)),
                                  Activate(MonitorRecord(monitor.id, poolId)),
                                  MarkError(MonitorRecord(monitor.id, poolId)), r)
    {
      r := UpdatePoolHealthMonitorCall(monitor, poolId,
                                       Command(Action.UpdatePoolHealthMonitor, MonitorUpdateArgs(oldMonitor, monitor, poolId)));
    }

    /** delete_pool_health_monitor: the association goes on success, ERROR on failure. */
    method DeletePoolHealthMonitor(monitor: HealthMonitor, poolId: Id) returns (r: Outcome<Error>)
      requires Valid()
      modifies this
      ensures Valid()
      ensures RoutedThroughPoolId(poolId, Command(Action.DeletePoolHealthMonitor, MonitorArgs(monitor, poolId)),
                                  Some(DeleteRecord(MonitorRecord(monitor.id, poolId))),
                                  MarkError(MonitorRecord(monitor.id, poolId)), r)
    {
      r := MgmtPoolIdCall(poolId, Command(Action.DeletePoolHealthMonitor, MonitorArgs(monitor, poolId)),
                          Some(DeleteRecord(MonitorRecord(monitor.id, poolId))),
                          MarkError(MonitorRecord(monitor.id, poolId)));
    }

    ///////////////////////////////////////////////////////////////////////////
    // completion

    /**
     * The device side completes the oldest pending dispatch to `target`:
     * exactly one of its callbacks runs, and the dispatch is never resolved
     * again. Returns the dispatch resolved, or None when nothing is pending
     * for `target`.
     */
    method Resolve(target: Id, succeeded: bool) returns (r: Option<nat>)
      requires Valid()
      modifies this
      ensures Valid()
      ensures r == FirstPending(old(log), old(outcomes).Keys, target, 0)
      ensures r.None? ==> unchanged(this)
      ensures r.Some? ==>
        var d := old(log)[r.value];
        && r.value !in old(outcomes) && outcomes == old(outcomes)[r.value := succeeded]
        && devices == old(devices) && instances == old(instances)
        && (succeeded ==> store == ApplyOpt(old(store), d.onSuccess) && log == old(log))
        && (!succeeded && d.onFailure.None? ==> store == old(store) && log == old(log))
        && (!succeeded && d.onFailure.Some? && d.onFailure.value.StoreUpdate? ==>
              store == Apply(old(store), d.onFailure.value.op) && log == old(log))
        && (!succeeded && d.onFailure.Some? && d.onFailure.value.ResendPoolUpdate? ==>
              var pool := d.onFailure.value.pool;
              && store == old(store)
              && log == old(log) + [Dispatch(UpdateInstance, d.target, BareStatus(Error),
                                             Activate(PoolRecord(pool.id)), MarkError(PoolRecord(pool.id)))])
    {
      r := FirstPending(log, outcomes.Keys, target, 0);
      if r.None? {
        return;
      }
      var d := log[r.value];
      outcomes := outcomes[r.value := succeeded];
      if succeeded {
        store := ApplyOpt(store, d.onSuccess);
      } else if d.onFailure.Some? {
        match d.onFailure.value
        case StoreUpdate(op) =>
          store := Apply(store, op);
        case ResendPoolUpdate(pool) =>
          // the pool routes through `target`, so nothing runs at once and nothing raises
          var _ := UpdatePoolCall(pool, BareStatus(Error));
      }
    }
  }
}
