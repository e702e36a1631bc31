/**
 * Client runs of the driver: each drives a fresh driver through a short
 * sequence of lifecycle events and completions and states what the lbaas
 * store and the device registry hold afterwards.
 */
module Scenarios {
  import opened Wrappers
  import opened LbaasTypes
  import opened LbaasStore
  import opened ServiceContext
  import opened MgmtCommands
  import opened DispatchLog
  import opened PluginDriver

  /** A scheduler that never finds a device. */
  function NoDevice(devices: seq<Device>, serviceType: string, id: Id, name: string, ctx: seq<ContextEntry>): (r: Option<nat>)
  {
    None
  }

  function NetworkOf(subnetId: Id): (r: Id)
  {
    "net-" + subnetId
  }

  /** A device-plugin create call that always succeeds. */
  function NeverFails<T>(request: T): (r: bool)
  {
    false
  }

  /** A device-plugin create call that always raises. */
  function AlwaysFails<T>(request: T): (r: bool)
  {
    true
  }

  /**
   * create_vip with no device to schedule onto boots one device bound to the
   * VIP, and a successful completion makes the VIP ACTIVE.
   */
  method CreateVipBootsThenActivates() returns (vipStatus: Option<Status>, deviceCount: nat, boundVip: Id)
    ensures vipStatus == Some(Active)
    ensures deviceCount == 1 && boundVip == "v1"
  {
    var pool := Pool("p1", "s2", None, PendingCreate);
    var vip := Vip("v1", "web", "s1", "port1", "p1", PendingCreate);
    var store := Store(map["v1" := PendingCreate], map["p1" := pool], map[], map[]);
    var driver := new HostingDevicePluginDriver(store, [], NoDevice, t => Some("lb-template"), NetworkOf, NeverFails, NeverFails);
    var r := driver.CreateVip(vip);
    assert r == Pass;
    var resolved := driver.Resolve("v1", true);
    assert resolved == Some(0);
    vipStatus := StatusOf(driver.store, VipRecord("v1"));
    deviceCount := |driver.devices|;
    boundVip := driver.instances[0].serviceTableId;
  }

  /** create_vip with no template for LOADBALANCER raises and creates and dispatches nothing. */
  method CreateVipWithoutTemplate() returns (r: Outcome<Error>, deviceCount: nat, dispatched: nat)
    ensures r == Fail(TemplateNotFound(LOADBALANCER))
    ensures deviceCount == 0 && dispatched == 0
  {
    var pool := Pool("p1", "s2", None, PendingCreate);
    var vip := Vip("v1", "web", "s1", "port1", "p1", PendingCreate);
    var store := Store(map["v1" := PendingCreate], map["p1" := pool], map[], map[]);
    var driver := new HostingDevicePluginDriver(store, [], NoDevice, t => None, NetworkOf, NeverFails, NeverFails);
    r := driver.CreateVip(vip);
    deviceCount := |driver.devices|;
    dispatched := |driver.log|;
  }

  /** delete_vip whose dispatch fails keeps the VIP row and marks it ERROR. */
  method DeleteVipFailureKeepsRow() returns (vipStatus: Option<Status>)
    ensures vipStatus == Some(Error)
  {
    var vip := Vip("v1", "web", "s1", "port1", "p1", PendingDelete);
    var store := Store(map["v1" := PendingDelete], map[], map[], map[]);
    var driver := new HostingDevicePluginDriver(store, [], NoDevice, t => None, NetworkOf, NeverFails, NeverFails);
    driver.DeleteVip(vip);
    var resolved := driver.Resolve("v1", false);
    assert resolved == Some(0);
    vipStatus := StatusOf(driver.store, VipRecord("v1"));
  }

  /** A monitor on a pool without a VIP becomes ACTIVE at once, with nothing dispatched. */
  method MonitorOnPoolWithoutVip() returns (monitorStatus: Option<Status>, dispatched: nat)
    ensures monitorStatus == Some(Active) && dispatched == 0
  {
    var pool := Pool("p1", "s2", None, Active);
    var store := Store(map[], map["p1" := pool], map[], map[("hm1", "p1") := PendingCreate]);
    var driver := new HostingDevicePluginDriver(store, [], NoDevice, t => None, NetworkOf, NeverFails, NeverFails);
    var r := driver.CreatePoolHealthMonitor(HealthMonitor("hm1"), "p1");
    monitorStatus := StatusOf(driver.store, MonitorRecord("hm1", "p1"));
    dispatched := |driver.log|;
  }

  /**
   * A member moved between two pools behind one VIP: the callback-less
   * delete_member resolves first and changes nothing; the member becomes
   * ACTIVE only when create_member succeeds.
   */
  method MemberMoveActivatesOnCreate() returns (afterDelete: Option<Status>, afterCreate: Option<Status>, actions: seq<Kwargs>)
    ensures afterDelete == Some(PendingUpdate) && afterCreate == Some(Active)
    ensures actions == [Command(Action.DeleteMember, MemberArgs(Member("m1", "p1", Active))),
                        Command(Action.CreateMember, MemberArgs(Member("m1", "p2", PendingUpdate)))]
  {
    var oldPool := Pool("p1", "s2", Some("v1"), Active);
    var newPool := Pool("p2", "s3", Some("v1"), Active);
    var oldMember := Member("m1", "p1", Active);
    var member := Member("m1", "p2", PendingUpdate);
    var store := Store(map["v1" := Active], map["p1" := oldPool, "p2" := newPool], map["m1" := PendingUpdate], map[]);
    var driver := new HostingDevicePluginDriver(store, [], NoDevice, t => None, NetworkOf, NeverFails, NeverFails);
    var r := driver.UpdateMember(oldMember, member);
    actions := [driver.log[0].kwargs, driver.log[1].kwargs];
    var first := driver.Resolve("v1", true);
    assert first == Some(0);
    afterDelete := StatusOf(driver.store, MemberRecord("m1"));
    var second := driver.Resolve("v1", true);
    assert second == Some(1);
    afterCreate := StatusOf(driver.store, MemberRecord("m1"));
  }

  /**
   * delete_pool whose dispatch fails keeps the pool row and sends the bare
   * status ERROR to the same VIP; if that send succeeds the pool ends ACTIVE.
   */
  method DeletePoolFailureResends() returns (resent: Dispatch, poolStatus: Option<Status>)
    ensures resent.target == "v1" && resent.kwargs == BareStatus(Error)
    ensures poolStatus == Some(Active)
  {
    var pool := Pool("p1", "s2", Some("v1"), PendingDelete);
    var store := Store(map["v1" := Active], map["p1" := pool], map[], map[]);
    var driver := new HostingDevicePluginDriver(store, [], NoDevice, t => None, NetworkOf, NeverFails, NeverFails);
    var deleted := driver.DeletePool(pool);
    var failed := driver.Resolve("v1", false);
    assert failed == Some(0);
    resent := driver.log[1];
    var retried := driver.Resolve("v1", true);
    assert retried == Some(1);
    poolStatus := StatusOf(driver.store, PoolRecord("p1"));
  }

  /**
   * create_vip whose device boots but whose service instance cannot be
   * created raises, and leaves the new device behind with no instance bound
   * to it and nothing dispatched.
   */
  method BootInstanceFailureLeavesDevice() returns (r: Outcome<Error>, deviceCount: nat, instanceCount: nat, dispatched: nat)
    ensures r == Fail(InstanceCreateFailed("v1"))
    ensures deviceCount == 1 && instanceCount == 0 && dispatched == 0
  {
    var pool := Pool("p1", "s2", None, PendingCreate);
    var vip := Vip("v1", "web", "s1", "port1", "p1", PendingCreate);
    var store := Store(map["v1" := PendingCreate], map["p1" := pool], map[], map[]);
    var driver := new HostingDevicePluginDriver(store, [], NoDevice, t => Some("lb-template"), NetworkOf, NeverFails, AlwaysFails);
    r := driver.CreateVip(vip);
    deviceCount := |driver.devices|;
    instanceCount := |driver.instances|;
    dispatched := |driver.log|;
  }
}
