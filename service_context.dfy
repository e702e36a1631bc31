/**
 * Service-context legs (vm_db.ServiceContextEntry) and the device-plugin
 * records the driver creates when it boots a hosting device.
 */
module ServiceContext {
  import opened Wrappers
  import opened LbaasTypes

  /** vm_constants.ROLE_TWOLEG_INGRESS and ROLE_TWOLEG_EGRESS. */
  datatype Role = TwoLegIngress | TwoLegEgress

  /** ServiceContextEntry.create(network_id, subnet_id, port_id, router_id, role, index). */
  datatype ContextEntry = ContextEntry(
    networkId: Option<Id>,
    subnetId: Option<Id>,
    portId: Option<Id>,
    routerId: Option<Id>,
    role: Role,
    index: Option<nat>)

  /**
   * A load-balancer placement: exactly two legs, the client-facing ingress
   * leg first and the pool-facing egress leg second, neither on a router.
   * The roles differ, so role and index never repeat within the context.
   */
  predicate IsTwoLeg(ctx: seq<ContextEntry>)
  {
    && |ctx| == 2
    && ctx[0].role == TwoLegIngress && ctx[1].role == TwoLegEgress
    && ctx[0].routerId.None? && ctx[1].routerId.None?
  }

  /** The context _schedule_vip hands the scheduler: network ids only, no index. */
  function ScheduleContext(networkId: Id, poolNetworkId: Id): (ctx: seq<ContextEntry>)
    ensures IsTwoLeg(ctx)
    ensures ctx[0].networkId == Some(networkId) && ctx[1].networkId == Some(poolNetworkId)
    ensures forall i :: 0 <= i < |ctx| ==> ctx[i].subnetId.None? && ctx[i].portId.None? && ctx[i].index.None?
  {
    [ContextEntry(Some(networkId), None, None, None, TwoLegIngress, None),
     ContextEntry(Some(poolNetworkId), None, None, None, TwoLegEgress, None)]
  }

  /**
   * The context _boot_device attaches to a new device: the ingress leg on the
   * VIP's network, subnet and port; the egress leg on the pool's network and
   * subnet with no port; both legs at index 0.
   */
  function BootContext(networkId: Id, subnetId: Id, portId: Id, poolNetworkId: Id, poolSubnetId: Id): (ctx: seq<ContextEntry>)
    ensures IsTwoLeg(ctx)
    ensures forall i :: 0 <= i < |ctx| ==> ctx[i].index == Some(0)
    ensures ctx[0].networkId == Some(networkId) && ctx[0].subnetId == Some(subnetId) && ctx[0].portId == Some(portId)
    ensures ctx[1].networkId == Some(poolNetworkId) && ctx[1].subnetId == Some(poolSubnetId) && ctx[1].portId.None?
  {
    [ContextEntry(Some(networkId), Some(subnetId), Some(portId), None, TwoLegIngress, Some(0)),
     ContextEntry(Some(poolNetworkId), Some(poolSubnetId), None, None, TwoLegEgress, Some(0))]
  }

  /** A context with only the networks and roles kept: what a scheduler matches on. */
  function NetworksOnly(ctx: seq<ContextEntry>): (r: seq<ContextEntry>)
    ensures |r| == |ctx|
    ensures forall i :: 0 <= i < |ctx| ==> r[i] == ctx[i].(subnetId := None, portId := None, index := None)
  {
    if ctx == [] then [] else [ctx[0].(subnetId := None, portId := None, index := None)] + NetworksOnly(ctx[1..])
  }

  /**
   * The scheduler is asked about the same placement a boot would create:
   * forgetting the subnets, the port and the index of the boot context gives
   * exactly the schedule context.
   */
  lemma ScheduleAsksForBootPlacement(networkId: Id, subnetId: Id, portId: Id, poolNetworkId: Id, poolSubnetId: Id)
    ensures NetworksOnly(BootContext(networkId, subnetId, portId, poolNetworkId, poolSubnetId)) == ScheduleContext(networkId, poolNetworkId)
  {
  }

  /** A device row as create_device_sync is asked to create it. */
  datatype Device = Device(templateId: Id, args: map<string, string>, context: seq<ContextEntry>)

  /** A service instance row binding a device (by its position in the registry) to a VIP. */
  datatype ServiceInstance = ServiceInstance(device: nat, name: string, serviceType: string, serviceTableId: Id)
}
