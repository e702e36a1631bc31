/**
 * The management commands the driver sends: an action name plus the
 * argument mapping (KEY_ACTION / KEY_KWARGS), as a closed set of actions
 * with one payload shape per action.
 */
module MgmtCommands {
  import opened LbaasTypes

  datatype Action =
    | CreateVip | UpdateVip | DeleteVip
    | CreatePool | UpdatePool | DeletePool
    | CreateMember | UpdateMember | DeleteMember
    | CreatePoolHealthMonitor | UpdatePoolHealthMonitor | DeletePoolHealthMonitor

  /** The operation an action performs on its entity. */
  function Verb(a: Action): (r: string)
  {
    match a
    case CreateVip | CreatePool | CreateMember | CreatePoolHealthMonitor => "create"
    case UpdateVip | UpdatePool | UpdateMember | UpdatePoolHealthMonitor => "update"
    case DeleteVip | DeletePool | DeleteMember | DeletePoolHealthMonitor => "delete"
  }

  /** The lbaas entity an action is about. */
  function Entity(a: Action): (r: string)
  {
    match a
    case CreateVip | UpdateVip | DeleteVip => "vip"
    case CreatePool | UpdatePool | DeletePool => "pool"
    case CreateMember | UpdateMember | DeleteMember => "member"
    case CreatePoolHealthMonitor | UpdatePoolHealthMonitor | DeletePoolHealthMonitor => "pool_health_monitor"
  }

  /** The action string put under KEY_ACTION. */
  function ActionName(a: Action): (r: string)
  {
    match a
    case CreateVip => "create_vip"
    case UpdateVip => "update_vip"
    case DeleteVip => "delete_vip"
    case CreatePool => "create_pool"
    case UpdatePool => "update_pool"
    case DeletePool => "delete_pool"
    case CreateMember => "create_member"
    case UpdateMember => "update_member"
    case DeleteMember => "delete_member"
    case CreatePoolHealthMonitor => "create_pool_health_monitor"
    case UpdatePoolHealthMonitor => "update_pool_health_monitor"
    case DeletePoolHealthMonitor => "delete_pool_health_monitor"
  }

  /** The mapping put under KEY_KWARGS, one shape per set of keys. */
  datatype Payload =
    | VipArgs(vip: Vip)                                   // {'vip'}
    | VipUpdateArgs(oldVip: Vip, vip: Vip)                // {'old_vip', 'vip'}
    | PoolArgs(pool: Pool)                                // {'pool'}
    | PoolUpdateArgs(oldPool: Pool, pool: Pool)           // {'old_pool', 'pool'}
    | MemberArgs(member: Member)                          // {'member'}
    | MonitorArgs(monitor: HealthMonitor, poolId: Id)     // {'health_monitor', 'pool_id'}
    | MonitorUpdateArgs(oldMonitor: HealthMonitor, monitor: HealthMonitor, poolId: Id)
                                                          // {'old_health_monitor', 'health_monitor', 'pool_id'}

  /**
   * What is handed to the device plugin as kwargs: normally a command; the
   * failure path of delete_pool hands over the bare status string instead.
   */
  datatype Kwargs = Command(action: Action, args: Payload) | BareStatus(status: Status)

  /** Each action is sent only with the payload shapes the driver builds for it. */
  predicate WellTyped(k: Kwargs)
  {
    match k
    case BareStatus(s) => s == Error
    case Command(a, p) =>
      match p
      case VipArgs(_) => a == CreateVip || a == DeleteVip
      case VipUpdateArgs(_, _) => a == UpdateVip
      case PoolArgs(_) => a == CreatePool || a == DeletePool
      case PoolUpdateArgs(_, _) => a == UpdatePool || a == DeletePool
      case MemberArgs(_) => a == CreateMember || a == UpdateMember || a == DeleteMember
      case MonitorArgs(_, _) => a == CreatePoolHealthMonitor || a == DeletePoolHealthMonitor
      case MonitorUpdateArgs(_, _, _) => a == UpdatePoolHealthMonitor
  }

  /**
   * update_pool's command: 'update_pool' exactly when the new status is in
   * _ACTIVE_PENDING, otherwise 'delete_pool'; either way the payload carries
   * the old and the new pool.
   */
  function UpdatePoolCommand(oldPool: Pool, pool: Pool): (k: Kwargs)
    ensures k.Command? && k.args == PoolUpdateArgs(oldPool, pool)
    ensures ActionName(k.action) == "update_pool" <==> pool.status in ActivePending
    ensures ActionName(k.action) == "delete_pool" <==> pool.status !in ActivePending
    ensures WellTyped(k)
  {
    Command(if pool.status in ActivePending then UpdatePool else DeletePool, PoolUpdateArgs(oldPool, pool))
  }

  /** Every action string is the action's verb, an underscore, then its entity. */
  lemma ActionNameIsVerbAndEntity(a: Action)
    ensures ActionName(a) == Verb(a) + "_" + Entity(a)
  {
    match a
    case CreateVip | UpdateVip | DeleteVip => VipActionNames(a);
    case CreatePool | UpdatePool | DeletePool => PoolActionNames(a);
    case CreateMember | UpdateMember | DeleteMember => MemberActionNames(a);
    case CreatePoolHealthMonitor | UpdatePoolHealthMonitor | DeletePoolHealthMonitor => MonitorActionNames(a);
  }

  lemma VipActionNames(a: Action)
    requires a == CreateVip || a == UpdateVip || a == DeleteVip
    ensures ActionName(a) == Verb(a) + "_" + Entity(a)
  {
    if a == CreateVip { assert "create_vip" == "create" + "_" + "vip"; }
    if a == UpdateVip { assert "update_vip" == "update" + "_" + "vip"; }
    if a == DeleteVip { assert "delete_vip" == "delete" + "_" + "vip"; }
  }

  lemma PoolActionNames(a: Action)
    requires a == CreatePool || a == UpdatePool || a == DeletePool
    ensures ActionName(a) == Verb(a) + "_" + Entity(a)
  {
    if a == CreatePool { assert "create_pool" == "create" + "_" + "pool"; }
    if a == UpdatePool { assert "update_pool" == "update" + "_" + "pool"; }
    if a == DeletePool { assert "delete_pool" == "delete" + "_" + "pool"; }
  }

  lemma MemberActionNames(a: Action)
    requires a == CreateMember || a == UpdateMember || a == DeleteMember
    ensures ActionName(a) == Verb(a) + "_" + Entity(a)
  {
    if a == CreateMember { assert "create_member" == "create" + "_" + "member"; }
    if a == UpdateMember { assert "update_member" == "update" + "_" + "member"; }
    if a == DeleteMember { assert "delete_member" == "delete" + "_" + "member"; }
  }

  lemma MonitorActionNames(a: Action)
    requires a == CreatePoolHealthMonitor || a == UpdatePoolHealthMonitor || a == DeletePoolHealthMonitor
    ensures ActionName(a) == Verb(a) + "_" + Entity(a)
  {
    if a == CreatePoolHealthMonitor { assert "create_pool_health_monitor" == "create" + "_" + "pool_health_monitor"; }
    if a == UpdatePoolHealthMonitor { assert "update_pool_health_monitor" == "update" + "_" + "pool_health_monitor"; }
    if a == DeletePoolHealthMonitor { assert "delete_pool_health_monitor" == "delete" + "_" + "pool_health_monitor"; }
  }

  /** Distinct actions go out under distinct names. */
  lemma ActionNameInjective(a: Action, b: Action)
    ensures ActionName(a) == ActionName(b) ==> a == b
  {
  }
}
