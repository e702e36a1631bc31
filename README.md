# Hosting-device load-balancer driver, modelled in Dafny

This project models `HostingDevicePluginDriver`, the neutron LBaaS driver that
places a load balancer on a "hosting device" (a virtual appliance managed by
the servicevm device plugin) and then drives that device through management
commands.

For each lifecycle event on a VIP, pool, member or pool health monitor the
driver produces three things:

- a command: an action name plus its argument mapping;
- a route: the command always goes to a VIP's service-table instance. VIP
  events use the VIP's own id. Pool, member and monitor events use the
  pool's `vip_id`. A pool without a VIP gets no command, and its success
  callback runs at once;
- a pair of callbacks. Each callback is a status change (ACTIVE or ERROR) or
  a row deletion in the lbaas plugin's database. The one exception is
  `delete_pool`'s errorback, which sends `_update_pool` again with the bare
  status `ERROR` as its kwargs.

`create_vip` first asks the scheduler for an existing device. Only when the
scheduler finds none does it boot one: it picks a LOADBALANCER template
(NotFound when there is none), builds a two-leg ingress/egress service
context, creates the device and binds a service instance for the VIP to it.

Layout:

- `wrappers.dfy`: `Option`, `Result` and `Outcome`. An `Outcome` is a call that returns nothing but may raise.
- `lbaas_types.dfy`: statuses, `_ACTIVE_PENDING`, and the VIP, pool, member and monitor fields the driver reads. It also holds the exceptions.
- `lbaas_store.dfy`: the lbaas rows the callbacks touch, `get_pool`, what one callback does to the rows, and lemmas about racing callbacks.
- `service_context.dfy`: the service-context legs that `_schedule_vip` and `_boot_device` build, and the device and service-instance rows.
- `mgmt_commands.dfy`: the closed set of actions, their wire names, their payload shapes, and `update_pool`'s choice of action.
- `dispatch_log.dfy`: one dispatch record per device-plugin call, the callbacks each handler registers, and which dispatch completes next.
- `plugin_driver.dfy`: the class `HostingDevicePluginDriver`. It has one method per entry point, and `Resolve`, which delivers a completion.
- `lifecycle.dfy`: a lifecycle call followed by its completion, for every driver state with nothing else pending for the VIP.
- `scenarios.dfy`: client runs of the driver through short event sequences.

The class keeps the lbaas rows (`store`), the device plugin's `devices` and
`instances`, the `log` of every dispatch issued, and `outcomes` (for each
completed dispatch, whether it succeeded). The scheduler,
`choose_device_template`, `subnet_id_to_network_id` and whether each of the
two create calls raises are constant function-valued fields fixed by the
constructor. A completion is an explicit
step: `Resolve(target, succeeded)` picks the oldest pending dispatch to
`target` and runs exactly one of its two callbacks. A completed dispatch is
never picked again.

Four facts about the code that a reader might not expect, all modelled as
written:

- `_boot_device` has no compensating deletion (plugin_driver.py:137-145).
  When `create_service_instance_by_type` raises after `create_device_sync`
  succeeded, the device stays with no instance bound to it. The model gives
  both create calls a failure point and keeps the device in that case
  (`Scenarios.BootInstanceFailureLeavesDevice`).
- `delete_pool`'s errorback calls `_update_pool(pool, ERROR)`
  (plugin_driver.py:237-238). That sends a new command whose kwargs are the
  bare string `ERROR`, to the same VIP, with the usual ACTIVE/ERROR
  callbacks. So if that send succeeds, the pool whose deletion failed ends
  ACTIVE (`Lifecycle.DeletePoolFailureThenResend`).
- The driver never sets a device status, so the model's device rows carry
  none.
- When a pool has no VIP, `_mgmt_pool_call` runs the success callback at
  once (plugin_driver.py:70-73). If that callback's row is gone, the lbaas
  plugin's NotFound propagates out of the lifecycle call. The model's pool,
  member and monitor handlers then return `RowNotFound`.

## Model

| member | source | states |
|---|---|---|
| LbaasStore.GetPool | neutron/services/loadbalancer/drivers/hosting_device/plugin_driver.py:79 | get_pool returns the pool row when its id is in the store, and raises PoolNotFound for that id otherwise |
| LbaasStore.Apply | neutron/services/loadbalancer/drivers/hosting_device/plugin_driver.py:147-154 | a callback changes only its own row: update_status sets that row's status if the row exists; a _delete_db_* callback removes the row; a callback on a missing row leaves the store as it was; every other row keeps its status; a surviving pool keeps every field but its status, so its route never changes |
| LbaasStore.SameRowsSameStore | neutron/services/loadbalancer/drivers/hosting_device/plugin_driver.py:147-154 | two stores that agree on every row's status and every pool's other fields are equal, so the row-wise facts about callbacks determine the whole store |
| LbaasStore.CallbacksOnDifferentRowsCommute | neutron/services/loadbalancer/drivers/hosting_device/plugin_driver.py:293-300 | callbacks on different rows commute, so completions for different entities may arrive in either order and leave the same store |
| LbaasStore.LastWriteWins | neutron/services/loadbalancer/drivers/hosting_device/plugin_driver.py:181-193 | two callbacks on one row: the later status wins, and after a deletion no later callback changes the row again |
| LbaasStore.DeletionIsFinal | neutron/services/loadbalancer/drivers/hosting_device/plugin_driver.py:189-191 | an ERROR or ACTIVE update arriving after the row's deletion leaves the store as the deletion left it |
| ServiceContext.ScheduleContext | neutron/services/loadbalancer/drivers/hosting_device/plugin_driver.py:95-101 | the scheduling request has exactly two legs, ingress on the VIP's network then egress on the pool's network, with no subnet, port, router or index |
| ServiceContext.BootContext | neutron/services/loadbalancer/drivers/hosting_device/plugin_driver.py:130-136 | the boot context has exactly two legs at index 0 with no router: ingress on the VIP's network, subnet and port, and egress on the pool's network and subnet with no port |
| ServiceContext.NetworksOnly | neutron/services/loadbalancer/drivers/hosting_device/plugin_driver.py:95-101 | reducing a context to what the scheduler is given (network and role) keeps its length and each leg's network, role and router |
| ServiceContext.ScheduleAsksForBootPlacement | neutron/services/loadbalancer/drivers/hosting_device/plugin_driver.py:89-136 | the scheduler is asked about exactly the placement a boot would create: the boot context reduced to networks and roles is the scheduling context |
| MgmtCommands.UpdatePoolCommand | neutron/services/loadbalancer/drivers/hosting_device/plugin_driver.py:214-226 | update_pool sends 'update_pool' exactly when the new status is ACTIVE, PENDING_CREATE or PENDING_UPDATE, and 'delete_pool' exactly otherwise; both payloads carry the old and the new pool |
| MgmtCommands.ActionNameIsVerbAndEntity | neutron/services/loadbalancer/drivers/hosting_device/plugin_driver.py:162-330 | every KEY_ACTION string the driver sends (ActionName, twelve in all between these lines) is the action's verb (create, update or delete), an underscore, and its entity (vip, pool, member or pool_health_monitor) |
| MgmtCommands.ActionNameInjective | neutron/services/loadbalancer/drivers/hosting_device/plugin_driver.py:163-168 | distinct actions go out under distinct action strings |
| DispatchLog.Activate | neutron/services/loadbalancer/drivers/hosting_device/plugin_driver.py:149-150 | the success callback of the create and update handlers (also at lines 199-200, 251-252, 296-297) names its own row, and running it on any store makes that row ACTIVE if it exists and leaves it absent otherwise |
| DispatchLog.MarkError | neutron/services/loadbalancer/drivers/hosting_device/plugin_driver.py:151-152 | the errorback of every handler but delete_pool (also at lines 190-191, 201-202, 253-254, 286-287, 298-299, 337-338) is a store update on its own row, and running it on any store makes that row ERROR if it exists and leaves it absent otherwise |
| DispatchLog.PoolCallOutcome | neutron/services/loadbalancer/drivers/hosting_device/plugin_driver.py:67-73 | _mgmt_pool_call raises exactly when the pool has no VIP, a callback is given, and the callback's row no longer exists; the exception is NotFound for that row and the store is left as it was |
| DispatchLog.FirstPending | neutron/services/loadbalancer/drivers/hosting_device/plugin_driver.py:74-75 | the dispatch that completes next for a VIP is pending, targets that VIP, and is the oldest such; None means no dispatch to that VIP is pending |
| DispatchLog.FirstPendingOldest | neutron/services/loadbalancer/drivers/hosting_device/plugin_driver.py:74-75 | the converse of FirstPending's contract: a pending dispatch to the VIP with no older pending dispatch to that VIP is the one FirstPending returns |
| DispatchLog.FirstPendingOfFresh | neutron/services/loadbalancer/drivers/hosting_device/plugin_driver.py:74-75 | a dispatch issued while nothing is pending for its VIP is the next one to complete for that VIP |
| DispatchLog.FirstPendingStableUnderIssue | neutron/services/loadbalancer/drivers/hosting_device/plugin_driver.py:74-75 | issuing new dispatches never changes which already-pending dispatch completes next for a VIP |
| PluginDriver.HostingDevicePluginDriver.constructor | neutron/services/loadbalancer/drivers/hosting_device/plugin_driver.py:61-65 | the driver starts with the given lbaas rows and devices, the given scheduler, device-plugin lookups and create-call failure points, no instances and no dispatches |
| PluginDriver.HostingDevicePluginDriver.MgmtPoolCall | neutron/services/loadbalancer/drivers/hosting_device/plugin_driver.py:67-75 | a pool without a VIP dispatches nothing and runs its success callback at once (nothing when the callback is None), raising NotFound with nothing changed when the callback's row is gone; otherwise exactly one dispatch goes to the pool's VIP and no row changes |
| PluginDriver.HostingDevicePluginDriver.MgmtPoolIdCall | neutron/services/loadbalancer/drivers/hosting_device/plugin_driver.py:77-80 | an unknown pool id raises PoolNotFound with nothing changed; otherwise the call routes through the stored pool as above, with the same outcome |
| PluginDriver.HostingDevicePluginDriver.ScheduleVip | neutron/services/loadbalancer/drivers/hosting_device/plugin_driver.py:89-104 | scheduling raises PoolNotFound exactly when the VIP's pool is missing; otherwise the answer is the scheduler's for LOADBALANCER, the VIP's id and name, and the two-leg network request |
| PluginDriver.HostingDevicePluginDriver.BootDevice | neutron/services/loadbalancer/drivers/hosting_device/plugin_driver.py:114-145 | no LOADBALANCER template raises NotFound before anything is created, and so does a missing pool; a failing create_device_sync raises with nothing created; a failing create_service_instance_by_type raises and leaves the new two-leg device with no instance; otherwise exactly one device with the two-leg boot context and one LOADBALANCER service instance for the VIP bound to it are added; no lbaas row or dispatch changes |
| PluginDriver.HostingDevicePluginDriver.UpdateVipCall | neutron/services/loadbalancer/drivers/hosting_device/plugin_driver.py:147-154 | one dispatch to the VIP's own id: ACTIVE on success, ERROR on failure |
| PluginDriver.HostingDevicePluginDriver.CreateVip | neutron/services/loadbalancer/drivers/hosting_device/plugin_driver.py:156-169 | a device is booted only when scheduling finds none; a failed scheduling, template lookup or device creation raises with nothing created or sent; a failed instance creation raises with the device kept and nothing sent; otherwise 'create_vip' with the VIP goes to the VIP's id |
| PluginDriver.HostingDevicePluginDriver.UpdateVip | neutron/services/loadbalancer/drivers/hosting_device/plugin_driver.py:171-179 | exactly one 'update_vip' dispatch carrying the old and the new VIP, routed to the VIP: ACTIVE or ERROR |
| PluginDriver.HostingDevicePluginDriver.DeleteVip | neutron/services/loadbalancer/drivers/hosting_device/plugin_driver.py:181-193 | exactly one 'delete_vip' dispatch on the delete channel: on success the VIP row is deleted, on failure it becomes ERROR |
| PluginDriver.HostingDevicePluginDriver.UpdatePoolCall | neutron/services/loadbalancer/drivers/hosting_device/plugin_driver.py:197-203 | routes the command through the pool with the pool becoming ACTIVE on success and ERROR on failure; when the pool has no VIP the success callback runs at once and raises NotFound if its row is gone |
| PluginDriver.HostingDevicePluginDriver.CreatePool | neutron/services/loadbalancer/drivers/hosting_device/plugin_driver.py:205-212 | 'create_pool' with the pool through the pool's VIP, or the pool ACTIVE at once when it has no VIP (NotFound when its row is gone) |
| PluginDriver.HostingDevicePluginDriver.UpdatePool | neutron/services/loadbalancer/drivers/hosting_device/plugin_driver.py:214-226 | sends update_pool's chosen command through the pool's VIP, ACTIVE or ERROR; a pool without a VIP becomes ACTIVE at once (NotFound when its row is gone) |
| PluginDriver.HostingDevicePluginDriver.DeletePool | neutron/services/loadbalancer/drivers/hosting_device/plugin_driver.py:228-239 | 'delete_pool' through the pool's VIP: the row is deleted on success and _update_pool with kwargs ERROR is sent again on failure; a pool without a VIP is deleted at once (NotFound when its row is gone) |
| PluginDriver.HostingDevicePluginDriver.UpdateMemberCall | neutron/services/loadbalancer/drivers/hosting_device/plugin_driver.py:243-256 | the action with the member goes through the member's pool: ACTIVE or ERROR; PoolNotFound with nothing changed when the pool is missing; when the pool has no VIP the success callback runs at once and raises NotFound if its row is gone |
| PluginDriver.HostingDevicePluginDriver.CreateMember | neutron/services/loadbalancer/drivers/hosting_device/plugin_driver.py:258-259 | 'create_member' through the member's pool, as for every member command; when the pool has no VIP the success callback runs at once and raises NotFound if its row is gone |
| PluginDriver.HostingDevicePluginDriver.UpdateMember | neutron/services/loadbalancer/drivers/hosting_device/plugin_driver.py:261-274 | the same pool gives one 'update_member'; a changed pool gives 'delete_member' with the old member through the old pool with no callbacks, then 'create_member' through the new pool, in that order; a missing old pool raises before anything is sent, a missing new pool raises after the delete, and a create run at once on a gone member row raises NotFound after the delete |
| PluginDriver.HostingDevicePluginDriver.DeleteMember | neutron/services/loadbalancer/drivers/hosting_device/plugin_driver.py:276-289 | 'delete_member' through the member's pool: the row is deleted on success and becomes ERROR on failure; when the pool has no VIP the success callback runs at once and raises NotFound if its row is gone |
| PluginDriver.HostingDevicePluginDriver.UpdatePoolHealthMonitorCall | neutron/services/loadbalancer/drivers/hosting_device/plugin_driver.py:293-300 | the command goes through the pool, and the (monitor, pool) association becomes ACTIVE on success and ERROR on failure; when the pool has no VIP the success callback runs at once and raises NotFound if its row is gone |
| PluginDriver.HostingDevicePluginDriver.CreatePoolHealthMonitor | neutron/services/loadbalancer/drivers/hosting_device/plugin_driver.py:302-311 | 'create_pool_health_monitor' with the monitor and pool id through the pool; when the pool has no VIP the success callback runs at once and raises NotFound if its row is gone |
| PluginDriver.HostingDevicePluginDriver.UpdatePoolHealthMonitor | neutron/services/loadbalancer/drivers/hosting_device/plugin_driver.py:313-324 | 'update_pool_health_monitor' with the old and new monitor and the pool id through the pool; when the pool has no VIP the success callback runs at once and raises NotFound if its row is gone |
| PluginDriver.HostingDevicePluginDriver.DeletePoolHealthMonitor | neutron/services/loadbalancer/drivers/hosting_device/plugin_driver.py:326-339 | 'delete_pool_health_monitor' through the pool: the association is deleted on success and becomes ERROR on failure; when the pool has no VIP the success callback runs at once and raises NotFound if its row is gone |
| PluginDriver.HostingDevicePluginDriver.Resolve | neutron/services/loadbalancer/drivers/hosting_device/plugin_driver.py:236-239 | a completion resolves the oldest pending dispatch to the VIP, at most once, running exactly its success callback or its failure callback; delete_pool's failure re-sends kwargs ERROR to the same VIP |
| Scenarios.CreateVipBootsThenActivates | neutron/services/loadbalancer/drivers/hosting_device/plugin_driver.py:156-169 | with no device to schedule onto, create_vip boots one device bound to the VIP, and a successful completion makes the VIP ACTIVE |
| Scenarios.CreateVipWithoutTemplate | neutron/services/loadbalancer/drivers/hosting_device/plugin_driver.py:114-118 | with no LOADBALANCER template, create_vip raises NotFound and creates and dispatches nothing |
| Scenarios.DeleteVipFailureKeepsRow | neutron/services/loadbalancer/drivers/hosting_device/plugin_driver.py:189-193 | a failed delete_vip keeps the VIP row and marks it ERROR |
| Scenarios.MonitorOnPoolWithoutVip | neutron/services/loadbalancer/drivers/hosting_device/plugin_driver.py:67-73 | a monitor on a pool with no VIP becomes ACTIVE at once with nothing dispatched |
| Scenarios.MemberMoveActivatesOnCreate | neutron/services/loadbalancer/drivers/hosting_device/plugin_driver.py:261-274 | a moved member sees 'delete_member' then 'create_member'; completing the delete changes nothing, and the member becomes ACTIVE when the create succeeds |
| Scenarios.DeletePoolFailureResends | neutron/services/loadbalancer/drivers/hosting_device/plugin_driver.py:236-239 | a failed delete_pool sends the bare status ERROR to the same VIP, and if that succeeds the pool ends ACTIVE |
| Scenarios.BootInstanceFailureLeavesDevice | neutron/services/loadbalancer/drivers/hosting_device/plugin_driver.py:137-145 | when the service instance cannot be created, create_vip raises, the booted device stays with no instance bound to it, and nothing is dispatched |
| Lifecycle.UpdateVipCompletes | neutron/services/loadbalancer/drivers/hosting_device/plugin_driver.py:147-154 | for every driver state with nothing pending for the VIP: update_vip and then its completion leave the VIP row ACTIVE on success and ERROR on failure (absent if it was gone), change no other row, and leave nothing pending |
| Lifecycle.CreateMemberCompletes | neutron/services/loadbalancer/drivers/hosting_device/plugin_driver.py:243-259 | for every driver state whose member pool has a VIP with nothing pending: create_member returns, and its completion leaves the member row ACTIVE on success and ERROR on failure, changes no other row, and leaves nothing pending |
| Lifecycle.DeleteVipCompletes | neutron/services/loadbalancer/drivers/hosting_device/plugin_driver.py:181-193 | for every driver state with nothing pending for the VIP: delete_vip and then its completion delete the VIP row on success and leave it ERROR on failure, change no other row, and leave nothing pending |
| Lifecycle.DeletePoolFailureThenResend | neutron/services/loadbalancer/drivers/hosting_device/plugin_driver.py:228-239 | for every driver state with nothing pending for the pool's VIP: a failed delete_pool issues the bare-ERROR _update_pool to the same VIP, that dispatch completes next, and the pool row ends ACTIVE if it succeeds and ERROR if it fails; no other row changes |

## Left out

- Option registration and the dynamic import of the scheduler class (plugin_driver.py:39-46, 64-65) are not modelled. The scheduler is a function fixed at construction.
- The `_device_plugin` lookup through `NeutronManager` (plugin_driver.py:56-59) is not modelled. The device plugin is the driver's `devices`, `instances` and `log`.
- The scheduler's strategy is not modelled. It is an arbitrary function of the device registry, the service type, the VIP's id and name, and the requested context.
- `choose_device_template` and `subnet_id_to_network_id` are arbitrary functions. The model does not know how they are implemented.
- The bodies of the device plugin's `_update_service_table_instance`, `_delete_service_table_instance`, `create_device_sync` and `create_service_instance_by_type` are not part of this model. Each dispatch is recorded in the log. Each create call either appends one row or raises; whether it raises is a function of the request fixed at construction, and a raising call leaves no row of its own. A device's position in the registry stands for its id.
- Completions are not asynchronous in the model. The remote device and the two races marked TODO at plugin_driver.py:84 and 107 are not modelled. A completion is the explicit step `Resolve`, which delivers completions for one VIP in issue order. The source itself does not fix that order; it belongs to the device plugin.
- The bodies of the lbaas plugin's `update_status`, `update_pool_health_monitor` and `_delete_db_*` are not part of this model. Each raises NotFound when its row is gone; the model changes nothing in that case, for a status update and for a deletion alike. When the callback runs at once (a pool with no VIP), that NotFound is the lifecycle call's outcome (`DispatchLog.PoolCallOutcome`). When it runs on a completion, it is raised inside the device plugin and `Resolve` does not report it. A deletion removes only its own row, with no cascade to the pool's members or monitors.
- The `context` argument, logging and `stats` (a no-op, plugin_driver.py:341-342) are not modelled.
- Entity dictionaries are reduced to the fields the driver reads. A payload is a typed record of the dictionaries it carries, not a free-form mapping.
- The servicevm schema migration (alembic version 1c6b0d82afcd) is table definitions with no logic, so it is not modelled. Its `downgrade` drops `device_templates`, `service_types`, `device_template_attributes`, `service_instances` and `service_device_bindings`, but `upgrade` creates `devicetemplates`, `servicetypes`, `devicetemplateattributes`, `serviceinstances` and `servicedevicebindings`. Only `devices` matches. `servicecontexts`, `deviceargs` and `deviceservicecontexts` are never dropped.
