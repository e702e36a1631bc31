/**
 * The dispatch/callback contract around the device plugin's
 * _update_service_table_instance and _delete_service_table_instance: each
 * call is one logged dispatch that later resolves to exactly one of its two
 * callbacks.
 */
module DispatchLog {
  import opened Wrappers
  import opened LbaasTypes
  import opened LbaasStore
  import opened MgmtCommands

  /** Which device-plugin entry point carried the command. */
  datatype Channel = UpdateInstance | DeleteInstance

  /**
   * A failure callback: a store update, or delete_pool's errorback, which
   * calls _update_pool(pool, ERROR) again.
   */
  datatype Callback = StoreUpdate(op: StoreOp) | ResendPoolUpdate(pool: Pool)

  /**
   * One call into the device plugin: the service-table instance it targets
   * (always a VIP id), the kwargs, and the two callbacks (None where the
   * source passes None).
   */
  datatype Dispatch = Dispatch(
    channel: Channel,
    target: Id,
    kwargs: Kwargs,
    onSuccess: Option<StoreOp>,
    onFailure: Option<Callback>)

  /**
   * The shapes the driver issues: well-typed kwargs, only delete_vip on the
   * delete channel, and delete_pool's errorback routed through the VIP it
   * was dispatched to.
   */
  predicate WellFormed(d: Dispatch)
  {
    && WellTyped(d.kwargs)
    && (d.channel == DeleteInstance ==> d.kwargs.Command? && d.kwargs.action == DeleteVip)
    && (d.onFailure.Some? && d.onFailure.value.ResendPoolUpdate? ==> d.onFailure.value.pool.vipId == Some(d.target))
  }

  /** The callback the create and update handlers register: the row becomes ACTIVE. */
  function Activate(rec: Record): (r: Option<StoreOp>)
    ensures r.Some? && r.value.rec == rec
    ensures forall st :: StatusOf(Apply(st, r.value), rec) == if IsLive(st, rec) then Some(Active) else None
  {
    Some(SetStatus(rec, Active))
  }

  /** The errorback the create, update and most delete handlers register: the row becomes ERROR. */
  function MarkError(rec: Record): (r: Option<Callback>)
    ensures r.Some? && r.value.StoreUpdate? && r.value.op.rec == rec
    ensures forall st :: StatusOf(Apply(st, r.value.op), rec) == if IsLive(st, rec) then Some(Error) else None
  {
    Some(StoreUpdate(SetStatus(rec, Error)))
  }

  /**
   * The dispatches _mgmt_pool_call issues for a pool: one, to the pool's VIP,
   * or none when the pool has no VIP.
   */
  function PoolCall(pool: Pool, kwargs: Kwargs, callback: Option<StoreOp>, errorback: Option<Callback>): (r: seq<Dispatch>)
  {
    if pool.vipId.None? then [] else [Dispatch(UpdateInstance, pool.vipId.value, kwargs, callback, errorback)]
  }

  /** What _mgmt_pool_call does to the store: the callback runs at once when the pool has no VIP. */
  function PoolCallStore(st: Store, pool: Pool, callback: Option<StoreOp>): (r: Store)
  {
    if pool.vipId.None? then ApplyOpt(st, callback) else st
  }

  /**
   * Whether _mgmt_pool_call returns or raises: a callback run at once on a
   * row that no longer exists raises NotFound out of the lifecycle call, and
   * leaves the store as it was.
   */
  function PoolCallOutcome(st: Store, pool: Pool, callback: Option<StoreOp>): (r: Outcome<Error>)
    ensures r.Fail? <==> pool.vipId.None? && callback.Some? && !IsLive(st, callback.value.rec)
    ensures r.Fail? ==> r.error == RowNotFound(callback.value.rec) && PoolCallStore(st, pool, callback) == st
  {
    if pool.vipId.None? && callback.Some? && !IsLive(st, callback.value.rec) then Fail(RowNotFound(callback.value.rec))
    else Pass
  }

  /**
   * The oldest dispatch at or after position `from` that targets `target` and
   * has not resolved yet: completions for one target arrive in issue order.
   */
  function FirstPending(log: seq<Dispatch>, resolved: set<nat>, target: Id, from: nat): (r: Option<nat>)
    decreases |log| - from
    ensures r.Some? ==> from <= r.value < |log| && r.value !in resolved && log[r.value].target == target
    ensures r.Some? ==> forall j :: from <= j < r.value ==> j in resolved || log[j].target != target
    ensures r.None? ==> forall j :: from <= j < |log| ==> j in resolved || log[j].target != target
  {
    if from >= |log| then None
    else if from !in resolved && log[from].target == target then Some(from)
    else FirstPending(log, resolved, target, from + 1)
  }

  /**
   * The converse of FirstPending's contract: the oldest unresolved dispatch
   * to `target` at or after `from` is the one FirstPending returns.
   */
  lemma {:induction false} FirstPendingOldest(log: seq<Dispatch>, resolved: set<nat>, target: Id, from: nat, i: nat)
    requires from <= i < |log| && i !in resolved && log[i].target == target
    requires forall j :: from <= j < i ==> j in resolved || log[j].target != target
    ensures FirstPending(log, resolved, target, from) == Some(i)
    decreases i - from
  {
    if from < i {
      FirstPendingOldest(log, resolved, target, from + 1, i);
    }
  }

  /** A dispatch issued while nothing is pending for its target is the next to complete there. */
  lemma FirstPendingOfFresh(log: seq<Dispatch>, resolved: set<nat>, d: Dispatch, from: nat)
    requires from <= |log| && |log| !in resolved
    requires FirstPending(log, resolved, d.target, from).None?
    ensures FirstPending(log + [d], resolved, d.target, from) == Some(|log|)
  {
    FirstPendingOldest(log + [d], resolved, d.target, from, |log|);
  }

  /**
   * Issuing more dispatches never changes which dispatch resolves next for a
   * target that already had one pending.
   */
  lemma FirstPendingStableUnderIssue(log: seq<Dispatch>, more: seq<Dispatch>, resolved: set<nat>, target: Id, from: nat)
    requires FirstPending(log, resolved, target, from).Some?
    ensures FirstPending(log + more, resolved, target, from) == FirstPending(log, resolved, target, from)
  {
  }
}
